# FsCheckUtils in Dafny

A model of the core of FsCheckUtils, a C# library of helpers for the FsCheck
property-based testing engine:

- **Generator combinators** (`GenExtensions`): `Pick(n, l)` samples n elements of `l`
  without replacement by removing len(l) - n drawn positions from a copy of `l`; the overload
  over generators picks n positions into a list of generators; `SomeOf` draws the count
  first. The character generators map a drawn integer range to characters (`NumChar`,
  `AlphaUpperChar`, `AlphaLowerChar`) or choose between weighted alternatives
  (`AlphaChar`, `AlphaNumChar`); `AlphaStr` and `NumStr` make a list of characters and
  filter it by a character class.
- **Property combinators** (`PropExtensions`): `And`, `Or`, the folds `AndAll` and `OrAll`,
  and `Implies`.
- **Configuration builders** (`ConfigExtensions`, `ConfigurationExtensions`): copying
  FsCheck's immutable `Config` with one field overridden, converting a `Config` into a
  mutable Fluent `Configuration`, and setting one property of a `Configuration` in place.

FsCheck's random primitives (`Gen.choose`, `Any.IntBetween`, `MakeListOfLength`,
`MakeList`, `Any.WeighedGeneratorIn`) are not modelled as randomness. What they would draw
is an input to the model, restricted to the range each primitive documents: the removal
indices of `Pick` (each in [0, 10 len(l)]), the count of `SomeOf` (in [0, len(l)]), the integer
behind each character and the alternative a weighted choice takes. Once those draws are
fixed every generator is deterministic, and the proofs hold for every possible draw.

The files:

- `wrappers.dfy`: `Option` and `Result`.
- `gen_extensions.dfy`: module `GenExtensions`. The `removeItems` loop is the method
  `RemoveItems`, working in place on a small `List<T>` class (the .NET list, with
  `RemoveAt`), and proved against the function `Removed`; the lemmas about `Removed` give
  the length, the order-preserving subsequence and the sub-multiset properties. A
  character generator is a `CharGen` value and `Generate(g, d)` is the character it
  yields for the draw `d`; `CanGenerate(g, c)` is its set of possible outputs.
- `prop_extensions.dfy`: module `PropExtensions`. A property is reduced to its pass/fail
  outcome for one input; `Aggregate` is `Enumerable.Aggregate`.
- `fscheck_types.dfy`: module `FsCheck`, the FsCheck types the builders use: the `Config`
  record (a datatype), the Fluent `Configuration` (a class with eight mutable fields and
  a `View()` of their values) and the F# list.
- `config_extensions.dfy`, `configuration_extensions.dfy`: the two builder files.

`Pick` keeps the population's order: it removes elements from a copy and leaves the
rest in place, so the result is always an order-preserving subsequence
(`PickKeepsOrder`).

## Model

| member | source | states |
|---|---|---|
| GenExtensions.CsRem | FsCheckUtils/GenExtensions.cs:17 | C#'s `%`: for a non-negative index and a positive count the remainder is a valid position in [0, count) |
| GenExtensions.List.constructor | FsCheckUtils/GenExtensions.cs:25 | `new List<T>(l)` starts with exactly the elements of `l` |
| GenExtensions.List.Count | FsCheckUtils/GenExtensions.cs:17 | `Count` is the number of elements the list holds |
| GenExtensions.List.RemoveAt | FsCheckUtils/GenExtensions.cs:17 | `RemoveAt(i)`, for a valid position i, removes exactly that element and shifts the rest down |
| GenExtensions.Removed | FsCheckUtils/GenExtensions.cs:15-19 | applying k removals to a list of at least k elements never takes a remainder by zero and leaves exactly len(b) - k elements |
| GenExtensions.RemoveItems | FsCheckUtils/GenExtensions.cs:15-19 | the loop removes, in order, the element at `idx % b.Count` for each drawn index, in place, never with `b.Count == 0`, and returns the same list |
| GenExtensions.Pick | FsCheckUtils/GenExtensions.cs:11-13 | `Pick(n, l)` fails with ArgumentOutOfRange("n") exactly when n < 0 or n > len(l), before any generator exists; otherwise it builds a generator for n of `l` |
| GenExtensions.Sample | FsCheckUtils/GenExtensions.cs:21-25 | for every list of len(l) - n removal indices in [0, 10 len(l)], the generator yields exactly n elements: what the removals leave of a fresh copy of `l` |
| GenExtensions.RemovedSelect | FsCheckUtils/GenExtensions.cs:17 | removing positions from a selection of elements equals selecting the surviving positions |
| GenExtensions.RemovedIncreasing | FsCheckUtils/GenExtensions.cs:17 | removals keep a strictly increasing list strictly increasing |
| GenExtensions.PickKeepsOrder | FsCheckUtils/GenExtensions.cs:15-25 | Pick's result is `l` at strictly increasing positions within `l`: an order-preserving subsequence |
| GenExtensions.RemovedSubMultiset | FsCheckUtils/GenExtensions.cs:15-25 | no value occurs in Pick's result more often than in `l` |
| GenExtensions.PickFromPopulation | UnitTests/GenExtensionsTests.cs:42 | every element of Pick's result is an element of `l` |
| GenExtensions.PickGens | FsCheckUtils/GenExtensions.cs:28-30 | `Pick(n, gs)` fails exactly when n is outside [0, len(gs)]; otherwise it picks n of the positions 0 .. len(gs) - 1 |
| GenExtensions.SampleGens | FsCheckUtils/GenExtensions.cs:28-32 | the picked positions are what the drawn removals leave of 0 .. len(gs) - 1: n of them, distinct, increasing and within [0, len(gs)), so `gs[x]` is in bounds; the generators handed on are those at the picked positions |
| GenExtensions.SomeOf | FsCheckUtils/GenExtensions.cs:34-37 | for every count drawn from [0, len(l)] Pick's precondition holds; the result is Pick's sample for the drawn removals, with that many elements, at most len(l), all from `l` with no extra multiplicity |
| GenExtensions.SomeOfGens | FsCheckUtils/GenExtensions.cs:39-42 | for every count drawn from [0, len(gs)] Pick over generators succeeds; the positions are what the drawn removals leave of 0 .. len(gs) - 1, count of them, in bounds and increasing, and the generators are those at them |
| GenExtensions.ChooseRange | FsCheckUtils/GenExtensions.cs:50-51 | a `Gen.choose(lo, hi)` mapped to characters yields exactly the characters from lo to hi |
| GenExtensions.WeighedAlternatives | FsCheckUtils/GenExtensions.cs:80-82 | a weighted alternation yields exactly what one of its positively weighted alternatives yields |
| GenExtensions.WeighedPair | FsCheckUtils/GenExtensions.cs:80-82 | an alternation of two positively weighted generators yields exactly what either of them yields |
| GenExtensions.NumChar | FsCheckUtils/GenExtensions.cs:48-52 | NumChar yields exactly the digits '0'..'9' |
| GenExtensions.AlphaUpperChar | FsCheckUtils/GenExtensions.cs:58-62 | AlphaUpperChar yields exactly 'A'..'Z' |
| GenExtensions.AlphaLowerChar | FsCheckUtils/GenExtensions.cs:68-72 | AlphaLowerChar yields exactly 'a'..'z' |
| GenExtensions.AlphaChar | FsCheckUtils/GenExtensions.cs:78-83 | AlphaChar yields exactly the letters, upper or lower case |
| GenExtensions.AlphaNumChar | FsCheckUtils/GenExtensions.cs:89-94 | AlphaNumChar yields exactly the letters and digits |
| GenExtensions.MakeList | FsCheckUtils/GenExtensions.cs:102 | a list made from k character draws has k characters, the i-th being what the i-th draw yields |
| GenExtensions.Where | FsCheckUtils/GenExtensions.cs:104 | the `where` filter keeps a string exactly when every character satisfies the predicate, and keeps it unchanged |
| GenExtensions.MakeListWithin | FsCheckUtils/GenExtensions.cs:102-104 | every character of a list a generator makes is one it can generate, so a filter its outputs all satisfy keeps the list |
| GenExtensions.AlphaStr | FsCheckUtils/GenExtensions.cs:100-106 | AlphaStr's letter filter never rejects: the string it yields is the list AlphaChar made, all letters |
| GenExtensions.NumStr | FsCheckUtils/GenExtensions.cs:112-118 | NumStr's digit filter never rejects: the string it yields is the list NumChar made, all digits |
| PropExtensions.OfTestable | FsCheckUtils/PropExtensions.cs:29 | `Prop.ofTestable(b)` passes exactly when b is true |
| PropExtensions.And | FsCheckUtils/PropExtensions.cs:8-19 | And succeeds if and only if both properties succeed |
| PropExtensions.Or | FsCheckUtils/PropExtensions.cs:32-43 | Or fails if and only if both properties fail |
| PropExtensions.Aggregate | FsCheckUtils/PropExtensions.cs:29 | `Enumerable.Aggregate` is a left fold: the seed for no elements, otherwise the fold of all but the last combined with the last |
| PropExtensions.AndFoldPasses | FsCheckUtils/PropExtensions.cs:29 | folding And from a seed passes iff the seed and every property pass |
| PropExtensions.OrFoldFails | FsCheckUtils/PropExtensions.cs:53 | folding Or from a seed fails iff the seed and every property fail |
| PropExtensions.AndAll | FsCheckUtils/PropExtensions.cs:21-30 | AndAll succeeds if and only if every property succeeds (so the empty AndAll succeeds) |
| PropExtensions.OrAll | FsCheckUtils/PropExtensions.cs:45-54 | OrAll fails if and only if every property fails (so the empty OrAll fails) |
| PropExtensions.AndAllEmpty | FsCheckUtils/PropExtensions.cs:29 | AndAll of no properties is the trivially true property |
| PropExtensions.OrAllEmpty | FsCheckUtils/PropExtensions.cs:53 | OrAll of no properties is the trivially false property |
| PropExtensions.AndAllLeftFold | FsCheckUtils/PropExtensions.cs:29 | AndAll works in array order: AndAll(a1..ak, p) == And(AndAll(a1..ak), p) |
| PropExtensions.OrAllLeftFold | FsCheckUtils/PropExtensions.cs:53 | OrAll works in array order: OrAll(a1..ak, p) == Or(OrAll(a1..ak), p) |
| PropExtensions.Implies | FsCheckUtils/PropExtensions.cs:68-78 | the property is tested, as itself, exactly when the condition holds; otherwise the input is discarded |
| FsCheck.OfSeq | FsCheckUtils/ConfigExtensions.cs:269 | `ListModule.OfSeq` keeps every argument and their order |
| FsCheck.OfSeqToSeq | FsCheckUtils/ConfigExtensions.cs:274 | every F# list is `ListModule.OfSeq` of its own elements |
| FsCheck.Configuration.constructor | FsCheckUtils/ConfigExtensions.cs:254-264 | a new Configuration holds exactly the property values it is initialised with |
| ConfigExtensions.WithMaxTest | FsCheckUtils/ConfigExtensions.cs:20-33 | a new Config with MaxTest = maxTest and all nine other fields those of `config` |
| ConfigExtensions.WithMaxFail | FsCheckUtils/ConfigExtensions.cs:41-54 | a new Config with MaxFail = maxFail and all other fields those of `config` |
| ConfigExtensions.WithReplay | FsCheckUtils/ConfigExtensions.cs:63-76 | a new Config with Replay = Some(replay) and all other fields those of `config` |
| ConfigExtensions.WithNoReplay | FsCheckUtils/ConfigExtensions.cs:84-97 | a new Config with Replay = None and all other fields those of `config` |
| ConfigExtensions.WithName | FsCheckUtils/ConfigExtensions.cs:105-118 | a new Config with Name = name and all other fields those of `config` |
| ConfigExtensions.WithStartSize | FsCheckUtils/ConfigExtensions.cs:126-139 | a new Config with StartSize = startSize and all other fields those of `config` |
| ConfigExtensions.WithEndSize | FsCheckUtils/ConfigExtensions.cs:147-160 | a new Config with EndSize = endSize and all other fields those of `config` |
| ConfigExtensions.WithEvery | FsCheckUtils/ConfigExtensions.cs:168-181 | a new Config with Every = every and all other fields those of `config` |
| ConfigExtensions.WithEveryShrink | FsCheckUtils/ConfigExtensions.cs:189-202 | a new Config with EveryShrink = everyShrink and all other fields those of `config` |
| ConfigExtensions.WithArbitrary | FsCheckUtils/ConfigExtensions.cs:210-223 | a new Config with Arbitrary = arbitrary and all other fields those of `config` |
| ConfigExtensions.WithRunner | FsCheckUtils/ConfigExtensions.cs:231-244 | a new Config with Runner = runner and all other fields those of `config` |
| ConfigExtensions.NoReplayUndoesReplay | FsCheckUtils/ConfigExtensions.cs:63-97 | WithNoReplay after WithReplay gives Replay = None and every other field unchanged; on a Config without replay it gives the Config back |
| ConfigExtensions.LastOverrideWins | FsCheckUtils/ConfigExtensions.cs:20-244 | for every field and any two of the eleven builders that write it (WithReplay and WithNoReplay both write Replay), overriding it twice equals the second override alone |
| ConfigExtensions.OverridesCommute | FsCheckUtils/ConfigExtensions.cs:20-244 | for any two of the eleven builders that write different fields, applying them in either order gives the same Config |
| ConfigExtensions.ConvertEveryToFunc | FsCheckUtils/ConfigExtensions.cs:267-270 | the converted callback on (n, args) is `every(n)` applied to the F# list of args |
| ConfigExtensions.ConvertEveryShrinkToFunc | FsCheckUtils/ConfigExtensions.cs:272-275 | the converted callback on args is `everyShrink` applied to the F# list of args |
| ConfigExtensions.ConvertEveryAgrees | FsCheckUtils/ConfigExtensions.cs:267-270 | the conversion is an uncurrying: on the elements of any F# list, in order, it agrees with `every` |
| ConfigExtensions.ConvertEveryShrinkAgrees | FsCheckUtils/ConfigExtensions.cs:272-275 | on the elements of any F# list, in order, the converted callback agrees with `everyShrink` |
| ConfigExtensions.ToSettings | FsCheckUtils/ConfigExtensions.cs:252-265 | MaxTest maps to MaxNbOfTest, MaxFail to MaxNbOfFailedTests; Name, StartSize, EndSize and Runner are copied; Every and EveryShrink are converted |
| ConfigExtensions.ToConfiguration | FsCheckUtils/ConfigExtensions.cs:252-265 | ToConfiguration returns a newly allocated Configuration holding exactly those values |
| ConfigExtensions.ToSettingsIgnoresReplayAndArbitrary | FsCheckUtils/ConfigExtensions.cs:254-264 | Replay and Arbitrary are not carried over: changing them does not change the Configuration |
| ConfigurationExtensions.WithMaxTest | FsCheckUtils/ConfigurationExtensions.cs:20-24 | assigns MaxNbOfTest in place, changes no other property, and returns the same object |
| ConfigurationExtensions.WithMaxFail | FsCheckUtils/ConfigurationExtensions.cs:34-38 | assigns MaxNbOfFailedTests in place, changes no other property, and returns the same object |
| ConfigurationExtensions.WithName | FsCheckUtils/ConfigurationExtensions.cs:48-52 | assigns Name in place, changes no other property, and returns the same object |
| ConfigurationExtensions.WithStartSize | FsCheckUtils/ConfigurationExtensions.cs:62-66 | assigns StartSize in place, changes no other property, and returns the same object |
| ConfigurationExtensions.WithEndSize | FsCheckUtils/ConfigurationExtensions.cs:76-80 | assigns EndSize in place, changes no other property, and returns the same object |
| ConfigurationExtensions.WithEvery | FsCheckUtils/ConfigurationExtensions.cs:90-94 | assigns Every in place, changes no other property, and returns the same object |
| ConfigurationExtensions.WithEveryShrink | FsCheckUtils/ConfigurationExtensions.cs:104-108 | assigns EveryShrink in place, changes no other property, and returns the same object |
| ConfigurationExtensions.WithRunner | FsCheckUtils/ConfigurationExtensions.cs:118-122 | assigns Runner in place, changes no other property, and returns the same object |
| ConfigurationExtensions.ChainedSetters | UnitTests/ConfigurationExtensionsTests.cs:13-16 | a chain `.WithMaxTest(m).WithName(s)` leaves both values set on the one object and nothing else changed |
| ConfigurationExtensions.RepeatedSetter | FsCheckUtils/ConfigurationExtensions.cs:20-24 | setting the same property twice leaves the second value |

## Left out

- GenExtensions.SampleGens: stops at the list of chosen generators handed to `Any.SequenceOf`; running each of them is FsCheck's and is not modelled, so the values they produce are not part of its contract.
- GenExtensions.SomeOfGens: likewise stops at the chosen generators.
- GenExtensions.Pick, GenExtensions.SomeOf: `l` is modelled as a value. In the source the count check and the `l.Count * 10` bound are fixed when `Pick` is called, but `new List<T>(l)` reads the caller's collection again each time a value is generated; if the caller shrinks `l` afterwards the loop can take `% 0`, and if it grows `l` the result has more than n elements. The guarantees here assume the caller does not change `l` after the call.
- FsCheck's random primitives (`Gen.choose`, `Any.IntBetween`, `MakeListOfLength`, `MakeList`, `Any.WeighedGeneratorIn`, `Any.SequenceOf`, `SelectMany`, `Gen.sample`) are foreign code; their draws are inputs in their documented ranges.
- The 1:9 weights of `AlphaChar` and `AlphaNumChar` and the test that Pick rarely repeats a sample are statistical; only which outputs are possible is modelled.
- `l.Count * 10` in `Pick` could overflow a 32-bit int for huge lists; the model uses mathematical integers.
- `Char.IsLetter` and `Char.IsDigit` have Unicode meanings; the model uses their ASCII parts, which cover everything the generators produce.
- `Label` (FsCheck's `|@`): with a property reduced to its pass/fail outcome, a label changes nothing; label text and reporting are FsCheck's.
- FsCheck's property internals (`Rose<Result>`, shrinking, how `==>` discards combine with `.&.` and `.|.`, the discard limit) are not visible; only the outcomes the doc comments state are modelled.
- The `where` filter retries until its predicate holds; the model returns None for a rejected candidate instead of retrying, which is enough to prove no rejection happens.
- Registration of arbitraries (FsCheckUtils/RegisterExtensions.cs, FsCheckUtils/ArbitraryExtensions.cs) writes process-wide static state in FsCheck and is not part of this model.
- Shuffle, tuple zip, UUID, identifier, classify and chain combinators do not appear in the modelled source files and are not part of this model.
- The Fluent `Configuration` is modelled with the eight properties the builders touch; its other members are FsCheck's.
- `Config`'s callbacks take .NET objects; the model uses an opaque `Arg` value for each argument.
