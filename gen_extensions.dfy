/**
 * The generator combinators of FsCheckUtils/GenExtensions.cs.
 *
 * FsCheck's random primitives are not modelled as randomness: every value such a
 * primitive would draw is an input here (a list of removal indices, a drawn count,
 * a drawn character code), restricted to the range the primitive documents.
 * Once the draws are fixed, each generator is deterministic.
 */
module GenExtensions {
  import opened Wrappers

  /** The exception the combinators throw: ArgumentOutOfRangeException with the parameter's name. */
  datatype Error = ArgumentOutOfRange(paramName: string)

  // ---------------------------------------------------------------------------
  // Sequence helpers
  // ---------------------------------------------------------------------------

  /** C#'s `%` on int: the remainder of division truncated toward zero. */
  function CsRem(a: int, b: int): (r: int)
    requires b > 0
    ensures 0 <= a ==> 0 <= r < b
    ensures a < 0 ==> -b < r <= 0
  {
    if a >= 0 then a % b else -((-a) % b)
  }

  /** `s` without its element at position `k`. */
  function Without<T>(s: seq<T>, k: int): (r: seq<T>)
    requires 0 <= k < |s|
    ensures |r| == |s| - 1
    ensures forall j :: 0 <= j < k ==> r[j] == s[j]
    ensures forall j :: k <= j < |r| ==> r[j] == s[j + 1]
    ensures multiset(r) == multiset(s) - multiset{s[k]}
  {
    assert s == s[..k] + [s[k]] + s[k + 1..];
    s[..k] + s[k + 1..]
  }

  /** The positions 0, 1, ..., m - 1 (Enumerable.Range(0, m)). */
  function Range(m: nat): (r: seq<int>)
    ensures |r| == m
    ensures forall k :: 0 <= k < m ==> r[k] == k
  {
    seq(m, k => k)
  }

  predicate InBounds(ps: seq<int>, m: int)
  {
    forall k :: 0 <= k < |ps| ==> 0 <= ps[k] < m
  }

  predicate Increasing(ps: seq<int>)
  {
    forall j, k :: 0 <= j < k < |ps| ==> ps[j] < ps[k]
  }

  /** The elements of `s` at positions `ps`, in the order of `ps`. */
  function Select<T>(s: seq<T>, ps: seq<int>): (r: seq<T>)
    requires InBounds(ps, |s|)
    ensures |r| == |ps|
    ensures forall k :: 0 <= k < |ps| ==> r[k] == s[ps[k]]
  {
    seq(|ps|, k requires 0 <= k < |ps| => s[ps[k]])
  }

  // ---------------------------------------------------------------------------
  // System.Collections.Generic.List<T>, as far as Pick uses it
  // ---------------------------------------------------------------------------

  /** A mutable list: `new List<T>(l)` copies `l`; `RemoveAt` removes in place. */
  class List<T> {
    var items: seq<T>

    constructor (l: seq<T>)
      ensures items == l
    {
      items := l;
    }

    function Count(): (n: nat)
      reads this
      ensures n == |items|
    {
      |items|
    }

    /** Removes the element at `index`; the elements after it move down by one. */
    method RemoveAt(index: int)
      requires 0 <= index < |items|
      modifies this
      ensures items == Without(old(items), index)
    {
      items := items[..index] + items[index + 1..];
    }
  }

  // ---------------------------------------------------------------------------
  // Pick n of l, without replacement
  // ---------------------------------------------------------------------------

  /** Every drawn removal index is non-negative. */
  predicate NonNegative(idxs: seq<int>)
  {
    forall i :: 0 <= i < |idxs| ==> idxs[i] >= 0
  }

  /**
   * What the removal loop leaves of `b`: for each drawn index in turn, the element at
   * (index % current count) is removed. No remainder by zero arises, because at most
   * |b| removals are made.
   */
  function Removed<T>(b: seq<T>, idxs: seq<int>): (r: seq<T>)
    requires |idxs| <= |b| && NonNegative(idxs)
    ensures |r| == |b| - |idxs|
    decreases |idxs|
  {
    if idxs == [] then b
    else Removed(Without(b, CsRem(idxs[0], |b|)), idxs[1..])
  }

  /**
   * The `removeItems` lambda: removes, from the list it is given, the element at
   * (idx % b.Count) for each drawn idx, in order, and returns the same list.
   */
  method RemoveItems<T>(b: List<T>, idxs: seq<int>) returns (r: List<T>)
    requires |idxs| <= |b.items| && NonNegative(idxs)
    modifies b
    ensures r == b
    ensures b.items == Removed(old(b.items), idxs)
  {
    for i := 0 to |idxs|
      invariant |b.items| == |old(b.items)| - i
      invariant Removed(b.items, idxs[i..]) == Removed(old(b.items), idxs)
    {
      assert idxs[i..][1..] == idxs[i + 1..];
      b.RemoveAt(CsRem(idxs[i], b.Count()));
    }
    assert idxs[|idxs|..] == [];
    r := b;
  }

  /** The generator `Pick(n, l)` returns: it removes |l| - n drawn positions from a copy of `l`. */
  datatype PickGen<T> = PickGen(n: int, population: seq<T>)
  {
    predicate Valid()
    {
      0 <= n <= |population|
    }
  }

  /**
   * Pick(n, l): throws at once, before any generator is built, unless 0 <= n <= |l|.
   */
  function Pick<T>(n: int, l: seq<T>): (r: Result<PickGen<T>, Error>)
    ensures r.Ok? <==> 0 <= n <= |l|
    ensures r.Ok? ==> r.value.Valid() && r.value.n == n && r.value.population == l
    ensures r.Err? ==> r.error == ArgumentOutOfRange("n")
  {
    if n < 0 || n > |l| then Err(ArgumentOutOfRange("n")) else Ok(PickGen(n, l))
  }

  /**
   * A draw of `Any.IntBetween(0, m * 10).MakeListOfLength(m - n)`: m - n integers,
   * each in [0, 10 m].
   */
  predicate IsRemovalDraw(m: int, n: int, idxs: seq<int>)
  {
    |idxs| == m - n && forall i :: 0 <= i < |idxs| ==> 0 <= idxs[i] <= m * 10
  }

  /** One value of the generator built by Pick, given the drawn removal indices. */
  method Sample<T>(g: PickGen<T>, idxs: seq<int>) returns (xs: seq<T>)
    requires g.Valid() && IsRemovalDraw(|g.population|, g.n, idxs)
    ensures |xs| == g.n
    ensures xs == Removed(g.population, idxs)
  {
    var b := new List(g.population);
    b := RemoveItems(b, idxs);
    xs := b.items;
  }

  lemma WithoutSelect<T>(s: seq<T>, ps: seq<int>, k: int)
    requires InBounds(ps, |s|) && 0 <= k < |ps|
    ensures InBounds(Without(ps, k), |s|)
    ensures Without(Select(s, ps), k) == Select(s, Without(ps, k))
  {
  }

  lemma WithoutIncreasing(ps: seq<int>, k: int)
    requires Increasing(ps) && 0 <= k < |ps|
    ensures Increasing(Without(ps, k))
  {
  }

  /** Removal commutes with selecting positions: removing from a selection selects the survivors. */
  lemma {:induction false} RemovedSelect<T>(s: seq<T>, ps: seq<int>, idxs: seq<int>)
    requires InBounds(ps, |s|) && |idxs| <= |ps| && NonNegative(idxs)
    ensures InBounds(Removed(ps, idxs), |s|)
    ensures Removed(Select(s, ps), idxs) == Select(s, Removed(ps, idxs))
    decreases |idxs|
  {
    if idxs != [] {
      var k := CsRem(idxs[0], |ps|);
      WithoutSelect(s, ps, k);
      RemovedSelect(s, Without(ps, k), idxs[1..]);
    }
  }

  lemma {:induction false} RemovedIncreasing(ps: seq<int>, idxs: seq<int>)
    requires Increasing(ps) && |idxs| <= |ps| && NonNegative(idxs)
    ensures Increasing(Removed(ps, idxs))
    decreases |idxs|
  {
    if idxs != [] {
      var k := CsRem(idxs[0], |ps|);
      WithoutIncreasing(ps, k);
      RemovedIncreasing(Without(ps, k), idxs[1..]);
    }
  }

  /** The positions of `l` that survive the removals. */
  function Survivors(m: nat, idxs: seq<int>): seq<int>
    requires |idxs| <= m && NonNegative(idxs)
  {
    Removed(Range(m), idxs)
  }

  /**
   * What Pick produces is an order-preserving subsequence of `l`: the elements at the
   * surviving positions, which increase strictly and lie within `l`.
   */
  lemma PickKeepsOrder<T>(l: seq<T>, idxs: seq<int>)
    requires |idxs| <= |l| && NonNegative(idxs)
    ensures Increasing(Survivors(|l|, idxs)) && InBounds(Survivors(|l|, idxs), |l|)
    ensures Removed(l, idxs) == Select(l, Survivors(|l|, idxs))
  {
    assert Select(l, Range(|l|)) == l;
    RemovedSelect(l, Range(|l|), idxs);
    RemovedIncreasing(Range(|l|), idxs);
  }

  /** No element is produced more often than it occurs in `l`. */
  lemma {:induction false} RemovedSubMultiset<T>(l: seq<T>, idxs: seq<int>)
    requires |idxs| <= |l| && NonNegative(idxs)
    ensures multiset(Removed(l, idxs)) <= multiset(l)
    decreases |idxs|
  {
    if idxs != [] {
      RemovedSubMultiset(Without(l, CsRem(idxs[0], |l|)), idxs[1..]);
    }
  }

  /** Every element Pick produces is an element of `l`. */
  lemma PickFromPopulation<T>(l: seq<T>, idxs: seq<int>, x: T)
    requires |idxs| <= |l| && NonNegative(idxs)
    requires x in Removed(l, idxs)
    ensures x in l
  {
    RemovedSubMultiset(l, idxs);
    assert x in multiset(Removed(l, idxs));
  }

  // ---------------------------------------------------------------------------
  // Pick n of a list of generators
  // ---------------------------------------------------------------------------

  /** The generator `Pick(n, gs)` returns: it picks n positions into `gens`, then runs those generators. */
  datatype PickOfGens<G> = PickOfGens(positions: PickGen<int>, gens: seq<G>)
  {
    predicate Valid()
    {
      positions.Valid() && positions.population == Range(|gens|)
    }
  }

  /** Pick(n, gs): Pick(n, [0, ..., |gs| - 1]), so it throws at once unless 0 <= n <= |gs|. */
  function PickGens<G>(n: int, gs: seq<G>): (r: Result<PickOfGens<G>, Error>)
    ensures r.Ok? <==> 0 <= n <= |gs|
    ensures r.Ok? ==> r.value.Valid() && r.value.positions.n == n && r.value.gens == gs
    ensures r.Err? ==> r.error == ArgumentOutOfRange("n")
  {
    match Pick(n, Range(|gs|))
    case Ok(positions) => Ok(PickOfGens(positions, gs))
    case Err(e) => Err(e)
  }

  /**
   * One value of the generator built by Pick over generators, up to running them: the
   * picked positions and the generators at those positions, in the order handed to
   * `Any.SequenceOf`.
   */
  method SampleGens<G>(g: PickOfGens<G>, idxs: seq<int>) returns (positions: seq<int>, chosen: seq<G>)
    requires g.Valid() && IsRemovalDraw(|g.gens|, g.positions.n, idxs)
    ensures |positions| == |chosen| == g.positions.n
    ensures positions == Removed(Range(|g.gens|), idxs)
    ensures Increasing(positions) && InBounds(positions, |g.gens|)
    ensures forall k :: 0 <= k < |chosen| ==> chosen[k] == g.gens[positions[k]]
  {
    positions := Sample(g.positions, idxs);
    RemovedIncreasing(Range(|g.gens|), idxs);
    RemovedSubMultiset(Range(|g.gens|), idxs);
    forall k | 0 <= k < |positions| ensures 0 <= positions[k] < |g.gens| {
      assert positions[k] in multiset(Range(|g.gens|));
    }
    chosen := seq(|positions|, k requires 0 <= k < |positions| => g.gens[positions[k]]);
  }

  // ---------------------------------------------------------------------------
  // SomeOf
  // ---------------------------------------------------------------------------

  /**
   * SomeOf(l): a count drawn by `Gen.choose(0, l.Count)`, then Pick(count, l); the
   * count always satisfies Pick's precondition.
   */
  method SomeOf<T>(l: seq<T>, count: int, idxs: seq<int>) returns (xs: seq<T>)
    requires 0 <= count <= |l|
    requires IsRemovalDraw(|l|, count, idxs)
    ensures |xs| == count && |xs| <= |l|
    ensures xs == Removed(l, idxs)
    ensures multiset(xs) <= multiset(l)
  {
    var g := Pick(count, l).value;
    xs := Sample(g, idxs);
    RemovedSubMultiset(l, idxs);
  }

  /** SomeOf(gs): a count drawn by `Gen.choose(0, gs.Length)`, then Pick(count, gs). */
  method SomeOfGens<G>(gs: seq<G>, count: int, idxs: seq<int>) returns (positions: seq<int>, chosen: seq<G>)
    requires 0 <= count <= |gs|
    requires IsRemovalDraw(|gs|, count, idxs)
    ensures |positions| == |chosen| == count && |chosen| <= |gs|
    ensures positions == Removed(Range(|gs|), idxs)
    ensures Increasing(positions) && InBounds(positions, |gs|)
    ensures forall k :: 0 <= k < |chosen| ==> chosen[k] == gs[positions[k]]
  {
    var g := PickGens(count, gs).value;
    positions, chosen := SampleGens(g, idxs);
  }

  // ---------------------------------------------------------------------------
  // Character and string generators
  // ---------------------------------------------------------------------------

  /** The characters the modelled generators can produce: ASCII. */
  type Ascii = c: char | c as int < 128 witness 'a'

  predicate IsDigit(c: char) { '0' <= c <= '9' }
  predicate IsUpper(c: char) { 'A' <= c <= 'Z' }
  predicate IsLower(c: char) { 'a' <= c <= 'z' }
  predicate IsLetter(c: char) { IsUpper(c) || IsLower(c) }
  predicate IsLetterOrDigit(c: char) { IsLetter(c) || IsDigit(c) }

  /**
   * A character generator: `Gen.choose(lo, hi)` mapped to a character, or
   * `Any.WeighedGeneratorIn` over weighted alternatives.
   */
  datatype CharGen =
    | Choose(lo: Ascii, hi: Ascii)
    | Weighed(alternatives: seq<WeightAndValue>)

  datatype WeightAndValue = WeightAndValue(weight: int, gen: CharGen)

  /**
   * The random choices behind one generated character: the integer `Gen.choose` drew,
   * or the alternative `Any.WeighedGeneratorIn` chose followed by that alternative's draw.
   */
  datatype Draw = Drawn(code: int) | Chose(index: int, inner: Draw)

  /**
   * The character `g` yields for the draw `d`, or None for a draw `g` never makes (a code
   * outside the range, or an alternative that does not exist or has no weight).
   */
  function Generate(g: CharGen, d: Draw): Option<char>
    decreases g
  {
    match g
    case Choose(lo, hi) =>
      if d.Drawn? && lo as int <= d.code <= hi as int then Some(d.code as char) else None
    case Weighed(alts) =>
      if d.Chose? && 0 <= d.index < |alts| && alts[d.index].weight > 0
      then Generate(alts[d.index].gen, d.inner)
      else None
  }

  /** The characters `g` can yield. */
  ghost predicate CanGenerate(g: CharGen, c: char)
  {
    exists d :: Generate(g, d) == Some(c)
  }

  /** A `Gen.choose(lo, hi)` range yields exactly the characters from lo to hi. */
  lemma ChooseRange(lo: Ascii, hi: Ascii)
    ensures forall c :: CanGenerate(Choose(lo, hi), c) <==> lo <= c <= hi
  {
    forall c | lo <= c <= hi ensures CanGenerate(Choose(lo, hi), c) {
      assert Generate(Choose(lo, hi), Drawn(c as int)) == Some(c);
    }
  }

  /** A weighted alternation yields exactly what one of its weighted alternatives yields. */
  lemma WeighedAlternatives(alts: seq<WeightAndValue>, c: char)
    ensures CanGenerate(Weighed(alts), c) <==>
            exists i :: 0 <= i < |alts| && alts[i].weight > 0 && CanGenerate(alts[i].gen, c)
  {
    if CanGenerate(Weighed(alts), c) {
      var d :| Generate(Weighed(alts), d) == Some(c);
      assert CanGenerate(alts[d.index].gen, c) by {
        assert Generate(alts[d.index].gen, d.inner) == Some(c);
      }
    }
    if exists i :: 0 <= i < |alts| && alts[i].weight > 0 && CanGenerate(alts[i].gen, c) {
      var i :| 0 <= i < |alts| && alts[i].weight > 0 && CanGenerate(alts[i].gen, c);
      var d :| Generate(alts[i].gen, d) == Some(c);
      assert Generate(Weighed(alts), Chose(i, d)) == Some(c);
    }
  }

  /** Two alternatives with positive weights: the alternation yields what either one yields. */
  lemma WeighedPair(wa: int, a: CharGen, wb: int, b: CharGen)
    requires wa > 0 && wb > 0
    ensures forall c :: CanGenerate(Weighed([WeightAndValue(wa, a), WeightAndValue(wb, b)]), c) <==>
                        CanGenerate(a, c) || CanGenerate(b, c)
  {
    var alts := [WeightAndValue(wa, a), WeightAndValue(wb, b)];
    forall c ensures CanGenerate(Weighed(alts), c) <==> CanGenerate(a, c) || CanGenerate(b, c) {
      WeighedAlternatives(alts, c);
      if CanGenerate(a, c) {
        assert 0 < |alts| && alts[0].weight > 0 && CanGenerate(alts[0].gen, c);
      } else if CanGenerate(b, c) {
        assert 1 < |alts| && alts[1].weight > 0 && CanGenerate(alts[1].gen, c);
      }
    }
  }

  /** `Gen.choose(48, 57)` as a character: exactly the digits. */
  function NumChar(): (g: CharGen)
    ensures forall c :: CanGenerate(g, c) <==> IsDigit(c)
  {
    ChooseRange('0', '9');
    Choose('0', '9')
  }

  /** `Gen.choose(65, 90)` as a character: exactly the upper-case letters. */
  function AlphaUpperChar(): (g: CharGen)
    ensures forall c :: CanGenerate(g, c) <==> IsUpper(c)
  {
    ChooseRange('A', 'Z');
    Choose('A', 'Z')
  }

  /** `Gen.choose(97, 122)` as a character: exactly the lower-case letters. */
  function AlphaLowerChar(): (g: CharGen)
    ensures forall c :: CanGenerate(g, c) <==> IsLower(c)
  {
    ChooseRange('a', 'z');
    Choose('a', 'z')
  }

  /** Upper case with weight 1, lower case with weight 9: exactly the letters. */
  function AlphaChar(): (g: CharGen)
    ensures forall c :: CanGenerate(g, c) <==> IsLetter(c)
  {
    WeighedPair(1, AlphaUpperChar(), 9, AlphaLowerChar());
    Weighed([WeightAndValue(1, AlphaUpperChar()), WeightAndValue(9, AlphaLowerChar())])
  }

  /** A digit with weight 1, a letter with weight 9: exactly the letters and digits. */
  function AlphaNumChar(): (g: CharGen)
    ensures forall c :: CanGenerate(g, c) <==> IsLetterOrDigit(c)
  {
    WeighedPair(1, NumChar(), 9, AlphaChar());
    Weighed([WeightAndValue(1, NumChar()), WeightAndValue(9, AlphaChar())])
  }

  /** `g.MakeList()` for a list of |ds| characters: None if some draw is not one `g` makes. */
  function MakeList(g: CharGen, ds: seq<Draw>): (r: Option<seq<char>>)
    ensures r.Some? <==> forall k :: 0 <= k < |ds| ==> Generate(g, ds[k]).Some?
    ensures r.Some? ==> |r.value| == |ds|
    ensures r.Some? ==> forall k :: 0 <= k < |ds| ==> Generate(g, ds[k]) == Some(r.value[k])
  {
    if ds == [] then Some([])
    else match (Generate(g, ds[0]), MakeList(g, ds[1..]))
      case (Some(c), Some(cs)) => Some([c] + cs)
      case _ => None
  }

  /** LINQ `where`: None when the filter rejects the candidate, so that FsCheck draws again. */
  function Where(s: string, p: char -> bool): (r: Option<string>)
    ensures r.Some? <==> forall k :: 0 <= k < |s| ==> p(s[k])
    ensures r.Some? ==> r.value == s
  {
    if forall k :: 0 <= k < |s| ==> p(s[k]) then Some(s) else None
  }

  /** Every character of a list `g` makes is one `g` can generate, so it passes any filter `g`'s outputs satisfy. */
  lemma MakeListWithin(g: CharGen, ds: seq<Draw>, p: char -> bool)
    requires forall c :: CanGenerate(g, c) ==> p(c)
    requires MakeList(g, ds).Some?
    ensures forall k :: 0 <= k < |MakeList(g, ds).value| ==> p(MakeList(g, ds).value[k])
  {
    var cs := MakeList(g, ds).value;
    forall k | 0 <= k < |cs| ensures p(cs[k]) {
      assert Generate(g, ds[k]) == Some(cs[k]);
    }
  }

  /**
   * AlphaStr, for a list of character draws: a list of AlphaChar, kept if every character
   * is a letter. The filter never rejects: the result is the list AlphaChar made.
   */
  function AlphaStr(ds: seq<Draw>): (r: Option<string>)
    ensures r == MakeList(AlphaChar(), ds)
    ensures r.Some? ==> forall k :: 0 <= k < |r.value| ==> IsLetter(r.value[k])
  {
    match MakeList(AlphaChar(), ds)
    case None => None
    case Some(cs) =>
      MakeListWithin(AlphaChar(), ds, IsLetter);
      Where(cs, IsLetter)
  }

  /**
   * NumStr, for a list of character draws: a list of NumChar, kept if every character is
   * a digit. The filter never rejects: the result is the list NumChar made.
   */
  function NumStr(ds: seq<Draw>): (r: Option<string>)
    ensures r == MakeList(NumChar(), ds)
    ensures r.Some? ==> forall k :: 0 <= k < |r.value| ==> IsDigit(r.value[k])
  {
    match MakeList(NumChar(), ds)
    case None => None
    case Some(cs) =>
      MakeListWithin(NumChar(), ds, IsDigit);
      Where(cs, IsDigit)
  }
}
