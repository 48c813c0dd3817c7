/**
 * FsCheckUtils/ConfigExtensions.cs: builders that copy a Config with one field
 * overridden, and the conversion of a Config into a Fluent Configuration.
 * Config is a value, so the Config passed in is never changed.
 */
module ConfigExtensions {
  import opened Wrappers
  import opened FsCheck

  /** A copy of `config` whose MaxTest is `maxTest`; every other field is config's. */
  function WithMaxTest(config: Config, maxTest: int): (r: Config)
    ensures r.maxTest == maxTest
    ensures r == config.(maxTest := maxTest)
  {
    Config(maxTest, config.maxFail, config.replay, config.name, config.startSize,
           config.endSize, config.every, config.everyShrink, config.arbitrary, config.runner)
  }

  /** A copy of `config` whose MaxFail is `maxFail`; every other field is config's. */
  function WithMaxFail(config: Config, maxFail: int): (r: Config)
    ensures r.maxFail == maxFail
    ensures r == config.(maxFail := maxFail)
  {
    Config(config.maxTest, maxFail, config.replay, config.name, config.startSize,
           config.endSize, config.every, config.everyShrink, config.arbitrary, config.runner)
  }

  /** A copy of `config` whose Replay is Some(replay); every other field is config's. */
  function WithReplay(config: Config, replay: StdGen): (r: Config)
    ensures r.replay == Some(replay)
    ensures r == config.(replay := Some(replay))
  {
    Config(config.maxTest, config.maxFail, Some(replay), config.name, config.startSize,
           config.endSize, config.every, config.everyShrink, config.arbitrary, config.runner)
  }

  /** A copy of `config` whose Replay is None; every other field is config's. */
  function WithNoReplay(config: Config): (r: Config)
    ensures r.replay == None
    ensures r == config.(replay := None)
  {
    Config(config.maxTest, config.maxFail, None, config.name, config.startSize,
           config.endSize, config.every, config.everyShrink, config.arbitrary, config.runner)
  }

  /** A copy of `config` whose Name is `name`; every other field is config's. */
  function WithName(config: Config, name: string): (r: Config)
    ensures r.name == name
    ensures r == config.(name := name)
  {
    Config(config.maxTest, config.maxFail, config.replay, name, config.startSize,
           config.endSize, config.every, config.everyShrink, config.arbitrary, config.runner)
  }

  /** A copy of `config` whose StartSize is `startSize`; every other field is config's. */
  function WithStartSize(config: Config, startSize: int): (r: Config)
    ensures r.startSize == startSize
    ensures r == config.(startSize := startSize)
  {
    Config(config.maxTest, config.maxFail, config.replay, config.name, startSize,
           config.endSize, config.every, config.everyShrink, config.arbitrary, config.runner)
  }

  /** A copy of `config` whose EndSize is `endSize`; every other field is config's. */
  function WithEndSize(config: Config, endSize: int): (r: Config)
    ensures r.endSize == endSize
    ensures r == config.(endSize := endSize)
  {
    Config(config.maxTest, config.maxFail, config.replay, config.name, config.startSize,
           endSize, config.every, config.everyShrink, config.arbitrary, config.runner)
  }

  /** A copy of `config` whose Every is `every`; every other field is config's. */
  function WithEvery(config: Config, every: int -> FsList<Arg> -> string): (r: Config)
    ensures r.every == every
    ensures r == config.(every := every)
  {
    Config(config.maxTest, config.maxFail, config.replay, config.name, config.startSize,
           config.endSize, every, config.everyShrink, config.arbitrary, config.runner)
  }

  /** A copy of `config` whose EveryShrink is `everyShrink`; every other field is config's. */
  function WithEveryShrink(config: Config, everyShrink: FsList<Arg> -> string): (r: Config)
    ensures r.everyShrink == everyShrink
    ensures r == config.(everyShrink := everyShrink)
  {
    Config(config.maxTest, config.maxFail, config.replay, config.name, config.startSize,
           config.endSize, config.every, everyShrink, config.arbitrary, config.runner)
  }

  /** A copy of `config` whose Arbitrary is `arbitrary`; every other field is config's. */
  function WithArbitrary(config: Config, arbitrary: FsList<TypeName>): (r: Config)
    ensures r.arbitrary == arbitrary
    ensures r == config.(arbitrary := arbitrary)
  {
    Config(config.maxTest, config.maxFail, config.replay, config.name, config.startSize,
           config.endSize, config.every, config.everyShrink, arbitrary, config.runner)
  }

  /** A copy of `config` whose Runner is `runner`; every other field is config's. */
  function WithRunner(config: Config, runner: Runner): (r: Config)
    ensures r.runner == runner
    ensures r == config.(runner := runner)
  {
    Config(config.maxTest, config.maxFail, config.replay, config.name, config.startSize,
           config.endSize, config.every, config.everyShrink, config.arbitrary, runner)
  }

  /** WithNoReplay after WithReplay clears the replay seed and gives back every other field. */
  lemma NoReplayUndoesReplay(config: Config, replay: StdGen)
    ensures WithNoReplay(WithReplay(config, replay)) == WithNoReplay(config)
    ensures config.replay == None ==> WithNoReplay(WithReplay(config, replay)) == config
  {
  }

  /** One call of a builder: which Config field it overrides and with what. */
  datatype Override =
    | SetMaxTest(maxTest: int)
    | SetMaxFail(maxFail: int)
    | SetReplay(replay: StdGen)
    | SetNoReplay
    | SetName(name: string)
    | SetStartSize(startSize: int)
    | SetEndSize(endSize: int)
    | SetEvery(every: int -> FsList<Arg> -> string)
    | SetEveryShrink(everyShrink: FsList<Arg> -> string)
    | SetArbitrary(arbitrary: FsList<TypeName>)
    | SetRunner(runner: Runner)
  {
    /** The Config field the builder writes; WithReplay and WithNoReplay both write Replay. */
    function Field(): nat
    {
      match this
      case SetMaxTest(_) => 0
      case SetMaxFail(_) => 1
      case SetReplay(_) => 2
      case SetNoReplay => 2
      case SetName(_) => 3
      case SetStartSize(_) => 4
      case SetEndSize(_) => 5
      case SetEvery(_) => 6
      case SetEveryShrink(_) => 7
      case SetArbitrary(_) => 8
      case SetRunner(_) => 9
    }
  }

  /** The builder call `o` on `config`. */
  function Apply(config: Config, o: Override): Config
  {
    match o
    case SetMaxTest(v) => WithMaxTest(config, v)
    case SetMaxFail(v) => WithMaxFail(config, v)
    case SetReplay(v) => WithReplay(config, v)
    case SetNoReplay => WithNoReplay(config)
    case SetName(v) => WithName(config, v)
    case SetStartSize(v) => WithStartSize(config, v)
    case SetEndSize(v) => WithEndSize(config, v)
    case SetEvery(v) => WithEvery(config, v)
    case SetEveryShrink(v) => WithEveryShrink(config, v)
    case SetArbitrary(v) => WithArbitrary(config, v)
    case SetRunner(v) => WithRunner(config, v)
  }

  /** Overriding the same field twice, with any two builders: the last override wins. */
  lemma LastOverrideWins(config: Config, first: Override, second: Override)
    requires first.Field() == second.Field()
    ensures Apply(Apply(config, first), second) == Apply(config, second)
  {
  }

  /** Overriding two different fields, with any two builders: the order does not matter. */
  lemma OverridesCommute(config: Config, o1: Override, o2: Override)
    requires o1.Field() != o2.Field()
    ensures Apply(Apply(config, o1), o2) == Apply(Apply(config, o2), o1)
  {
  }

  /** The Fluent callback for Every: `every` uncurried, with the argument array turned into an F# list. */
  function ConvertEveryToFunc(every: int -> FsList<Arg> -> string): (f: (int, seq<Arg>) -> string)
    ensures forall n, args :: f(n, args) == every(n)(OfSeq(args))
  {
    (n: int, args: seq<Arg>) => every(n)(OfSeq(args))
  }

  /** The Fluent callback for EveryShrink: `everyShrink` with the argument array turned into an F# list. */
  function ConvertEveryShrinkToFunc(everyShrink: FsList<Arg> -> string): (f: seq<Arg> -> string)
    ensures forall args :: f(args) == everyShrink(OfSeq(args))
  {
    (args: seq<Arg>) => everyShrink(OfSeq(args))
  }

  /** The converted Every callback agrees with `every` on every argument list, in the same order. */
  lemma ConvertEveryAgrees(every: int -> FsList<Arg> -> string, n: int, args: FsList<Arg>)
    ensures ConvertEveryToFunc(every)(n, ToSeq(args)) == every(n)(args)
  {
    OfSeqToSeq(args);
  }

  /** The converted EveryShrink callback agrees with `everyShrink` on every argument list. */
  lemma ConvertEveryShrinkAgrees(everyShrink: FsList<Arg> -> string, args: FsList<Arg>)
    ensures ConvertEveryShrinkToFunc(everyShrink)(ToSeq(args)) == everyShrink(args)
  {
    OfSeqToSeq(args);
  }

  /**
   * The property values ToConfiguration gives a new Configuration: MaxTest becomes
   * MaxNbOfTest, MaxFail becomes MaxNbOfFailedTests, Name, StartSize, EndSize and Runner
   * are copied, and the two callbacks are converted.
   */
  function ToSettings(config: Config): (s: Settings)
    ensures s.maxNbOfTest == config.maxTest && s.maxNbOfFailedTests == config.maxFail
    ensures s.name == config.name && s.startSize == config.startSize
    ensures s.endSize == config.endSize && s.runner == config.runner
    ensures s.every == ConvertEveryToFunc(config.every)
    ensures s.everyShrink == ConvertEveryShrinkToFunc(config.everyShrink)
  {
    Settings(config.maxTest, config.maxFail, config.name, config.startSize, config.endSize,
             ConvertEveryToFunc(config.every), ConvertEveryShrinkToFunc(config.everyShrink),
             config.runner)
  }

  /** A new Configuration populated from `config`. */
  method ToConfiguration(config: Config) returns (r: Configuration)
    ensures fresh(r)
    ensures r.View() == ToSettings(config)
  {
    r := new Configuration(ToSettings(config));
  }

  /** Replay and Arbitrary have no Configuration counterpart: ToConfiguration ignores them. */
  lemma ToSettingsIgnoresReplayAndArbitrary(config: Config, replay: StdGen, arbitrary: FsList<TypeName>)
    ensures ToSettings(WithReplay(config, replay)) == ToSettings(config)
    ensures ToSettings(WithNoReplay(config)) == ToSettings(config)
    ensures ToSettings(WithArbitrary(config, arbitrary)) == ToSettings(config)
  {
  }
}
