/**
 * The FsCheck types that the configuration builders read and write: the immutable
 * `Config` record, the mutable `FsCheck.Fluent.Configuration` object, and the F#
 * list that `Config`'s callbacks receive.
 */
module FsCheck {
  import opened Wrappers

  /** An F# list. */
  datatype FsList<T> = Nil | Cons(head: T, tail: FsList<T>)

  /** `ListModule.OfSeq`: the F# list of the elements of an array, every one and in order. */
  function OfSeq<T>(s: seq<T>): (l: FsList<T>)
    ensures ToSeq(l) == s
    decreases |s|
  {
    if s == [] then Nil
    else
      assert [s[0]] + s[1..] == s;
      Cons(s[0], OfSeq(s[1..]))
  }

  /** The elements of an F# list, in order. */
  function ToSeq<T>(l: FsList<T>): seq<T>
  {
    match l
    case Nil => []
    case Cons(x, rest) => [x] + ToSeq(rest)
  }

  /** Every F# list is OfSeq of its elements. */
  lemma {:induction false} OfSeqToSeq<T>(l: FsList<T>)
    ensures OfSeq(ToSeq(l)) == l
  {
    match l
    case Nil =>
    case Cons(x, rest) =>
      OfSeqToSeq(rest);
      assert ([x] + ToSeq(rest))[1..] == ToSeq(rest);
  }

  /** FsCheck.Random.StdGen: a replay seed, two integers. */
  datatype StdGen = StdGen(seed: int, gamma: int)

  /** An IRunner instance, identified by reference. */
  datatype Runner = Runner(id: nat)

  /** An argument value passed to the Every and EveryShrink callbacks, by identity. */
  datatype Arg = Arg(id: nat)

  /** A System.Type in Config's list of Arbitrary classes, by its name. */
  type TypeName = string

  /** FsCheck.Config: an immutable record of ten fields. */
  datatype Config = Config(
    maxTest: int,
    maxFail: int,
    replay: Option<StdGen>,
    name: string,
    startSize: int,
    endSize: int,
    every: int -> FsList<Arg> -> string,
    everyShrink: FsList<Arg> -> string,
    arbitrary: FsList<TypeName>,
    runner: Runner)

  /** The values of the eight properties of a FsCheck.Fluent.Configuration. */
  datatype Settings = Settings(
    maxNbOfTest: int,
    maxNbOfFailedTests: int,
    name: string,
    startSize: int,
    endSize: int,
    every: (int, seq<Arg>) -> string,
    everyShrink: seq<Arg> -> string,
    runner: Runner)

  /** FsCheck.Fluent.Configuration: a mutable object whose properties are set in place. */
  class Configuration {
    var maxNbOfTest: int
    var maxNbOfFailedTests: int
    var name: string
    var startSize: int
    var endSize: int
    var every: (int, seq<Arg>) -> string
    var everyShrink: seq<Arg> -> string
    var runner: Runner

    /** The current values of all eight properties. */
    function View(): Settings
      reads this
    {
      Settings(maxNbOfTest, maxNbOfFailedTests, name, startSize, endSize, every, everyShrink, runner)
    }

    /** `new Configuration { ... }` with every property initialised. */
    constructor (s: Settings)
      ensures View() == s
    {
      maxNbOfTest := s.maxNbOfTest;
      maxNbOfFailedTests := s.maxNbOfFailedTests;
      name := s.name;
      startSize := s.startSize;
      endSize := s.endSize;
      every := s.every;
      everyShrink := s.everyShrink;
      runner := s.runner;
    }
  }
}
