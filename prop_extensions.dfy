/**
 * The property combinators of FsCheckUtils/PropExtensions.cs.
 *
 * A property is reduced to its outcome for one generated input: whether it passed.
 * And and Or are FsCheck's `.&.` and `.|.`, given the meaning their doc comments
 * state; Implies is FsCheck's `==>`, whose false case discards the input.
 */
module PropExtensions {

  /** The pass/fail outcome of a property for one generated input. */
  datatype Property = Property(passed: bool)

  /** `Prop.ofTestable(b)` for a boolean `b`. */
  function OfTestable(b: bool): (p: Property)
    ensures p.passed == b
  {
    Property(b)
  }

  /** Succeeds if both properties succeed. */
  function And(l: Property, r: Property): (p: Property)
    ensures p.passed <==> l.passed && r.passed
  {
    Property(l.passed && r.passed)
  }

  /** Fails if both properties fail. */
  function Or(l: Property, r: Property): (p: Property)
    ensures !p.passed <==> !l.passed && !r.passed
  {
    Property(l.passed || r.passed)
  }

  /**
   * Enumerable.Aggregate: `f` applied to the seed and each element, from first to last,
   * so the last element is combined last.
   */
  function Aggregate<A, B>(seed: A, xs: seq<B>, f: (A, B) -> A): (r: A)
    ensures xs == [] ==> r == seed
    ensures xs != [] ==> r == f(Aggregate(seed, xs[..|xs| - 1], f), xs[|xs| - 1])
    decreases |xs|
  {
    if xs == [] then seed
    else
      var rest := xs[1..];
      assert rest != [] ==> xs[..|xs| - 1][1..] == rest[..|rest| - 1];
      Aggregate(f(seed, xs[0]), rest, f)
  }

  lemma {:induction false} AndFoldPasses(seed: Property, ps: seq<Property>)
    ensures Aggregate(seed, ps, And).passed <==>
            seed.passed && forall i :: 0 <= i < |ps| ==> ps[i].passed
    decreases |ps|
  {
    if ps != [] {
      AndFoldPasses(And(seed, ps[0]), ps[1..]);
      assert forall i :: 1 <= i < |ps| ==> ps[i] == ps[1..][i - 1];
    }
  }

  lemma {:induction false} OrFoldFails(seed: Property, ps: seq<Property>)
    ensures !Aggregate(seed, ps, Or).passed <==>
            !seed.passed && forall i :: 0 <= i < |ps| ==> !ps[i].passed
    decreases |ps|
  {
    if ps != [] {
      OrFoldFails(Or(seed, ps[0]), ps[1..]);
      assert forall i :: 1 <= i < |ps| ==> ps[i] == ps[1..][i - 1];
    }
  }

  /** `assertions.Aggregate(Prop.ofTestable(true), And)`: succeeds if all properties succeed. */
  function AndAll(assertions: seq<Property>): (p: Property)
    ensures p.passed <==> forall i :: 0 <= i < |assertions| ==> assertions[i].passed
  {
    AndFoldPasses(OfTestable(true), assertions);
    Aggregate(OfTestable(true), assertions, And)
  }

  /** `assertions.Aggregate(Prop.ofTestable(false), Or)`: fails if all properties fail. */
  function OrAll(assertions: seq<Property>): (p: Property)
    ensures !p.passed <==> forall i :: 0 <= i < |assertions| ==> !assertions[i].passed
  {
    OrFoldFails(OfTestable(false), assertions);
    Aggregate(OfTestable(false), assertions, Or)
  }

  /** AndAll of no properties is the trivially true property. */
  lemma AndAllEmpty()
    ensures AndAll([]) == OfTestable(true)
  {
  }

  /** OrAll of no properties is the trivially false property. */
  lemma OrAllEmpty()
    ensures OrAll([]) == OfTestable(false)
  {
  }

  /** AndAll combines in array order: AndAll(a, b, c) == And(And(And(true, a), b), c). */
  lemma AndAllLeftFold(assertions: seq<Property>, p: Property)
    ensures AndAll(assertions + [p]) == And(AndAll(assertions), p)
  {
    assert (assertions + [p])[..|assertions|] == assertions;
  }

  /** OrAll combines in array order: OrAll(a, b, c) == Or(Or(Or(false, a), b), c). */
  lemma OrAllLeftFold(assertions: seq<Property>, p: Property)
    ensures OrAll(assertions + [p]) == Or(OrAll(assertions), p)
  {
    assert (assertions + [p])[..|assertions|] == assertions;
  }

  /** What `==>` makes of one generated input: the property is tested, or the input is discarded. */
  datatype Case = Tested(outcome: Property) | Discarded

  /** If the condition holds, the property is tested; otherwise the input is discarded. */
  function Implies(condition: bool, assertion: Property): (r: Case)
    ensures r.Tested? <==> condition
    ensures r.Tested? ==> r.outcome == assertion
  {
    if condition then Tested(assertion) else Discarded
  }
}
