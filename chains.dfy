/** Fluent call chains such as `Of(x).Filter(p).Map(f).FlatMap(g).Or(s)`:
    each call takes the Optional the previous one returned, and the first
    panic ends the chain. */
module Chains {
  import opened Outcomes
  import opened Optionals

  /** One chained call that yields an `*Optional`. */
  datatype Step<!B(==)> =
    | FilterStep(accept: Value<B> -> bool)
    | MapStep(mapper: Value<B> -> Value<B>)
    | FlatMapStep(mapper: Value<B> -> Value<B>)
    | OrStep(supplier: () -> Value<B>)

  /** Chains without `Or`, the one call that can turn empty into present */
  predicate NoOr<B>(steps: seq<Step<B>>) {
    forall i :: 0 <= i < |steps| ==> !steps[i].OrStep?
  }

  /** Chains of `Filter` calls only */
  predicate OnlyFilters<B>(steps: seq<Step<B>>) {
    forall i :: 0 <= i < |steps| ==> steps[i].FilterStep?
  }

  /** Chains of `Filter` and `Map` calls only, neither of which can panic */
  predicate NoPanicSteps<B>(steps: seq<Step<B>>) {
    forall i :: 0 <= i < |steps| ==> steps[i].FilterStep? || steps[i].MapStep?
  }

  /** One call of the chain on the Optional it receives. */
  function Apply<B>(o: Optional<B>, step: Step<B>): (r: Outcome<Optional<B>>)
    ensures o.IsEmpty() && !step.OrStep? ==> r == Ok(o)
    ensures step.FilterStep? ==> r == Ok(o) || r == Ok(Empty())
    ensures step.FilterStep? || step.MapStep? ==> r.Ok?
  {
    match step
    case FilterStep(accept) => Ok(o.Filter(accept))
    case MapStep(mapper) => Ok(o.Map(mapper))
    case FlatMapStep(mapper) => o.FlatMap(mapper)
    case OrStep(supplier) => o.Or(supplier)
  }

  /** The whole chain: the first panic stops it. */
  function Run<B>(o: Optional<B>, steps: seq<Step<B>>): (r: Outcome<Optional<B>>)
    ensures o.IsEmpty() && NoOr(steps) ==> r == Ok(o)
    ensures OnlyFilters(steps) ==> r == Ok(o) || r == Ok(Empty())
    ensures NoPanicSteps(steps) ==> r.Ok?
    decreases |steps|
  {
    if steps == [] then
      Ok(o)
    else
      var next :- Apply(o, steps[0]);
      Run(next, steps[1..])
  }

  /** Running a chain in two parts is running it whole. */
  lemma {:induction false} RunAppend<B>(o: Optional<B>, first: seq<Step<B>>, rest: seq<Step<B>>)
    ensures Run(o, first + rest) ==
      match Run(o, first)
      case Ok(mid) => Run(mid, rest)
      case Panic(m) => Panic(m)
    decreases |first|
  {
    if first == [] {
      assert first + rest == rest;
    } else {
      assert (first + rest)[1..] == first[1..] + rest;
      assert (first + rest)[0] == first[0];
      match Apply(o, first[0])
      case Ok(next) => RunAppend(next, first[1..], rest);
      case Panic(_) =>
    }
  }

  /** A chain of filters keeps the value exactly when every predicate accepts
      it, and otherwise ends in the empty singleton. */
  lemma {:induction false} FilterChainKeepsIffAllAccept<B>(o: Optional<B>, steps: seq<Step<B>>)
    requires OnlyFilters(steps)
    ensures Run(o, steps).Ok?
    ensures Run(o, steps).value.IsPresent() <==>
      o.IsPresent() && forall i :: 0 <= i < |steps| ==> steps[i].accept(o.value)
    decreases |steps|
  {
    if steps != [] {
      var next := o.Filter(steps[0].accept);
      assert Apply(o, steps[0]) == Ok(next);
      assert OnlyFilters(steps[1..]) by {
        forall i | 0 <= i < |steps[1..]| ensures steps[1..][i].FilterStep? {
          assert steps[1..][i] == steps[i + 1];
        }
      }
      FilterChainKeepsIffAllAccept(next, steps[1..]);
      if o.IsPresent() && steps[0].accept(o.value) {
        assert next == o;
        forall i | 0 <= i < |steps[1..]| ensures steps[1..][i] == steps[i + 1] { }
      }
    }
  }

  /** A chain of filters is idempotent: running it twice is running it once. */
  lemma FilterChainIdempotent<B>(o: Optional<B>, steps: seq<Step<B>>)
    requires OnlyFilters(steps)
    ensures Run(o, steps).Ok? && Run(Run(o, steps).value, steps) == Run(o, steps)
  {
    var r := Run(o, steps).value;
    FilterChainKeepsIffAllAccept(o, steps);
    FilterChainKeepsIffAllAccept(r, steps);
    if r.IsPresent() {
      assert r == o;
    } else {
      assert r == Empty();
    }
  }
}
