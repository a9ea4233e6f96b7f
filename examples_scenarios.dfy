/** Concrete scenarios from the package's tests and examples, over payloads
    that are Go strings or ints. */
module Scenarios {
  import opened Outcomes
  import opened Optionals
  import opened Chains

  datatype Scalar = Str(s: string) | Int(i: int)

  function S(s: string): Value<Scalar> { Base(Str(s)) }

  /** `Of(v)` for a value known not to be nil */
  function Box(v: Value<Scalar>): (r: Optional<Scalar>)
    requires !v.Nil?
    ensures r.value == v && r.IsPresent()
  {
    Of(v).value
  }

  /** `addTwo`: `value.(int) + 2`; the type assertion's panic on a non-int is
      not reachable in the scenario and is modelled as nil. */
  function AddTwo(v: Value<Scalar>): Value<Scalar> {
    match v
    case Base(Int(i)) => Base(Int(i + 2))
    case _ => Nil
  }

  /** `Of(42).Map(addTwo).Get()` is 44. */
  lemma MapAddTwo()
    ensures Box(Base(Int(42))).Map(AddTwo).Get() == Ok(Base(Int(44)))
  {
  }

  /** `Of("foo").Filter(filterOutFoo).OrElse("bar")` is "bar", also as a chain. */
  lemma FilterThenOrElse()
    ensures Box(S("foo")).Filter(v => v != S("foo")).OrElse(S("bar")) == S("bar")
    ensures Run(Box(S("foo")), [FilterStep(v => v != S("foo"))]) == Ok(Empty())
  {
  }

  /** The mapper of the Map test: an Optional result nests, nil gives empty. */
  function TestMapper(v: Value<Scalar>): Value<Scalar> {
    if v == S("foo") then Opt(Box(S("bar")))
    else if v == S("bar") then S("baz")
    else Nil
  }

  lemma MapScenarios()
    ensures Box(S("foo")).Map(TestMapper) == Box(Opt(Box(S("bar"))))
    ensures Box(S("bar")).Map(TestMapper) == Box(S("baz"))
    ensures Box(S("baz")).Map(TestMapper) == Empty()
    ensures Empty().Map(TestMapper) == Empty()
  {
  }

  /** The mapper of the FlatMap test. Returning the plain string "qux" panics
      in the code (the test expects `Of("qux")`), as does returning nil (the
      test expects `Empty()`). */
  function TestFlatMapper(v: Value<Scalar>): Value<Scalar> {
    if v == S("foo") then Opt(Box(S("bar")))
    else if v == S("bar") then Opt(Empty())
    else if v == S("baz") then S("qux")
    else Nil
  }

  lemma FlatMapScenarios()
    ensures Box(S("foo")).FlatMap(TestFlatMapper) == Ok(Box(S("bar")))
    ensures Box(S("bar")).FlatMap(TestFlatMapper) == Ok(Empty())
    ensures Box(S("baz")).FlatMap(TestFlatMapper) == Panic(FlatMapTypeMessage)
    ensures Box(S("qux")).FlatMap(TestFlatMapper) == Panic(FlatMapNilMessage)
    ensures Empty().FlatMap(TestFlatMapper) == Ok(Empty())
  {
  }

  /** `Empty().Or(() => nil)` panics; `Or` and `OrElseGet` otherwise as in the tests. */
  lemma OrScenarios()
    ensures Box(S("bar")).Or(() => S("foo")) == Ok(Box(S("bar")))
    ensures Empty().Or(() => S("foo")) == Ok(Box(S("foo")))
    ensures Empty<Scalar>().Or(() => Nil) == Panic(OfNilMessage)
    ensures Empty<Scalar>().OrElseGet(() => Nil) == Nil
    ensures Empty<Scalar>().OrElsePanic(["some message"]) == Panic("optional.OrElsePanic: some message")
  {
  }

  /** The Equals test. */
  lemma EqualsScenarios()
    ensures Empty<Scalar>().Equals(Opt(Empty()))
    ensures Box(S("foo")).Equals(Opt(Box(S("foo"))))
    ensures !Box(S("foo")).Equals(S("foo"))
    ensures !Box(S("foo")).Equals(Opt(Box(S("bar"))))
  {
  }

  /** `Empty().String()` is the fixed token. */
  lemma StringScenario(render: Value<Scalar> -> string)
    ensures Empty().String(render) == "Optional.Empty"
  {
  }
}
