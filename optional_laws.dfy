/** Algebraic laws of the `Optional` container, each relating several of its
    operations. */
module OptionalLaws {
  import opened Outcomes
  import opened Optionals

  /** In the model there is one empty state: every Optional holding nil is
      `Empty()`. (In Go the shared singleton can be told apart from a fresh
      empty Optional through `Equals` on nested Optionals, which compares
      pointers.) */
  lemma EmptyIsUnique<B>(o: Optional<B>)
    requires o.IsEmpty()
    ensures o == Empty()
  {
  }

  /** `Of` then `Get` returns the value given, for every non-nil value; `Of(nil)` panics. */
  lemma OfGetRoundTrip<B>(v: Value<B>)
    ensures !v.Nil? ==> Of(v).Ok? && Of(v).value.Get() == Ok(v)
    ensures v.Nil? ==> Of(v) == Panic(OfNilMessage)
  {
  }

  /** `Get` then `Of` rebuilds a present Optional. */
  lemma GetOfRoundTrip<B>(o: Optional<B>)
    requires o.IsPresent()
    ensures o.Get().Ok? && Of(o.Get().value) == Ok(o)
  {
  }

  /** `OfNilable` never panics and boxes exactly the value it is given: nil
      becomes the empty singleton, anything else `Of(v)`. */
  lemma OfNilableBoxes<B>(v: Value<B>)
    ensures OfNilable(v).value == v
    ensures OfNilable(v).IsPresent() <==> Of(v).Ok?
  {
  }

  /** `Filter`, `Map` and `FlatMap` return the empty Optional unchanged, and
      `IfPresent` calls nothing; `Or` is the one combinator that does not. */
  lemma EmptyIsFixed<B>(accept: Value<B> -> bool, mapper: Value<B> -> Value<B>)
    ensures Empty<B>().Filter(accept) == Empty()
    ensures Empty<B>().Map(mapper) == Empty()
    ensures Empty<B>().FlatMap(mapper) == Ok(Empty())
    ensures Empty<B>().IfPresent() == NoCall
  {
  }

  /** `Filter` never turns an empty Optional into a present one. */
  lemma FilterKeepsEmpty<B>(o: Optional<B>, accept: Value<B> -> bool)
    requires o.IsEmpty()
    ensures o.Filter(accept).IsEmpty()
  {
  }

  /** Filtering twice with the same predicate is filtering once. */
  lemma FilterIdempotent<B>(o: Optional<B>, accept: Value<B> -> bool)
    ensures o.Filter(accept).Filter(accept) == o.Filter(accept)
  {
  }

  /** Chained filters keep the value exactly when both predicates accept it. */
  lemma FilterConjunction<B>(o: Optional<B>, p: Value<B> -> bool, q: Value<B> -> bool)
    ensures o.Filter(p).Filter(q) == o.Filter(v => p(v) && q(v))
    ensures o.Filter(p).Filter(q) == o.Filter(q).Filter(p)
  {
  }

  /** On a present value `Map` is `OfNilable` of the mapper's result. */
  lemma MapIsOfNilable<B>(x: Value<B>, mapper: Value<B> -> Value<B>)
    requires !x.Nil?
    ensures Of(x).Ok? && Of(x).value.Map(mapper) == OfNilable(mapper(x))
  {
  }

  /** Mapping with the identity gives an Optional equal to the receiver. */
  lemma MapIdentity<B>(o: Optional<B>)
    ensures o.Map(v => v) == o
  {
  }

  /** Two maps fuse into one when the second mapper sends nil to nil; without
      that condition the second mapper would see a nil that `Map` never passes. */
  lemma MapFusion<B>(o: Optional<B>, f: Value<B> -> Value<B>, g: Value<B> -> Value<B>)
    requires g(Nil) == Nil
    ensures o.Map(f).Map(g) == o.Map(v => g(f(v)))
  {
  }

  /** A mapper that yields an Optional makes `Map` nest it: `Of(Of(y))`. */
  lemma MapNests<B>(x: Value<B>, y: Optional<B>, mapper: Value<B> -> Value<B>)
    requires !x.Nil? && mapper(x) == Opt(y)
    ensures Of(x).Ok? && Of(Opt(y)).Ok?
    ensures Of(x).value.Map(mapper) == Of(Opt(y)).value
  {
  }

  /** `FlatMap` returns the mapper's Optional verbatim, without re-wrapping. */
  lemma FlatMapNoRewrap<B>(x: Value<B>, y: Optional<B>, mapper: Value<B> -> Value<B>)
    requires !x.Nil? && mapper(x) == Opt(y)
    ensures Of(x).Ok? && Of(x).value.FlatMap(mapper) == Ok(y)
  {
  }

  /** The two differ by exactly one level of nesting. */
  lemma MapFlatMapAsymmetry<B>(o: Optional<B>, mapper: Value<B> -> Value<B>)
    requires o.IsPresent() && mapper(o.value).Opt?
    ensures o.FlatMap(mapper).Ok?
    ensures o.Map(mapper) == Optional(Opt(o.FlatMap(mapper).value))
  {
  }

  /** `FlatMap` panics on a present value exactly when the mapper yields nil
      or a non-Optional; it never panics on an empty one. */
  lemma FlatMapPanics<B>(o: Optional<B>, mapper: Value<B> -> Value<B>)
    ensures o.FlatMap(mapper).Panic? <==> o.IsPresent() && !mapper(o.value).Opt?
  {
  }

  /** `Map` is `FlatMap` with the mapper's result boxed by `OfNilable`, so it never panics. */
  lemma MapViaFlatMap<B>(o: Optional<B>, mapper: Value<B> -> Value<B>)
    ensures o.FlatMap(v => Opt(OfNilable(mapper(v)))) == Ok(o.Map(mapper))
  {
  }

  /** Flat-mapping with the boxing constructor gives the receiver back. */
  lemma FlatMapRightIdentity<B>(o: Optional<B>)
    ensures o.FlatMap(v => Opt(OfNilable(v))) == Ok(o)
  {
  }

  /** `Or` absorbs: once it has returned, a further `Or` with any supplier
      changes nothing and calls no supplier that could panic. */
  lemma OrAbsorbs<B>(o: Optional<B>, s: () -> Value<B>, t: () -> Value<B>)
    requires o.Or(s).Ok?
    ensures o.Or(s).value.Or(t) == o.Or(s)
  {
  }

  /** `OrElse(x)` is `OrElseGet` with a supplier of `x`; neither checks for nil. */
  lemma OrElseIsOrElseGet<B>(o: Optional<B>, x: Value<B>)
    ensures o.OrElse(x) == o.OrElseGet(() => x)
    ensures o.IsEmpty() ==> o.OrElseGet(() => Nil) == Nil
  {
  }

  /** `OrElse` and `OrElsePanic` return what `Get` returns whenever it returns. */
  lemma ExtractionsAgree<B>(o: Optional<B>, x: Value<B>, message: seq<string>)
    requires o.IsPresent()
    ensures o.Get() == Ok(o.OrElse(x)) == o.OrElsePanic(message)
  {
  }

  /** `Equals` is an equivalence relation on Optionals, and nothing else equals one. */
  lemma EqualsIsEquivalence<B>(a: Optional<B>, b: Optional<B>, c: Optional<B>, other: Value<B>)
    ensures a.Equals(Opt(a))
    ensures a.Equals(Opt(b)) == b.Equals(Opt(a))
    ensures a.Equals(Opt(b)) && b.Equals(Opt(c)) ==> a.Equals(Opt(c))
    ensures !other.Opt? ==> !a.Equals(other)
  {
  }

  /** Two Optionals are `Equals` exactly when they hold equal values, so they
      are interchangeable for every other operation. */
  lemma EqualsIsValueEquality<B>(a: Optional<B>, b: Optional<B>)
    ensures a.Equals(Opt(b)) <==> a.value == b.value
    ensures a.Equals(Opt(b)) ==> a.Get() == b.Get() && a.IsPresent() == b.IsPresent()
  {
  }

  /** Exactly one of the two callbacks of `IfPresentOrElse` runs, and when the
      value is present it is the same call `IfPresent` makes. */
  lemma IfPresentOrElseRefinesIfPresent<B>(o: Optional<B>)
    ensures o.IsPresent() ==> o.IfPresentOrElse() == o.IfPresent() == Action(o.value)
    ensures o.IsEmpty() ==> o.IfPresentOrElse() == EmptyAction && o.IfPresent() == NoCall
  {
  }

  /** The rendering is the `Optional.Empty` token exactly for the empty
      Optional, whatever the payload renders as. */
  lemma StringIsEmptyTokenIffEmpty<B>(o: Optional<B>, render: Value<B> -> string)
    ensures o.String(render) == EmptyToken <==> o.IsEmpty()
  {
    if o.IsPresent() {
      var s := o.String(render);
      assert s[8] == '(';
      assert EmptyToken[8] == '.';
    }
  }
}
