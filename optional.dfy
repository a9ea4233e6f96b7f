/** The `Optional` container of the Go package `optional`: a box whose single
    `interface{}` field holds either a value or Go's untyped `nil`, which is the
    empty state. Every operation decides on "is the held value nil?". */
module Optionals {
  import opened Outcomes

  /** What an `interface{}` can hold, as far as the container can tell:
      untyped `nil`, an ordinary payload, or another `*Optional`. */
  datatype Value<B(==)> = Nil | Base(payload: B) | Opt(opt: Optional<B>)

  /** Which caller-supplied callback `IfPresent` / `IfPresentOrElse` invokes,
      and with what argument. */
  datatype Callback<B(==)> = NoCall | Action(arg: Value<B>) | EmptyAction

  // Panic messages and tokens, verbatim (including the spelling of Get's message)
  const OfNilMessage := "optional.Of: nil value"
  const GetNilMessage := "opional.Get: nil value"
  const FlatMapNilMessage := "optional.FlatMap: map func returned nil value"
  const FlatMapTypeMessage := "optional.FlatMap: expected map func to return *Optional, got "
  const OrElsePanicPrefix := "optional.OrElsePanic: "
  const OrElsePanicDefault := "nil value"
  const EmptyToken := "Optional.Empty"

  /** The `emptyOptional` singleton: the one Optional that holds nil. */
  function Empty<B(==)>(): (r: Optional<B>)
    ensures r.IsEmpty()
  {
    Optional(Nil)
  }

  /** The assertive constructor: panics on nil, otherwise boxes the value. */
  function Of<B(==)>(v: Value<B>): (r: Outcome<Optional<B>>)
    ensures r.Panic? <==> v.Nil?
    ensures r.Panic? ==> r.message == OfNilMessage
    ensures r.Ok? ==> r.value.IsPresent() && r.value.Get() == Ok(v)
  {
    if v.Nil? then Panic(OfNilMessage) else Ok(Optional(v))
  }

  /** The lenient constructor: nil gives the empty singleton, anything else
      goes through `Of`. It never panics. */
  function OfNilable<B(==)>(v: Value<B>): (r: Optional<B>)
    ensures v.Nil? ==> r == Empty()
    ensures !v.Nil? ==> Of(v) == Ok(r)
    ensures r.IsEmpty() <==> v.Nil?
  {
    if v.Nil? then Empty() else Of(v).value
  }

  datatype Optional<B(==)> = Optional(value: Value<B>) {

    /** Empty exactly when the held value is untyped nil; nothing else is checked. */
    predicate IsEmpty()
      ensures IsEmpty() <==> value == Nil
    {
      value.Nil?
    }

    function IsPresent(): (r: bool)
      ensures r <==> !IsEmpty()
    {
      value != Nil
    }

    /** The Go `Equals` method: `other` is this very Optional, or another
        Optional holding an equal value. */
    function Equals(other: Value<B>): (r: bool)
      ensures r <==> other == Opt(this)
      ensures other.Nil? || other.Base? ==> !r
    {
      if other == Opt(this) then
        true
      else
        match other
        case Opt(p) => p.value == value
        case _ => false
    }

    /** The held value; panics on an empty Optional. */
    function Get(): (r: Outcome<Value<B>>)
      ensures r.Ok? <==> IsPresent()
      ensures r.Ok? ==> r.value == value && !r.value.Nil?
      ensures r.Panic? ==> r.message == GetNilMessage
    {
      if value == Nil then Panic(GetNilMessage) else Ok(value)
    }

    /** Which callback runs: `action(value)` when present, none otherwise. */
    function IfPresent(): (r: Callback<B>)
      ensures r.Action? <==> IsPresent()
      ensures r.Action? ==> r.arg == value && !r.arg.Nil?
      ensures !r.EmptyAction?
    {
      if IsPresent() then Action(value) else NoCall
    }

    /** Which callback runs: `action(value)` when present, `emptyAction()` otherwise. */
    function IfPresentOrElse(): (r: Callback<B>)
      ensures r.Action? <==> IsPresent()
      ensures r.EmptyAction? <==> IsEmpty()
      ensures r.Action? ==> r.arg == value && !r.arg.Nil?
    {
      if IsPresent() then Action(value) else EmptyAction
    }

    /** Keeps the receiver when it is empty or its value passes `accept` (the Go `predicate`),
        otherwise gives the empty singleton. */
    function Filter(accept: Value<B> -> bool): (r: Optional<B>)
      ensures r == this || r == Empty()
      ensures r.IsPresent() <==> IsPresent() && accept(value)
      ensures r.IsPresent() ==> r == this
    {
      if IsEmpty() || accept(value) then this else Empty()
    }

    /** Applies `mapper` to a present value and boxes its result through
        `OfNilable`; an empty receiver is returned as is. */
    function Map(mapper: Value<B> -> Value<B>): (r: Optional<B>)
      ensures IsEmpty() ==> r == this
      ensures IsPresent() ==> r == OfNilable(mapper(value))
      ensures r.IsPresent() <==> IsPresent() && !mapper(value).Nil?
    {
      if IsEmpty() then this else OfNilable(mapper(value))
    }

    /** Applies `mapper` to a present value and returns the `*Optional` it
        yields as is; panics when it yields nil or anything else that is not
        an Optional. An empty receiver is returned as is. */
    function FlatMap(mapper: Value<B> -> Value<B>): (r: Outcome<Optional<B>>)
      ensures IsEmpty() ==> r == Ok(this)
      ensures IsPresent() ==> (r.Ok? <==> mapper(value).Opt?)
      ensures IsPresent() && mapper(value).Opt? ==> r.value == mapper(value).opt
      ensures IsPresent() && mapper(value).Nil? ==> r == Panic(FlatMapNilMessage)
      ensures IsPresent() && mapper(value).Base? ==> r == Panic(FlatMapTypeMessage)
    {
      if IsEmpty() then
        Ok(this)
      else
        match mapper(value)
        case Nil => Panic(FlatMapNilMessage)
        case Opt(o) => Ok(o)
        case Base(_) => Panic(FlatMapTypeMessage)
    }

    /** The receiver when present, otherwise `Of(supplier())`, which panics
        when the supplier yields nil. */
    function Or(supplier: () -> Value<B>): (r: Outcome<Optional<B>>)
      ensures IsPresent() ==> r == Ok(this)
      ensures IsEmpty() ==> r == Of(supplier())
      ensures r.Panic? <==> IsEmpty() && supplier().Nil?
      ensures r.Ok? ==> r.value.IsPresent()
    {
      if IsPresent() then Ok(this) else Of(supplier())
    }

    /** The held value when present, otherwise `other`, which may be nil. */
    function OrElse(other: Value<B>): (r: Value<B>)
      ensures IsPresent() ==> Get() == Ok(r)
      ensures IsEmpty() ==> r == other
    {
      if IsPresent() then value else other
    }

    /** The held value when present, otherwise `supplier()` unchecked. */
    function OrElseGet(supplier: () -> Value<B>): (r: Value<B>)
      ensures IsPresent() ==> Get() == Ok(r)
      ensures IsEmpty() ==> r == supplier()
    {
      if IsPresent() then value else supplier()
    }

    /** The held value when present; otherwise panics with the first of the
        variadic `message` arguments, or "nil value" when none is given. */
    function OrElsePanic(message: seq<string>): (r: Outcome<Value<B>>)
      ensures r.Ok? <==> IsPresent()
      ensures r.Ok? ==> r == Get()
      ensures r.Panic? && |message| > 0 ==> r.message == OrElsePanicPrefix + message[0]
      ensures r.Panic? && |message| == 0 ==> r.message == OrElsePanicPrefix + OrElsePanicDefault
    {
      if IsPresent() then
        Ok(value)
      else
        var msg := if |message| > 0 then message[0] else OrElsePanicDefault;
        Panic(OrElsePanicPrefix + msg)
    }

    /** `fmt.Stringer`: "Optional(...)" around `render(value)` when present
        (`render` stands for Go's `%#v` formatting), the fixed token when empty. */
    function String(render: Value<B> -> string): (r: string)
      ensures IsEmpty() ==> r == EmptyToken
      ensures IsPresent() ==> |r| >= 10 && r[..9] == "Optional(" && r[|r| - 1] == ')'
    {
      if IsPresent() then "Optional(" + render(value) + ")" else EmptyToken
    }
  }
}
