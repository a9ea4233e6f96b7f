# optional — a Dafny model of the Go `Optional` container

The Go package `optional` provides `*Optional`, a box with one
`interface{}` field. The box is empty when that field holds Go's untyped
`nil` and present otherwise. It offers:

- constructors `Of` (panics on nil), `OfNilable` (never panics) and `Empty` (the shared empty singleton);
- the state tests `IsEmpty` / `IsPresent`;
- the combinators `Filter`, `Map`, `FlatMap` and `Or`, and the callback runners `IfPresent` / `IfPresentOrElse`;
- the extractions `Get`, `OrElse`, `OrElseGet` and `OrElsePanic`;
- `Equals` and `String`.

Every operation is a branch on "is the held value nil?". The model is purely functional, like the source.

- `outcomes.dfy` (module `Outcomes`): `Outcome<T> = Ok(value) | Panic(message)`. A Go call either returns a value or panics with a message. Each panic of the package becomes a `Panic` carrying the source's literal message (FlatMap's type name aside, see Left out). `Get`'s message keeps the source's spelling, `"opional.Get: nil value"`.
- `optional.dfy` (module `Optionals`): the data model and every operation.
  - What an `interface{}` can hold is modelled as `Value<B> = Nil | Base(payload) | Opt(Optional)`: untyped nil, an ordinary payload of type `B`, or a nested `*Optional`.
  - `Value` and `Optional` are mutually recursive, so `Map`'s nesting and `FlatMap`'s type test on `*Optional` can both be stated.
  - `IfPresent` / `IfPresentOrElse` return a `Callback` value. It says which callback runs and with which argument.
- `optional_laws.dfy` (module `OptionalLaws`): the algebraic laws. They cover the `Of`/`Get` round trips and `Filter` idempotence. They show that `Filter`, `Map` and `FlatMap` return the empty Optional unchanged (`Or` is the one combinator that does not), and that `Map` is `OfNilable` of the mapper's result. They show that `FlatMap` returns the mapper's Optional verbatim and differs from `Map` by one level of nesting. They also cover the `Or` and `OrElse*` laws and that `Equals` is an equivalence.
- `chains.dfy` (module `Chains`): fluent call chains (`Of(x).Filter(p).Map(f)...`), where the first panic ends the chain. It proves three things: running a chain in two parts is running it whole; without `Or`, an empty Optional passes through any chain unchanged; a chain of filters keeps the value exactly when every predicate accepts it, and is idempotent.
- `examples_scenarios.dfy` (module `Scenarios`): the concrete scenarios of the package's tests and examples, over string and int payloads.

Where the package's tests and its code disagree, the model follows the code:

- Only untyped `nil` counts as empty (`optional.go:117`, `optional.go:187`). A nil pointer, map, slice, channel or func stored in the interface is a present value here, because the code never inspects it.
- `FlatMap` panics when the mapper returns nil or anything that is not an `*Optional` (`optional.go:76-83`). It does not fall back to `OfNilable`. The tests at `optional_test.go:56-57` expect the fallback; the scenario lemma `Scenarios.FlatMapScenarios` states what the code does.
- The `...Into` destination-write variants are called by the tests (`optional_test.go:70-93`, `optional_test.go:194-226`) but are not defined in `optional.go`.
- `optional_test.go:59` expects `FlatMap` to panic when the mapper returns a nil `*Optional`. The code returns that nil pointer instead (`optional.go:80-85`).
- `optional_test.go:170-173` and `optional_test.go:179-180` expect a nil `*string` to count as nil. The code compares only against untyped `nil`.

## Model

| member | source | states |
|---|---|---|
| Optionals.Empty | optional.go:34-37 | the empty singleton holds nil, i.e. is empty |
| Optionals.Of | optional.go:184-192 | panics with "optional.Of: nil value" exactly on nil; otherwise the result is present and `Get` returns the value given |
| Optionals.OfNilable | optional.go:194-202 | never panics; nil gives `Empty()`, any other value gives what `Of` returns; empty exactly on nil |
| Optionals.Optional.Equals | optional.go:39-53 | true exactly when `other` is an Optional holding an equal value; false for nil and for any non-Optional |
| Optionals.Optional.IsEmpty | optional.go:114-118 | empty exactly when the held value is untyped nil |
| Optionals.Optional.IsPresent | optional.go:120-124 | `IsPresent` is the negation of `IsEmpty` |
| Optionals.Optional.Get | optional.go:88-95 | returns the held (non-nil) value exactly when present; otherwise panics with the package's Get message |
| Optionals.Optional.IfPresent | optional.go:97-102 | the action is invoked, with the held value, exactly when present; the empty action never is |
| Optionals.Optional.IfPresentOrElse | optional.go:104-112 | the action runs with the held value exactly when present, the empty action exactly when empty |
| Optionals.Optional.Filter | optional.go:55-64 | result is the receiver or `Empty()`; present exactly when the receiver is present and the predicate accepts its value, and then it is the receiver |
| Optionals.Optional.Map | optional.go:126-135 | an empty receiver is returned as is; a present one gives `OfNilable(mapper(value))`; present exactly when the receiver is present and the mapper's result is not nil |
| Optionals.Optional.FlatMap | optional.go:66-86 | an empty receiver is returned as is; on a present value it returns the mapper's Optional verbatim, and panics exactly when the mapper yields nil or a non-Optional, with the matching message |
| Optionals.Optional.Or | optional.go:137-146 | a present receiver is returned; an empty one gives `Of(supplier())`; panics exactly when empty and the supplier yields nil; never returns an empty Optional |
| Optionals.Optional.OrElse | optional.go:148-156 | the value `Get` returns when present, otherwise `other` unchecked |
| Optionals.Optional.OrElseGet | optional.go:158-166 | the value `Get` returns when present, otherwise the supplier's result unchecked |
| Optionals.Optional.OrElsePanic | optional.go:168-182 | returns exactly what `Get` returns when present; otherwise panics with "optional.OrElsePanic: " followed by the first message, or "nil value" when none is given |
| Optionals.Optional.String | optional.go:204-211 | the empty Optional renders as "Optional.Empty"; a present one as "Optional(" ... ")" |
| OptionalLaws.EmptyIsUnique | optional.go:5 | in the model every empty Optional equals `Empty()`; in Go the shared singleton can be told apart through `Equals` on nested Optionals (see Left out) |
| OptionalLaws.OfGetRoundTrip | optional.go:184-192 | `Of(v).Get()` returns `v` for every non-nil `v`; `Of(nil)` panics |
| OptionalLaws.GetOfRoundTrip | optional.go:88-95 | `Of(o.Get())` rebuilds any present `o` |
| OptionalLaws.OfNilableBoxes | optional.go:194-202 | `OfNilable(v)` holds exactly `v`, and is present exactly when `Of(v)` succeeds |
| OptionalLaws.EmptyIsFixed | optional.go:58-135 | `Filter`, `Map` and `FlatMap` return the empty Optional unchanged, and `IfPresent` calls nothing |
| OptionalLaws.FilterKeepsEmpty | optional.go:58-64 | `Filter` never makes an empty Optional present |
| OptionalLaws.FilterIdempotent | optional.go:58-64 | filtering twice with one predicate is filtering once |
| OptionalLaws.FilterConjunction | optional.go:58-64 | two chained filters are one filter by the conjunction, in either order |
| OptionalLaws.MapIsOfNilable | optional.go:129-135 | `Of(x).Map(f)` equals `OfNilable(f(x))` for every non-nil `x` |
| OptionalLaws.MapIdentity | optional.go:129-135 | mapping with the identity returns an equal Optional |
| OptionalLaws.MapFusion | optional.go:129-135 | two maps fuse into one when the second mapper sends nil to nil |
| OptionalLaws.MapNests | optional.go:129-135 | a mapper returning `Opt(y)` makes `Of(x).Map` give `Of(Of(y))` |
| OptionalLaws.FlatMapNoRewrap | optional.go:70-86 | a mapper returning `Opt(y)` makes `Of(x).FlatMap` give `y` itself |
| OptionalLaws.MapFlatMapAsymmetry | optional.go:70-135 | for an Optional-returning mapper, `Map` is `FlatMap` wrapped once more |
| OptionalLaws.FlatMapPanics | optional.go:70-86 | `FlatMap` panics exactly on a present value whose mapper result is not an Optional |
| OptionalLaws.MapViaFlatMap | optional.go:70-135 | `Map(f)` is `FlatMap` of `OfNilable ∘ f`, so `Map` never panics |
| OptionalLaws.FlatMapRightIdentity | optional.go:70-86 | flat-mapping with `OfNilable` returns the receiver |
| OptionalLaws.OrAbsorbs | optional.go:140-146 | once `Or` has returned, a further `Or` with any supplier returns the same Optional |
| OptionalLaws.OrElseIsOrElseGet | optional.go:150-166 | `OrElse(x)` is `OrElseGet` with a supplier of `x`; a nil fallback is returned unchecked |
| OptionalLaws.ExtractionsAgree | optional.go:89-182 | on a present Optional, `Get`, `OrElse` and `OrElsePanic` return the same value |
| OptionalLaws.EqualsIsEquivalence | optional.go:42-53 | `Equals` is reflexive, symmetric and transitive on Optionals and false for every non-Optional |
| OptionalLaws.EqualsIsValueEquality | optional.go:42-53 | `Equals` holds exactly when the held values are equal, and then `Get` and `IsPresent` agree |
| OptionalLaws.IfPresentOrElseRefinesIfPresent | optional.go:98-112 | exactly one callback of `IfPresentOrElse` runs, and when present it is the call `IfPresent` makes |
| OptionalLaws.StringIsEmptyTokenIffEmpty | optional.go:205-211 | the rendering is "Optional.Empty" exactly for the empty Optional, whatever the payload renders as |
| Chains.Apply | optional.go:58-146 | one chained call: on an empty receiver everything but `Or` returns it; `Filter` gives the receiver or `Empty()`; `Filter` and `Map` never panic |
| Chains.Run | optional.go:58-146 | a chain without `Or` leaves an empty Optional unchanged; a filter chain gives the start or `Empty()`; filter/map chains never panic |
| Chains.RunAppend | optional.go:58-146 | running a chain in two parts is running it whole, the first panic ending it |
| Chains.FilterChainKeepsIffAllAccept | optional.go:58-64 | a filter chain keeps the value exactly when every predicate accepts it |
| Chains.FilterChainIdempotent | optional.go:58-64 | running a filter chain twice is running it once |
| Scenarios.MapAddTwo | examples_test.go:22-31 | `Of(42).Map(addTwo).Get()` returns 44 |
| Scenarios.FilterThenOrElse | examples_test.go:11-20 | `Of("foo").Filter(filterOutFoo).OrElse("bar")` returns "bar" |
| Scenarios.MapScenarios | optional_test.go:145-166 | `Map` nests an Optional result, boxes a plain one, and gives empty for nil or an empty receiver |
| Scenarios.FlatMapScenarios | optional_test.go:30-60 | `FlatMap` returns an Optional result verbatim and panics for a plain string or nil result, as the code does |
| Scenarios.OrScenarios | optional_test.go:183-215 | `Empty().Or(() => nil)` panics; `OrElseGet` may return nil; `OrElsePanic` carries the caller's message |
| Scenarios.EqualsScenarios | optional_test.go:9-14 | the four `Equals` cases of the test |
| Scenarios.StringScenario | optional_test.go:228-231 | `Empty().String()` is "Optional.Empty" |

## Left out

- Optionals.Optional.Equals: it uses value equality. Go compares a nested `*Optional` payload by pointer and compares the receiver by pointer first (`optional.go:43`); pointer identity is not modelled. Dafny's `==` is also reflexive, while Go's interface `==` is not: `Of(math.NaN()).Equals(Of(math.NaN()))` is false in Go (`optional.go:52`), but `OptionalLaws.EqualsIsValueEquality` treats every held value as equal to itself.
- Optionals.Optional.FlatMap: for a non-Optional mapper result, the panic message stops after "got ". Go appends the result's dynamic type name (`%T`), which is Go runtime formatting.
- Optionals.Optional.String: a present value renders as `"Optional(" + render(value) + ")"`, where the parameter `render` stands for Go's `%#v` formatting, which is not modelled.
- Optionals.Optional.IfPresent: the callbacks' side effects are not modelled. The same holds for `IfPresentOrElse`. The model states only which callback is invoked and with what argument.
- The `emptyOptional` singleton's pointer identity (`optional.go:5`) is not modelled. In the model every empty Optional equals `Empty()` (`OptionalLaws.EmptyIsUnique`). In Go the sharing can be seen through `Equals` on nested Optionals (`optional.go:52`). `Of(Empty()).Equals(Of(Empty()))` is true because both payloads are the same pointer. `Of(new(Optional)).Equals(Of(new(Optional)))` is false, although both inner Optionals are empty.
- A nil `*Optional` (a typed nil pointer) has no `Value` of its own, so it is not modelled. The code returns one unchanged from `FlatMap` (`optional.go:80-85`). Most methods on a nil receiver panic when they read its field. `Equals` is the exception: it returns true when `other` is the same nil pointer (`optional.go:43-44`), false when `other` is not a `*Optional` (`optional.go:47-49`), and panics only when `other` is a non-nil `*Optional` (`optional.go:52`).
- Typed-nil detection (a nil pointer, map, slice, channel or func inside the interface) is not modelled, because the code compares only against untyped `nil`.
- `GetInto`, `OrElseInto`, `OrElseGetInto` and `OrElsePanicInto` are not modelled. The tests call them, but `optional.go` does not define them, so there is no code to model.
- Go's interface `==` panics at run time on uncomparable payloads such as slices. The payload type here supports equality, so that panic is not modelled.
- Callbacks are total Dafny functions: a callback that panics or has side effects is not modelled.
- `examples_test.go` and `example_test.go` use `net.ParseIP` and `fmt.Println`, which are a foreign library and I/O. Only their `Filter`/`OrElse` and `Map`/`Get` scenarios are modelled.
- `doc.go` holds only the package comment.
