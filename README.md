# ResultNet's `Result<T, E>` in Dafny

A model of `Result<T, E>` from ResultNet. The type is a closed union of a success `Ok(value)` and a failure `Error(error)`, with the combinators the library defines on it: inspection (`IsOk`, `IsError`, `GetOk`, `GetError`), unwrapping (`Unwrap`, `UnwrapOr`, `UnwrapOrElse`), success-side transforms (`Map`, `MapOr`, `MapOrElse`), the error-side transform (`MapError`), sequencing (`And`, `AndThen`), recovery (`Or`, `OrElse`) and the exception adapter `Catch`.

In C#, the union is an abstract class with an `internal` constructor and two `sealed` subclasses, each holding one payload that is never reassigned. In Dafny it is `datatype Result<T, E> = Ok(value: T) | Error(error: E)`, which is closed, immutable and matched exhaustively. The subclasses' payload accessors `Ok<T,E>.Get` and `Error<T,E>.Get` are the destructors `value` and `error`. Each is defined only on its own variant, just as `Get` exists only on its own subclass.

Files:

- `optional.dfy` (module `Optional`): the `Some`/`None` container returned by `GetOk` and `GetError`. It stands in for the external `Optional` library.
- `result.dfy` (module `ResultNet`): the datatype, its operations as member functions, and `Catch`. Each operation's contract states what it means in terms of the other operations.
- `laws.dfy` (module `ResultLaws`): the per-variant behaviour of each operation, and the laws relating the operations. These include the functor laws of `Map` and `MapError` and the monad laws of `AndThen` and `OrElse`.
- `pipeline.dfy` (module `Pipeline`): chains of `AndThen` calls and chains of `OrElse` calls of any length. The lemmas prove that short-circuiting holds for the whole chain, that a chain can be split anywhere, and that a chain is equivalent to a single bind.

Throwing is modelled as a value. `Unwrap` returns an `Outcome` that is either `Returned(v)` or `Threw(InvalidOperationException("Cannot unwrap an Error Result"))`. `Catch` takes the outcome of running its delegate as a parameter.

## Model

| member | source | states |
|---|---|---|
| `ResultNet.Result.IsOk` | ResultNet/Result.cs:26-27 | `IsOk` and `IsError` never agree, so every result is exactly one variant |
| `ResultLaws.ExactlyOneVariant` | ResultNet/Result.cs:26-27 | every result is `Ok` or `Error`, and never both |
| `ResultLaws.FactoriesReportTheirVariant` | ResultNet/Result.cs:17-27 | the `Ok` factory builds a result that is `IsOk` and not `IsError`; the `Error` factory builds one that is `IsError` and not `IsOk` |
| `ResultLaws.GetReturnsPayload` | ResultNet/Result.cs:151-177 | `Get` of each variant returns the payload its constructor stored, and a result equals the factory of its variant applied to its payload |
| `ResultNet.Result.GetOk` | ResultNet/Result.cs:29-36 | the result is present exactly when the result is `Ok`, and then it holds the success payload |
| `ResultNet.Result.GetError` | ResultNet/Result.cs:37-44 | the result is present exactly when the result is `Error`, and then it holds the failure payload |
| `ResultLaws.GetOkGetErrorMirror` | ResultNet/Result.cs:29-44 | `Ok(v)` gives `Some(v)` / `None`; `Error(e)` gives `None` / `Some(e)` |
| `ResultLaws.AccessorsDetermineResult` | ResultNet/Result.cs:29-44 | exactly one accessor is present, and two results are equal iff both accessors agree |
| `ResultNet.Result.Unwrap` | ResultNet/Result.cs:46-53 | returns normally exactly on `Ok`, giving back its payload; on `Error` it throws an exception with the message "Cannot unwrap an Error Result" |
| `ResultLaws.UnwrapCases` | ResultNet/Result.cs:46-53 | `Ok(v).Unwrap()` returns `v`; `Error(e).Unwrap()` throws `InvalidOperationException` with that message |
| `ResultNet.Result.UnwrapOr` | ResultNet/Result.cs:54-61 | agrees with `Unwrap` where `Unwrap` returns, and is the default where `Unwrap` throws |
| `ResultLaws.UnwrapOrCases` | ResultNet/Result.cs:54-61 | `Ok(v).UnwrapOr(d) == v` and `Error(e).UnwrapOr(d) == d` |
| `ResultNet.Result.UnwrapOrElse` | ResultNet/Result.cs:62-69 | agrees with `Unwrap` where `Unwrap` returns, and is the fallback applied to the error payload otherwise |
| `ResultLaws.UnwrapOrElseCases` | ResultNet/Result.cs:62-69 | `Ok(v).UnwrapOrElse(h) == v` and `Error(e).UnwrapOrElse(h) == h(e)` |
| `ResultLaws.UnwrapOrIsConstantFallback` | ResultNet/Result.cs:54-69 | `UnwrapOr(d)` is `UnwrapOrElse` with a fallback that ignores the error and returns `d` |
| `ResultNet.Result.Map` | ResultNet/Result.cs:71-78 | keeps the variant and the error payload; on a success the new payload is `f` of the old one |
| `ResultLaws.MapCases` | ResultNet/Result.cs:71-78 | `Ok(v).Map(f) == Ok(f(v))` and `Error(e).Map(f) == Error(e)` |
| `ResultLaws.MapIdentity` | ResultNet/Result.cs:71-78 | mapping the identity function returns the same result |
| `ResultLaws.MapComposition` | ResultNet/Result.cs:71-78 | `r.Map(f).Map(g) == r.Map(x => g(f(x)))` |
| `ResultLaws.MapIsAndThenOk` | ResultNet/Result.cs:71-78 | `r.Map(f) == r.AndThen(x => Ok(f(x)))` |
| `ResultNet.Result.MapOr` | ResultNet/Result.cs:79-86 | `r.MapOr(d, f) == r.Map(f).UnwrapOr(d)` |
| `ResultNet.Result.MapOrElse` | ResultNet/Result.cs:87-94 | `r.MapOrElse(h, f) == r.Map(f).UnwrapOrElse(h)` |
| `ResultLaws.MapOrCases` | ResultNet/Result.cs:79-94 | `MapOr` gives `f(v)` on `Ok(v)` and `d` on an error; `MapOrElse` gives `f(v)` on `Ok(v)` and `h(e)` on `Error(e)` |
| `ResultNet.Result.MapError` | ResultNet/Result.cs:95-102 | keeps the variant and the success payload; on a failure the new payload is `f` of the old one |
| `ResultLaws.MapErrorCases` | ResultNet/Result.cs:95-102 | `Ok(v).MapError(f) == Ok(v)` and `Error(e).MapError(f) == Error(f(e))` |
| `ResultLaws.MapErrorIdentity` | ResultNet/Result.cs:95-102 | mapping the identity function over the error returns the same result |
| `ResultLaws.MapErrorComposition` | ResultNet/Result.cs:95-102 | `r.MapError(f).MapError(g) == r.MapError(x => g(f(x)))` |
| `ResultLaws.MapAndMapErrorCommute` | ResultNet/Result.cs:71-102 | `r.Map(f).MapError(g) == r.MapError(g).Map(f)` |
| `ResultNet.Result.And` | ResultNet/Result.cs:104-111 | `r.And(next)` is `AndThen` with a continuation that ignores the success payload and returns `next` |
| `ResultLaws.AndCases` | ResultNet/Result.cs:104-111 | `Error(e).And(next) == Error(e)` and `Ok(v).And(next) == next` |
| `ResultNet.Result.AndThen` | ResultNet/Result.cs:112-119 | on a success the result is the continuation applied to the payload; on a failure the same error comes out |
| `ResultLaws.AndThenCases` | ResultNet/Result.cs:112-119 | `Ok(v).AndThen(f) == f(v)` (left identity) and `Error(e).AndThen(f) == Error(e)` |
| `ResultLaws.AndThenRightIdentity` | ResultNet/Result.cs:112-119 | `r.AndThen(x => Ok(x)) == r` |
| `ResultLaws.AndThenAssociative` | ResultNet/Result.cs:112-119 | `r.AndThen(f).AndThen(g) == r.AndThen(x => f(x).AndThen(g))` |
| `Pipeline.ErrorSkipsAndThenChain` | ResultNet/Result.cs:112-119 | an error passed through any number of `AndThen` calls comes out unchanged |
| `Pipeline.OkAndThenChainStartsOk` | ResultNet/Result.cs:112-119 | a chain of `AndThen` calls can end in a success only if it started from one |
| `Pipeline.AndThenChainSplit` | ResultNet/Result.cs:112-119 | running the steps `first + rest` is running `first` and then `rest` |
| `Pipeline.AndThenChainIsOneBind` | ResultNet/Result.cs:112-119 | a chain of `AndThen` calls on `r` is a single `AndThen` on `r` whose continuation runs the chain on the payload |
| `ResultNet.Result.Or` | ResultNet/Result.cs:121-128 | `r.Or(alt)` is `OrElse` with a handler that ignores the error payload and returns `alt` |
| `ResultLaws.OrCases` | ResultNet/Result.cs:121-128 | `Ok(v).Or(alt) == Ok(v)` and `Error(e).Or(alt) == alt` |
| `ResultNet.Result.OrElse` | ResultNet/Result.cs:129-136 | on a failure the result is the handler applied to the error payload; on a success the same payload comes out |
| `ResultLaws.OrElseCases` | ResultNet/Result.cs:129-136 | `Ok(v).OrElse(f) == Ok(v)` and `Error(e).OrElse(f) == f(e)` |
| `ResultLaws.OrElseRightIdentity` | ResultNet/Result.cs:129-136 | `r.OrElse(x => Error(x)) == r` |
| `ResultLaws.OrElseAssociative` | ResultNet/Result.cs:129-136 | `r.OrElse(f).OrElse(g) == r.OrElse(x => f(x).OrElse(g))` |
| `Pipeline.OkSkipsOrElseChain` | ResultNet/Result.cs:129-136 | a success passed through any number of `OrElse` calls comes out unchanged |
| `Pipeline.ErrorOrElseChainStartsError` | ResultNet/Result.cs:129-136 | a chain of `OrElse` calls can end in an error only if it started from one |
| `Pipeline.OrElseChainSplit` | ResultNet/Result.cs:129-136 | running the handlers `first + rest` is running `first` and then `rest` |
| `Pipeline.OrElseChainIsOneRecovery` | ResultNet/Result.cs:129-136 | a chain of `OrElse` calls on `r` is a single `OrElse` on `r` whose handler runs the chain on the error payload |
| `ResultNet.Catch` | ResultNet/Result.cs:138-148 | a delegate that returns `x` gives `Ok(x)`; one that throws `ex` gives an error whose payload is `ex` itself |
| `ResultLaws.CatchUnwrap` | ResultNet/Result.cs:46-53 | wrapping `Unwrap` in `Catch` gives back `Ok(v)` for `Ok(v)`, and an error holding the `InvalidOperationException` for an `Error` |

## Left out

- Exceptions: Dafny has none. `Unwrap` returns the thrown `InvalidOperationException` as a `Threw` outcome. `Catch` does not run a delegate: it receives the delegate's outcome (`Returned(x)` or `Threw(ex)`) as its argument. Exception types other than `InvalidOperationException` are a type parameter.
- The external `Optional` library: only its `Some` and `None` constructors are modelled, as a local datatype.
- The implicit conversion operators of `Ok<T,E>` and `Error<T,E>` (ResultNet/Result.cs:162-165, 179-182): they are a C# type-conversion convenience. They return the same payload as `Get`, which is the destructor `value` or `error`.
- Reference identity and allocation: the C# factories allocate a new object, and `And`/`Or` return their argument object. A Dafny datatype value has no identity, so only equality of values is stated.
- Evaluation order and how often delegates run: Dafny functions are pure, so it cannot be observed whether `UnwrapOr`'s default or the `And`/`Or` arguments are evaluated eagerly, or whether a delegate runs only on its own branch. The model states only the value each operation returns.
- The `CS8509` non-exhaustive-switch warning suppression: a Dafny `match` on the datatype is exhaustive by construction.
- `ResultNet.Result.IsError`: it carries no contract of its own. Dafny would reject a contract on `IsError` that mentions `IsOk`, because `IsOk`'s contract already mentions `IsError` and the two would form a cycle. Exclusivity and exhaustiveness are stated on `IsOk` and in `ExactlyOneVariant`.
