/** The closed two-variant result type of ResultNet and its combinators.

    The C# class hierarchy (an abstract base with an internal constructor and
    exactly two sealed subclasses, each holding one payload set once) is a
    datatype with two constructors here: Dafny's datatypes are closed and
    immutable by construction, and `match` is exhaustive. */
module ResultNet {
  import opened Optional

  /** What running a delegate that may throw comes to: either it returned a
      value or it threw an exception object. Dafny has no exceptions, so the
      throwing operations of the library return or consume one of these. */
  datatype Outcome<R, X> = Returned(value: R) | Threw(exception: X)

  /** The exception `Unwrap` throws when it is called on an `Error`. */
  datatype InvalidOperationException = InvalidOperationException(message: string)

  /** The message carried by that exception. */
  const UnwrapErrorMessage: string := "Cannot unwrap an Error Result"

  /** A success holding a `T`, or a failure holding an `E`. The destructors
      `value` and `error` are the payload accessors `Ok<T,E>.Get` and
      `Error<T,E>.Get`: each is defined only on its own variant. */
  datatype Result<T, E> = Ok(value: T) | Error(error: E) {

    /** True exactly on the success variant; never agrees with `IsError`. */
    function IsOk(): (b: bool)
      ensures b != IsError()
    {
      Ok?
    }

    /** True exactly on the failure variant. */
    function IsError(): bool
    {
      Error?
    }

    /** The success payload if there is one. */
    function GetOk(): (o: Option<T>)
      ensures o.Some? <==> IsOk()
      ensures o.Some? ==> this == Ok(o.value)
    {
      match this
      case Ok(v) => Some(v)
      case Error(_) => None
    }

    /** The failure payload if there is one. */
    function GetError(): (o: Option<E>)
      ensures o.Some? <==> IsError()
      ensures o.Some? ==> this == Error(o.value)
    {
      match this
      case Ok(_) => None
      case Error(e) => Some(e)
    }

    /** The success payload; on a failure, the call throws an
        `InvalidOperationException` with `UnwrapErrorMessage`. */
    function Unwrap(): (r: Outcome<T, InvalidOperationException>)
      ensures r.Returned? <==> IsOk()
      ensures r.Returned? ==> this == Ok(r.value)
      ensures r.Threw? ==> r.exception.message == UnwrapErrorMessage
    {
      match this
      case Ok(v) => Returned(v)
      case Error(_) => Threw(InvalidOperationException(UnwrapErrorMessage))
    }

    /** `Unwrap` with the throw replaced by `default`: it never fails. */
    function UnwrapOr(default: T): (v: T)
      ensures Unwrap().Returned? ==> v == Unwrap().value
      ensures Unwrap().Threw? ==> v == default
    {
      match this
      case Ok(v) => v
      case Error(_) => default
    }

    /** `Unwrap` with the throw replaced by `fallback` applied to the error. */
    function UnwrapOrElse(fallback: E -> T): (v: T)
      ensures Unwrap().Returned? ==> v == Unwrap().value
      ensures GetError().Some? ==> v == fallback(GetError().value)
    {
      match this
      case Ok(v) => v
      case Error(e) => fallback(e)
    }

    /** Transforms the success payload and passes an error through unchanged. */
    function Map<U>(f: T -> U): (r: Result<U, E>)
      ensures r.IsOk() == IsOk()
      ensures r.GetError() == GetError()
      ensures GetOk().Some? ==> r.GetOk() == Some(f(GetOk().value))
    {
      match this
      case Ok(v) => Ok(f(v))
      case Error(e) => Error(e)
    }

    /** `f` of the success payload, or `default` on a failure. */
    function MapOr<U>(default: U, f: T -> U): (u: U)
      ensures u == Map(f).UnwrapOr(default)
    {
      match this
      case Ok(v) => f(v)
      case Error(_) => default
    }

    /** `f` of the success payload, or `onError` of the failure payload. */
    function MapOrElse<U>(onError: E -> U, f: T -> U): (u: U)
      ensures u == Map(f).UnwrapOrElse(onError)
    {
      match this
      case Ok(v) => f(v)
      case Error(e) => onError(e)
    }

    /** Transforms the failure payload and passes a success through unchanged. */
    function MapError<F>(f: E -> F): (r: Result<T, F>)
      ensures r.IsError() == IsError()
      ensures r.GetOk() == GetOk()
      ensures GetError().Some? ==> r.GetError() == Some(f(GetError().value))
    {
      match this
      case Ok(v) => Ok(v)
      case Error(e) => Error(f(e))
    }

    /** Continues with the computation `f` on the success payload; a failure
        short-circuits and is passed on unchanged. */
    function AndThen<U>(f: T -> Result<U, E>): (r: Result<U, E>)
      ensures GetOk().Some? ==> r == f(GetOk().value)
      ensures IsError() ==> r.GetError() == GetError()
    {
      match this
      case Ok(v) => f(v)
      case Error(e) => Error(e)
    }

    /** `next` on a success, the unchanged failure otherwise: `AndThen` with a
        continuation that ignores the success payload. */
    function And<U>(next: Result<U, E>): (r: Result<U, E>)
      ensures r == AndThen(_ => next)
    {
      match this
      case Ok(_) => next
      case Error(e) => Error(e)
    }

    /** Recovers from a failure with the computation `f` on the failure
        payload; a success short-circuits and is passed on unchanged. */
    function OrElse<F>(f: E -> Result<T, F>): (r: Result<T, F>)
      ensures GetError().Some? ==> r == f(GetError().value)
      ensures IsOk() ==> r.GetOk() == GetOk()
    {
      match this
      case Ok(v) => Ok(v)
      case Error(e) => f(e)
    }

    /** The unchanged success, or `alternative` on a failure: `OrElse` with a
        handler that ignores the failure payload. */
    function Or<F>(alternative: Result<T, F>): (r: Result<T, F>)
      ensures r == OrElse(_ => alternative)
    {
      match this
      case Ok(v) => Ok(v)
      case Error(_) => alternative
    }
  }

  /** Runs a delegate and captures what it threw as the failure payload, the
      exception object itself rather than a copy or its message. The run of
      the delegate is the parameter `run`. */
  function Catch<R, X>(run: Outcome<R, X>): (r: Result<R, X>)
    ensures r.IsOk() <==> run.Returned?
    ensures run.Returned? ==> r.GetOk() == Some(run.value)
    ensures run.Threw? ==> r.GetError() == Some(run.exception)
  {
    match run
    case Returned(v) => Ok(v)
    case Threw(x) => Error(x)
  }
}
