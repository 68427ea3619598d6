/** Algebraic laws of the result type: how each combinator behaves on each
    variant, how the combinators relate to one another, and the functor and
    monad laws of `Map`, `MapError`, `AndThen` and `OrElse`. */
module ResultLaws {
  import opened Optional
  import opened ResultNet

  // ----- Inspection -----

  /** Every result is exactly one of the two variants. */
  lemma ExactlyOneVariant<T, E>(r: Result<T, E>)
    ensures r.IsOk() || r.IsError()
    ensures !(r.IsOk() && r.IsError())
  {
  }

  /** The factories build the variant their predicates report. */
  lemma FactoriesReportTheirVariant<T, E>(v: T, e: E)
    ensures Result<T, E>.Ok(v).IsOk() && !Result<T, E>.Ok(v).IsError()
    ensures Result<T, E>.Error(e).IsError() && !Result<T, E>.Error(e).IsOk()
  {
  }

  /** `GetOk` and `GetError` are mirror images of each other. */
  lemma GetOkGetErrorMirror<T, E>(v: T, e: E)
    ensures Result<T, E>.Ok(v).GetOk() == Some(v)
    ensures Result<T, E>.Ok(v).GetError() == None
    ensures Result<T, E>.Error(e).GetError() == Some(e)
    ensures Result<T, E>.Error(e).GetOk() == None
  {
  }

  /** Exactly one of the two accessors is present, and together they lose
      nothing: two results with the same accessors are the same result. */
  lemma AccessorsDetermineResult<T, E>(r: Result<T, E>, s: Result<T, E>)
    ensures r.GetOk().Some? != r.GetError().Some?
    ensures r == s <==> r.GetOk() == s.GetOk() && r.GetError() == s.GetError()
  {
  }

  /** The payload accessors `Get` of the two variants (the destructors
      `value` and `error`) give back exactly what the factory stored, and a
      result is rebuilt from its payload by the factory of its variant. */
  lemma GetReturnsPayload<T, E>(r: Result<T, E>, v: T, e: E)
    ensures Result<T, E>.Ok(v).value == v
    ensures Result<T, E>.Error(e).error == e
    ensures r.IsOk() ==> Ok(r.value) == r
    ensures r.IsError() ==> Error(r.error) == r
  {
  }

  // ----- Unwrapping -----

  /** `Unwrap` returns the payload of `Ok` and throws on `Error`. */
  lemma UnwrapCases<T, E>(v: T, e: E)
    ensures Result<T, E>.Ok(v).Unwrap() == Returned(v)
    ensures Result<T, E>.Error(e).Unwrap() == Threw(InvalidOperationException(UnwrapErrorMessage))
  {
  }

  /** `UnwrapOr` returns the payload of `Ok`, and exactly the default on `Error`. */
  lemma UnwrapOrCases<T, E>(v: T, e: E, d: T)
    ensures Result<T, E>.Ok(v).UnwrapOr(d) == v
    ensures Result<T, E>.Error(e).UnwrapOr(d) == d
  {
  }

  /** `UnwrapOrElse` returns the payload of `Ok` and the fallback's answer on `Error`. */
  lemma UnwrapOrElseCases<T, E>(v: T, e: E, fallback: E -> T)
    ensures Result<T, E>.Ok(v).UnwrapOrElse(fallback) == v
    ensures Result<T, E>.Error(e).UnwrapOrElse(fallback) == fallback(e)
  {
  }

  /** `UnwrapOr` is `UnwrapOrElse` with a fallback that ignores the error. */
  lemma UnwrapOrIsConstantFallback<T, E>(r: Result<T, E>, d: T)
    ensures r.UnwrapOr(d) == r.UnwrapOrElse(_ => d)
  {
  }

  // ----- Success-side transforms -----

  /** `Map` transforms a success and leaves an error untouched. */
  lemma MapCases<T, E, U>(v: T, e: E, f: T -> U)
    ensures Result<T, E>.Ok(v).Map(f) == Ok(f(v))
    ensures Result<T, E>.Error(e).Map(f) == Error(e)
  {
  }

  /** Functor identity: mapping the identity changes nothing. */
  lemma MapIdentity<T, E>(r: Result<T, E>)
    ensures r.Map(x => x) == r
  {
  }

  /** Functor composition: two maps are one map of the composition. */
  lemma MapComposition<T, E, U, V>(r: Result<T, E>, f: T -> U, g: U -> V)
    ensures r.Map(f).Map(g) == r.Map(x => g(f(x)))
  {
  }

  /** `MapOr` and `MapOrElse` on each variant. */
  lemma MapOrCases<T, E, U>(v: T, e: E, d: U, onError: E -> U, f: T -> U)
    ensures Result<T, E>.Ok(v).MapOr(d, f) == f(v)
    ensures Result<T, E>.Error(e).MapOr(d, f) == d
    ensures Result<T, E>.Ok(v).MapOrElse(onError, f) == f(v)
    ensures Result<T, E>.Error(e).MapOrElse(onError, f) == onError(e)
  {
  }

  /** `Map` is `AndThen` with a continuation that always succeeds. */
  lemma MapIsAndThenOk<T, E, U>(r: Result<T, E>, f: T -> U)
    ensures r.Map(f) == r.AndThen(x => Ok(f(x)))
  {
  }

  // ----- Error-side transform -----

  /** `MapError` leaves a success untouched and transforms an error. */
  lemma MapErrorCases<T, E, F>(v: T, e: E, f: E -> F)
    ensures Result<T, E>.Ok(v).MapError(f) == Ok(v)
    ensures Result<T, E>.Error(e).MapError(f) == Error(f(e))
  {
  }

  /** Mapping the identity over the error changes nothing. */
  lemma MapErrorIdentity<T, E>(r: Result<T, E>)
    ensures r.MapError(x => x) == r
  {
  }

  /** Two error maps are one error map of the composition. */
  lemma MapErrorComposition<T, E, F, G>(r: Result<T, E>, f: E -> F, g: F -> G)
    ensures r.MapError(f).MapError(g) == r.MapError(x => g(f(x)))
  {
  }

  /** The two sides are independent: mapping the success and mapping the error commute. */
  lemma MapAndMapErrorCommute<T, E, U, F>(r: Result<T, E>, f: T -> U, g: E -> F)
    ensures r.Map(f).MapError(g) == r.MapError(g).Map(f)
  {
  }

  // ----- Sequencing -----

  /** `And` short-circuits on an error and otherwise yields its argument. */
  lemma AndCases<T, E, U>(v: T, e: E, next: Result<U, E>)
    ensures Result<T, E>.Error(e).And(next) == Error(e)
    ensures Result<T, E>.Ok(v).And(next) == next
  {
  }

  /** `AndThen` continues on a success and short-circuits on an error. */
  lemma AndThenCases<T, E, U>(v: T, e: E, f: T -> Result<U, E>)
    ensures Result<T, E>.Ok(v).AndThen(f) == f(v)
    ensures Result<T, E>.Error(e).AndThen(f) == Error(e)
  {
  }

  /** Monad right identity: continuing with `Ok` changes nothing. */
  lemma AndThenRightIdentity<T, E>(r: Result<T, E>)
    ensures r.AndThen(x => Ok(x)) == r
  {
  }

  /** Monad associativity of `AndThen`. */
  lemma AndThenAssociative<T, E, U, V>(r: Result<T, E>, f: T -> Result<U, E>, g: U -> Result<V, E>)
    ensures r.AndThen(f).AndThen(g) == r.AndThen(x => f(x).AndThen(g))
  {
  }

  // ----- Recovery -----

  /** `Or` keeps a success and otherwise yields its argument. */
  lemma OrCases<T, E, F>(v: T, e: E, alternative: Result<T, F>)
    ensures Result<T, E>.Ok(v).Or(alternative) == Ok(v)
    ensures Result<T, E>.Error(e).Or(alternative) == alternative
  {
  }

  /** `OrElse` keeps a success and recovers from an error. */
  lemma OrElseCases<T, E, F>(v: T, e: E, f: E -> Result<T, F>)
    ensures Result<T, E>.Ok(v).OrElse(f) == Ok(v)
    ensures Result<T, E>.Error(e).OrElse(f) == f(e)
  {
  }

  /** Recovering with `Error` changes nothing. */
  lemma OrElseRightIdentity<T, E>(r: Result<T, E>)
    ensures r.OrElse(x => Error(x)) == r
  {
  }

  /** Associativity of `OrElse`. */
  lemma OrElseAssociative<T, E, F, G>(r: Result<T, E>, f: E -> Result<T, F>, g: F -> Result<T, G>)
    ensures r.OrElse(f).OrElse(g) == r.OrElse(x => f(x).OrElse(g))
  {
  }

  // ----- Exception adapter -----

  /** Capturing the run of `Unwrap` gives back the success, or the
      `InvalidOperationException` as the error payload. */
  lemma CatchUnwrap<T, E>(r: Result<T, E>)
    ensures r.IsOk() ==> Catch(r.Unwrap()) == Ok(r.value)
    ensures r.IsError() ==> Catch(r.Unwrap()) == Error(InvalidOperationException(UnwrapErrorMessage))
  {
  }
}
