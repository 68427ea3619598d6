/** Chains of combinator calls. A caller sequences fallible steps by calling
    `AndThen` once per step, and tries recovery handlers by calling `OrElse`
    once per handler; the lemmas here state what short-circuiting means for
    a whole chain of such calls, however long. */
module Pipeline {
  import opened ResultNet

  /** `r.AndThen(steps[0]).AndThen(steps[1])...`, one call per step, in order. */
  function AndThenAll<T, E>(r: Result<T, E>, steps: seq<T -> Result<T, E>>): Result<T, E>
    decreases |steps|
  {
    if steps == [] then r else AndThenAll(r.AndThen(steps[0]), steps[1..])
  }

  /** `r.OrElse(handlers[0]).OrElse(handlers[1])...`, one call per handler, in order. */
  function OrElseAll<T, E>(r: Result<T, E>, handlers: seq<E -> Result<T, E>>): Result<T, E>
    decreases |handlers|
  {
    if handlers == [] then r else OrElseAll(r.OrElse(handlers[0]), handlers[1..])
  }

  /** An error entering a chain of `AndThen` calls comes out unchanged: no step runs. */
  lemma {:induction false} ErrorSkipsAndThenChain<T, E>(e: E, steps: seq<T -> Result<T, E>>)
    ensures AndThenAll(Error(e), steps) == Error(e)
    decreases |steps|
  {
    if steps != [] {
      ErrorSkipsAndThenChain(e, steps[1..]);
    }
  }

  /** A chain of `AndThen` calls ends in a success only if it started from one. */
  lemma {:induction false} OkAndThenChainStartsOk<T, E>(r: Result<T, E>, steps: seq<T -> Result<T, E>>)
    ensures AndThenAll(r, steps).IsOk() ==> r.IsOk()
  {
    if r.IsError() {
      ErrorSkipsAndThenChain(r.error, steps);
    }
  }

  /** A chain of `AndThen` calls may be cut anywhere: running the first part
      and then the rest is running the whole. */
  lemma {:induction false} AndThenChainSplit<T, E>(r: Result<T, E>, first: seq<T -> Result<T, E>>, rest: seq<T -> Result<T, E>>)
    ensures AndThenAll(r, first + rest) == AndThenAll(AndThenAll(r, first), rest)
    decreases |first|
  {
    if first != [] {
      assert (first + rest)[1..] == first[1..] + rest;
      AndThenChainSplit(r.AndThen(first[0]), first[1..], rest);
    } else {
      assert first + rest == rest;
    }
  }

  /** Generalised associativity: a chain of `AndThen` calls on a result is one
      `AndThen` whose continuation runs the whole chain on the payload. */
  lemma {:induction false} AndThenChainIsOneBind<T, E>(r: Result<T, E>, steps: seq<T -> Result<T, E>>)
    ensures AndThenAll(r, steps) == r.AndThen(x => AndThenAll(Ok(x), steps))
  {
    if r.IsError() {
      ErrorSkipsAndThenChain(r.error, steps);
    }
  }

  /** A success entering a chain of `OrElse` calls comes out unchanged: no handler runs. */
  lemma {:induction false} OkSkipsOrElseChain<T, E>(v: T, handlers: seq<E -> Result<T, E>>)
    ensures OrElseAll(Ok(v), handlers) == Ok(v)
    decreases |handlers|
  {
    if handlers != [] {
      OkSkipsOrElseChain(v, handlers[1..]);
    }
  }

  /** A chain of `OrElse` calls ends in an error only if it started from one. */
  lemma {:induction false} ErrorOrElseChainStartsError<T, E>(r: Result<T, E>, handlers: seq<E -> Result<T, E>>)
    ensures OrElseAll(r, handlers).IsError() ==> r.IsError()
  {
    if r.IsOk() {
      OkSkipsOrElseChain(r.value, handlers);
    }
  }

  /** A chain of `OrElse` calls may be cut anywhere. */
  lemma {:induction false} OrElseChainSplit<T, E>(r: Result<T, E>, first: seq<E -> Result<T, E>>, rest: seq<E -> Result<T, E>>)
    ensures OrElseAll(r, first + rest) == OrElseAll(OrElseAll(r, first), rest)
    decreases |first|
  {
    if first != [] {
      assert (first + rest)[1..] == first[1..] + rest;
      OrElseChainSplit(r.OrElse(first[0]), first[1..], rest);
    } else {
      assert first + rest == rest;
    }
  }

  /** A chain of `OrElse` calls on a result is one `OrElse` whose handler runs
      the whole chain on the error payload. */
  lemma {:induction false} OrElseChainIsOneRecovery<T, E>(r: Result<T, E>, handlers: seq<E -> Result<T, E>>)
    ensures OrElseAll(r, handlers) == r.OrElse(x => OrElseAll(Error(x), handlers))
  {
    if r.IsOk() {
      OkSkipsOrElseChain(r.value, handlers);
    }
  }
}
