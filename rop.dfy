/** The railway-oriented Result of backend/src/domain/rop/result.ts: a tagged value that is
    either ok (carrying a value) or not ok (carrying an error), and the four combinators the
    use cases thread their stages through. */
module Rop {

  datatype Result<+T, +E> = Ok(value: T) | Err(error: E)

  /** Applies `fn` to an ok value; an error passes through as it is. */
  function Map<T, E, U>(result: Result<T, E>, fn: T -> U): (r: Result<U, E>)
    ensures r.Ok? <==> result.Ok?
    ensures result.Err? ==> r == Err(result.error)
  {
    if result.Ok? then Ok(fn(result.value)) else Err(result.error)
  }

  /** Applies `fn` to an error; an ok value passes through as it is. */
  function MapError<T, E, U>(result: Result<T, E>, fn: E -> U): (r: Result<T, U>)
    ensures r.Ok? <==> result.Ok?
    ensures result.Ok? ==> r == Ok(result.value)
  {
    if result.Ok? then Ok(result.value) else Err(fn(result.error))
  }

  /** Runs the next stage `fn` on an ok value; an error short-circuits it. */
  function AndThen<T, E, U>(result: Result<T, E>, fn: T -> Result<U, E>): (r: Result<U, E>)
    ensures result.Err? ==> r == Err(result.error)
  {
    if result.Ok? then fn(result.value) else Err(result.error)
  }

  /** The asynchronous form: the same choice, the continuation's promise aside. */
  function AndThenAsync<T, E, U>(result: Result<T, E>, fn: T -> Result<U, E>): (r: Result<U, E>)
    ensures result.Err? ==> r == Err(result.error)
  {
    if result.Ok? then fn(result.value) else Err(result.error)
  }

  // Laws of the combinators.

  lemma MapOk<T, E, U>(v: T, fn: T -> U)
    ensures Map<T, E, U>(Ok(v), fn) == Ok(fn(v))
  {
  }

  lemma MapErrorErr<T, E, U>(e: E, fn: E -> U)
    ensures MapError<T, E, U>(Err(e), fn) == Err(fn(e))
  {
  }

  lemma AndThenLeftIdentity<T, E, U>(v: T, fn: T -> Result<U, E>)
    ensures AndThen(Ok(v), fn) == fn(v)
  {
  }

  /** The continuation is never consulted on an error: any two give the same result. */
  lemma AndThenShortCircuit<T, E, U>(e: E, f: T -> Result<U, E>, g: T -> Result<U, E>)
    ensures AndThen(Err(e), f) == AndThen(Err(e), g) == Err(e)
  {
  }

  lemma AndThenRightIdentity<T, E>(result: Result<T, E>)
    ensures AndThen(result, v => Ok(v)) == result
  {
  }

  lemma MapIsAndThenOk<T, E, U>(result: Result<T, E>, fn: T -> U)
    ensures Map(result, fn) == AndThen(result, v => Ok(fn(v)))
  {
  }

  lemma AndThenAssociative<T, E, U, V>(result: Result<T, E>, f: T -> Result<U, E>, g: U -> Result<V, E>)
    ensures AndThen(AndThen(result, f), g) == AndThen(result, v => AndThen(f(v), g))
  {
  }

  lemma AndThenAsyncIsAndThen<T, E, U>(result: Result<T, E>, fn: T -> Result<U, E>)
    ensures AndThenAsync(result, fn) == AndThen(result, fn)
  {
  }
}
