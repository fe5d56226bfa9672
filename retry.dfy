/**
 * The bounded retry helper `retry(fn, retries = 3, delay = 2000)`.
 *
 * `fn` is modelled by the outcome of each of its calls: `fn(i)` is what the
 * i-th call (counting from 0) resolves to or throws.  The pause of `delay`
 * milliseconds between attempts is not waited; the model adds up the
 * milliseconds that would be spent pausing.
 */
module Retry {

  /** What one call of `fn` does: resolve with a value or throw an error. */
  datatype Attempt<+T, +E> = Success(value: T) | Failure(error: E)

  /**
   * How the promise returned by `retry` settles: with the value of the first
   * successful call, by rethrowing the last error, or, when the loop body
   * never runs (`retries <= 0`), with `undefined`.
   */
  datatype RetryResult<+T, +E> = Returned(value: T) | Threw(error: E) | Undefined

  /** A settled retry together with the number of calls made to `fn`. */
  datatype Settled<+T, +E> = Settled(result: RetryResult<T, E>, calls: nat)

  /** The default number of attempts and the default pause between them. */
  const DefaultRetries := 3
  const DefaultDelay := 2000

  /** How `retry` settles when the loop counter starts at `i`. */
  function RetryFrom<T, E>(fn: nat -> Attempt<T, E>, i: nat, retries: int): (s: Settled<T, E>)
    decreases retries - i
  {
    if i >= retries then Settled(Undefined, i)
    else match fn(i)
      case Success(v) => Settled(Returned(v), i + 1)
      case Failure(e) =>
        if i == retries - 1 then Settled(Threw(e), i + 1) else RetryFrom(fn, i + 1, retries)
  }

  /** How `retry(fn, retries)` settles. */
  function RetrySpec<T, E>(fn: nat -> Attempt<T, E>, retries: int): (s: Settled<T, E>)
  {
    RetryFrom(fn, 0, retries)
  }

  /**
   * The loop of `retry`: call `fn`, return its value on success, rethrow on
   * the last attempt, otherwise pause for `delay` milliseconds and try
   * again.  `waited` is the total pause: one `delay` between consecutive
   * attempts, none after the last.
   */
  method RunRetry<T, E>(fn: nat -> Attempt<T, E>, retries: int, delay: nat)
    returns (r: RetryResult<T, E>, calls: nat, waited: nat)
    ensures Settled(r, calls) == RetrySpec(fn, retries)
    ensures waited == if calls == 0 then 0 else (calls - 1) * delay
  {
    var i: nat := 0;
    waited := 0;
    while i < retries
      invariant i == 0 || i < retries
      invariant waited == i * delay
      invariant RetryFrom(fn, i, retries) == RetrySpec(fn, retries)
      decreases retries - i
    {
      match fn(i)
      case Success(v) =>
        return Returned(v), i + 1, waited;
      case Failure(e) =>
        if i == retries - 1 {
          return Threw(e), i + 1, waited;
        }
        waited := waited + delay;
        i := i + 1;
    }
    return Undefined, 0, waited;
  }

  /**
   * What `retry` promises, for the loop counter starting at `i`: it makes at
   * most `retries - i` calls, stops at the first success and returns its
   * value, and rethrows the error of the last attempt only when every
   * attempt failed; earlier errors are swallowed.
   */
  lemma {:induction false} RetryFromCharacterized<T, E>(fn: nat -> Attempt<T, E>, i: nat, retries: int)
    requires i < retries
    ensures var s := RetryFrom(fn, i, retries);
      && i < s.calls <= retries
      && (forall j :: i <= j < s.calls - 1 ==> fn(j).Failure?)
      && (s.result.Returned? <==> fn(s.calls - 1).Success?)
      && (s.result.Returned? ==> s.result.value == fn(s.calls - 1).value)
      && (s.result.Threw? <==> !s.result.Returned?)
      && (s.result.Threw? ==> s.calls == retries && s.result.error == fn(retries - 1).error)
    decreases retries - i
  {
    if fn(i).Failure? && i != retries - 1 {
      RetryFromCharacterized(fn, i + 1, retries);
    }
  }

  /** `retry(fn, retries)` calls `fn` at most `retries` times and never when `retries <= 0`. */
  lemma RetryCharacterized<T, E>(fn: nat -> Attempt<T, E>, retries: int)
    ensures var s := RetrySpec(fn, retries);
      && (retries <= 0 <==> s.calls == 0)
      && (retries <= 0 <==> s.result.Undefined?)
      && (retries > 0 ==> s.calls <= retries)
      && (forall j :: 0 <= j < s.calls - 1 ==> fn(j).Failure?)
      && (s.result.Returned? ==> fn(s.calls - 1) == Success(s.result.value))
      && (s.result.Threw? ==> s.calls == retries && fn(retries - 1) == Failure(s.result.error))
  {
    if retries > 0 {
      RetryFromCharacterized(fn, 0, retries);
    }
  }

  /** When every attempt fails, `retry` makes all `retries` calls and rethrows the last error. */
  lemma {:induction false} AllFail<T, E>(fn: nat -> Attempt<T, E>, i: nat, retries: int)
    requires i < retries
    requires forall j :: i <= j < retries ==> fn(j).Failure?
    ensures RetryFrom(fn, i, retries) == Settled(Threw(fn(retries - 1).error), retries)
    decreases retries - i
  {
    if i != retries - 1 {
      AllFail(fn, i + 1, retries);
    }
  }

  /** A first call that succeeds is the only call, and its value is returned. */
  lemma FirstAttemptSucceeds<T, E>(fn: nat -> Attempt<T, E>, retries: int)
    requires retries > 0 && fn(0).Success?
    ensures RetrySpec(fn, retries) == Settled(Returned(fn(0).value), 1)
  {
  }
}
