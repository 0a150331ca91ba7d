/**
 * Failure-carrying values used in place of Go's `(value, error)` and `(value, ok)` returns,
 * and the slice a loop fills index by index.
 */
module Wrappers {

  datatype Option<+T> = None | Some(value: T)

  datatype Result<+R, +E> = Success(value: R) | Failure(error: E)

  /** An `error` return that carries no value: `nil` is `Pass`. */
  datatype Outcome<+E> = Pass | Fail(error: E)

  /** The first `n` values of `f`, in order. */
  function Tabulate<T>(f: nat -> T, n: nat): (s: seq<T>)
    ensures |s| == n
  {
    if n == 0 then [] else Tabulate(f, n - 1) + [f(n - 1)]
  }

  /** The value at index `k` is the one `f` gives for `k`. */
  lemma {:induction false} TabulateAt<T>(f: nat -> T, n: nat, k: nat)
    requires k < n
    ensures Tabulate(f, n)[k] == f(k)
  {
    if k < n - 1 {
      TabulateAt(f, n - 1, k);
    }
  }
}
