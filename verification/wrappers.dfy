/** Failure-compatible wrappers shared by every module of the model. */
module Wrappers {

  /** A value that may be absent: Python's `None` or a missing key. */
  datatype Option<+T> = None | Some(value: T) {

    /** The wrapped value, or `default` when absent (Python's `x if x is not None else default`). */
    function GetOr(default: T): T {
      match this
      case Some(v) => v
      case None => default
    }
  }

  /** A computation that either produced a value or raised an exception with a message. */
  datatype Result<+T, +E> = Success(value: T) | Failure(error: E)

  /** A result together with the remote calls issued while computing it, in order. */
  datatype Traced<+T, +C> = Traced(value: T, calls: seq<C>)

  /** Python truthiness of an optional string: neither `None` nor `""`. */
  predicate Truthy(s: Option<string>) {
    s.Some? && s.value != ""
  }

  /** `d.get(key)` on a dictionary of strings. */
  function Get(d: map<string, string>, key: string): Option<string> {
    if key in d then Some(d[key]) else None
  }

  /** `d.get(key, default)` on a dictionary of strings. */
  function GetOrDefault(d: map<string, string>, key: string, default: string): string {
    if key in d then d[key] else default
  }

  /** `[x] * n`: the sequence holding `x` exactly `n` times. */
  function Repeat<T>(x: T, n: nat): (r: seq<T>)
    ensures |r| == n
    ensures forall i :: 0 <= i < n ==> r[i] == x
  {
    if n == 0 then [] else Repeat(x, n - 1) + [x]
  }
}
