/** Failure-compatible wrappers shared by the whole model. A JavaScript `undefined`
    becomes `None`; a thrown `Error` (or a rejected promise) becomes `Err` carrying
    the error's message. */
module Wrappers {

  datatype Option<+T> = None | Some(value: T) {
    function GetOr(default: T): T {
      match this
      case Some(v) => v
      case None => default
    }
  }

  datatype Result<+T> = Ok(value: T) | Err(message: string) {
    predicate IsFailure() { Err? }
  }
}

/** Bounded windows over sequences: `Array.prototype.slice(0, n)`. */
module Seqs {

  /** `s.slice(0, n)`: the first `n` elements, or all of them when there are fewer. */
  function Take<T>(s: seq<T>, n: nat): (r: seq<T>)
    ensures |r| == if |s| <= n then |s| else n
    ensures r <= s
  {
    if |s| <= n then s else s[..n]
  }

  /** No two elements of `s` have the same key. */
  ghost predicate DistinctBy<T, K>(s: seq<T>, key: T -> K) {
    forall i, j :: 0 <= i < j < |s| ==> key(s[i]) != key(s[j])
  }

  /** `[x, ...s.slice(0, cap - 1)]`: `x` in front, then the oldest entries beyond
      the capacity dropped. */
  function PrependBounded<T>(x: T, s: seq<T>, cap: nat): (r: seq<T>)
    requires cap >= 1
    ensures |r| >= 1 && r[0] == x
    ensures r[1..] <= s
    ensures |r| == if |s| + 1 <= cap then |s| + 1 else cap
  {
    [x] + Take(s, cap - 1)
  }
}
