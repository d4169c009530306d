/** Shared value types, and the two shapes every bounded log in the repository has:
    the last `n` elements in arrival order, and the last `n` newest first. */
module Basics {

  datatype Option<+T> = None | Some(value: T)

  datatype Result<+T, +E> = Ok(value: T) | Err(error: E)

  /** The last `n` elements of `s`, oldest first (all of `s` when it is shorter). */
  function LastN<T>(s: seq<T>, n: nat): seq<T> {
    if |s| <= n then s else s[|s| - n..]
  }

  function Reversed<T>(s: seq<T>): (r: seq<T>)
    ensures |r| == |s|
    ensures forall i :: 0 <= i < |s| ==> r[i] == s[|s| - 1 - i]
  {
    seq(|s|, i requires 0 <= i < |s| => s[|s| - 1 - i])
  }

  /** The last `n` elements of `s`, newest first. */
  function Newest<T>(s: seq<T>, n: nat): seq<T> {
    Reversed(LastN(s, n))
  }

  /** Cutting an array down to `n` elements, as assigning to its length does. */
  function Truncated<T>(s: seq<T>, n: nat): seq<T> {
    if |s| <= n then s else s[..n]
  }

  lemma LastNPush<T>(s: seq<T>, x: T, n: nat)
    ensures LastN(s + [x], n) == LastN(LastN(s, n) + [x], n)
  {
    if |s| > n {
      assert (s + [x])[|s| + 1 - n..] == (LastN(s, n) + [x])[1..];
    }
  }

  /** Pushing at the front and cutting the length keeps exactly the newest `n`. */
  lemma NewestPush<T>(s: seq<T>, x: T, n: nat)
    requires n > 0
    ensures Newest(s + [x], n) == Truncated([x] + Newest(s, n), n)
  {
    LastNPush(s, x, n);
    assert Newest(s + [x], n) == Truncated([x] + Newest(s, n), n);
  }
}
