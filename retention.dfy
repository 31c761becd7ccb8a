/** Bounded logs: both tools persist only the newest entries of a list. */
module Retention {

  /** Python's `xs[-n:]` for `n >= 1`: the last `n` elements, or all of them
      when there are fewer. */
  function KeepLast<T>(xs: seq<T>, n: nat): (r: seq<T>)
    requires n >= 1
    ensures |r| == if |xs| < n then |xs| else n
    ensures xs == xs[..|xs| - |r|] + r
  {
    if |xs| <= n then xs else xs[|xs| - n..]
  }

  /** Once at least `n` new entries follow, nothing older survives. */
  lemma KeepLastForgetsOlder<T>(older: seq<T>, newer: seq<T>, n: nat)
    requires n >= 1 && |newer| >= n
    ensures KeepLast(older + newer, n) == KeepLast(newer, n)
  {
    var all := older + newer;
    assert all[|all| - n..] == newer[|newer| - n..];
  }

  /** Truncating twice to the same bound is truncating once. */
  lemma KeepLastIdempotent<T>(xs: seq<T>, n: nat)
    requires n >= 1
    ensures KeepLast(KeepLast(xs, n), n) == KeepLast(xs, n)
  {
  }

  /** A short enough list is kept whole, in order. */
  lemma KeepLastShort<T>(xs: seq<T>, n: nat)
    requires n >= 1 && |xs| <= n
    ensures KeepLast(xs, n) == xs
  {
  }
}
