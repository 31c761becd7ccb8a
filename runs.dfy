/** Runs of a loop that visits items in order and collects an output for
    some of them, where each output may depend on a state that the earlier
    outputs have advanced (a folder that fills up as files are moved in). */
module Runs {

  /** The state after the outputs `rs`, starting from `s`. */
  function Fold<S, R>(next: (S, R) -> S, s: S, rs: seq<R>): S {
    if rs == [] then s else next(Fold(next, s, rs[..|rs| - 1]), rs[|rs| - 1])
  }

  /** The items of `xs` that `p` selects, in order. */
  function Select<E>(p: E -> bool, xs: seq<E>): (r: seq<E>)
    ensures |r| <= |xs|
  {
    if xs == [] then []
    else Select(p, xs[..|xs| - 1]) + (if p(xs[|xs| - 1]) then [xs[|xs| - 1]] else [])
  }

  /** The selection holds exactly the items `p` accepts. */
  lemma {:induction false} SelectExactly<E(!new)>(p: E -> bool, xs: seq<E>)
    ensures forall e :: e in Select(p, xs) <==> e in xs && p(e)
  {
    if xs != [] {
      SelectExactly(p, xs[..|xs| - 1]);
      assert xs == xs[..|xs| - 1] + [xs[|xs| - 1]];
    }
  }

  /** One more item joins the selection exactly when `p` accepts it. */
  lemma SelectStep<E>(p: E -> bool, xs: seq<E>, e: E)
    ensures Select(p, xs + [e]) == Select(p, xs) + (if p(e) then [e] else [])
  {
    assert (xs + [e])[..|xs|] == xs;
  }

  /** `rs` is what the loop collects from `xs` when the state starts as `s`:
      one output for each item `p` selects, in order, each related by `ok`
      to its item and to the state the outputs before it have left. */
  ghost predicate Collected<S, E, R>(p: E -> bool, ok: (S, E, R) -> bool, next: (S, R) -> S,
                                     s: S, xs: seq<E>, rs: seq<R>)
  {
    if xs == [] then rs == []
    else if p(xs[|xs| - 1]) then
      && rs != []
      && Collected(p, ok, next, s, xs[..|xs| - 1], rs[..|rs| - 1])
      && ok(Fold(next, s, rs[..|rs| - 1]), xs[|xs| - 1], rs[|rs| - 1])
    else Collected(p, ok, next, s, xs[..|xs| - 1], rs)
  }

  /** Extending a prefix by one element. */
  lemma PrefixStep<E>(xs: seq<E>, j: nat)
    requires j < |xs|
    ensures xs[..j + 1] == xs[..j] + [xs[j]]
  {
  }

  /** A whole sequence is its own longest prefix. */
  lemma PrefixAll<E>(xs: seq<E>)
    ensures xs[..|xs|] == xs
  {
  }

  /** A log that already ends in `rs` gains the rest of `rs'` when `rs'` extends `rs`. */
  lemma AppendRest<R>(log: seq<R>, rs: seq<R>, rs': seq<R>)
    requires |rs| <= |rs'| && rs'[..|rs|] == rs
    ensures log + rs + rs'[|rs|..] == log + rs'
  {
    assert rs' == rs + rs'[|rs|..];
  }

  /** An item that is not selected adds no output. */
  lemma CollectedSkip<S, E, R>(p: E -> bool, ok: (S, E, R) -> bool, next: (S, R) -> S,
                               s: S, xs: seq<E>, rs: seq<R>, e: E)
    requires Collected(p, ok, next, s, xs, rs) && !p(e)
    ensures Collected(p, ok, next, s, xs + [e], rs)
  {
    assert (xs + [e])[..|xs|] == xs;
  }

  /** A selected item adds one output, related to the current state, and
      the state advances by that output. */
  lemma CollectedTake<S, E, R>(p: E -> bool, ok: (S, E, R) -> bool, next: (S, R) -> S,
                               s: S, xs: seq<E>, rs: seq<R>, e: E, rs': seq<R>)
    requires Collected(p, ok, next, s, xs, rs) && p(e)
    requires |rs'| == |rs| + 1 && rs'[..|rs|] == rs
    requires ok(Fold(next, s, rs), e, rs'[|rs|])
    ensures Collected(p, ok, next, s, xs + [e], rs')
    ensures Fold(next, s, rs') == next(Fold(next, s, rs), rs'[|rs|])
  {
    assert (xs + [e])[..|xs|] == xs;
  }

  /** The outputs pair up with the selected items: the `k`-th output belongs
      to the `k`-th selected item and to the state after the first `k` outputs. */
  lemma {:induction false} CollectedMatches<S, E(!new), R>(p: E -> bool, ok: (S, E, R) -> bool, next: (S, R) -> S,
                                                           s: S, xs: seq<E>, rs: seq<R>)
    requires Collected(p, ok, next, s, xs, rs)
    ensures |rs| == |Select(p, xs)|
    ensures forall k :: 0 <= k < |rs| ==> ok(Fold(next, s, rs[..k]), Select(p, xs)[k], rs[k])
  {
    if xs != [] {
      var init := xs[..|xs| - 1];
      if p(xs[|xs| - 1]) {
        var before := rs[..|rs| - 1];
        CollectedMatches(p, ok, next, s, init, before);
        forall k | 0 <= k < |rs|
          ensures ok(Fold(next, s, rs[..k]), Select(p, xs)[k], rs[k])
        {
          if k < |before| {
            assert rs[..k] == before[..k] && rs[k] == before[k];
            assert Select(p, xs)[k] == Select(p, init)[k];
          } else {
            assert rs[..k] == before;
          }
        }
      } else {
        CollectedMatches(p, ok, next, s, init, rs);
      }
    }
  }

  /** When `ok` allows at most one output per item and state, the loop's
      outputs are determined by the items and the initial state. */
  lemma {:induction false} CollectedUnique<S, E, R>(p: E -> bool, ok: (S, E, R) -> bool, next: (S, R) -> S,
                                                    s: S, xs: seq<E>, r1: seq<R>, r2: seq<R>)
    requires forall t, e, a, b :: ok(t, e, a) && ok(t, e, b) ==> a == b
    requires Collected(p, ok, next, s, xs, r1) && Collected(p, ok, next, s, xs, r2)
    ensures r1 == r2
  {
    if xs != [] {
      var init := xs[..|xs| - 1];
      if p(xs[|xs| - 1]) {
        var b1, b2 := r1[..|r1| - 1], r2[..|r2| - 1];
        CollectedUnique(p, ok, next, s, init, b1, b2);
        assert r1 == b1 + [r1[|r1| - 1]] && r2 == b2 + [r2[|r2| - 1]];
      } else {
        CollectedUnique(p, ok, next, s, init, r1, r2);
      }
    }
  }
}
