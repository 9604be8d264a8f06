/** What it means to be filtered, apart from any way of doing it. */
module Filters {

  ghost predicate Among(at: seq<nat>, i: nat) {
    exists k :: 0 <= k < |at| && at[k] == i
  }

  /** `picked` are the elements of `xs` that `keep` accepts: all of them, each once, in their order; `at` says where. */
  ghost predicate Picks<T(!new)>(xs: seq<T>, at: seq<nat>, picked: seq<T>, keep: T -> bool) {
    && |at| == |picked|
    && (forall i, k :: 0 <= i < k < |at| ==> at[i] < at[k])
    && (forall k :: 0 <= k < |at| ==> at[k] < |xs| && picked[k] == xs[at[k]])
    && (forall i :: 0 <= i < |xs| ==> (keep(xs[i]) <==> Among(at, i)))
  }

  ghost predicate Filtered<T(!new)>(xs: seq<T>, picked: seq<T>, keep: T -> bool) {
    exists at :: Picks(xs, at, picked, keep)
  }

  lemma {:induction false} PicksOneMore<T(!new)>(xs: seq<T>, x: T, at: seq<nat>, picked: seq<T>, keep: T -> bool)
    requires Picks(xs, at, picked, keep) && keep(x)
    ensures Picks(xs + [x], at + [|xs|], picked + [x], keep)
  {
    forall i | 0 <= i < |xs + [x]|
      ensures keep((xs + [x])[i]) <==> Among(at + [|xs|], i)
    {
      if i < |xs| {
        if k :| 0 <= k < |at| && at[k] == i { assert (at + [|xs|])[k] == i; }
      } else {
        assert (at + [|xs|])[|at|] == i;
      }
    }
  }

  lemma {:induction false} PicksNoMore<T(!new)>(xs: seq<T>, x: T, at: seq<nat>, picked: seq<T>, keep: T -> bool)
    requires Picks(xs, at, picked, keep) && !keep(x)
    ensures Picks(xs + [x], at, picked, keep)
  {
    forall i | 0 <= i < |xs + [x]|
      ensures keep((xs + [x])[i]) <==> Among(at, i)
    {
    }
  }

  lemma {:induction false} FilteredNothing<T(!new)>(keep: T -> bool)
    ensures Filtered([], [], keep)
  {
    assert Picks([], [], [], keep);
  }

  /** One more element at the end: kept or not. */
  lemma {:induction false} FilteredSnoc<T(!new)>(xs: seq<T>, x: T, picked: seq<T>, keep: T -> bool)
    requires Filtered(xs, picked, keep)
    ensures Filtered(xs + [x], picked + (if keep(x) then [x] else []), keep)
  {
    var at :| Picks(xs, at, picked, keep);
    if keep(x) {
      PicksOneMore(xs, x, at, picked, keep);
    } else {
      PicksNoMore(xs, x, at, picked, keep);
      assert picked + [] == picked;
    }
  }
}
