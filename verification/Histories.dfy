/** Histories: every state a store passes through, call by call.  Main theorems speak of the states
    `h[i]` of a history, so that they can relate any two moments of it. */
module Histories {
  import opened StoreSpec
  import opened StoreInvariant
  import opened StoreSafety
  import opened Frames

  /** `h[i]` is the state before the call `calls[i]`, and `h[|calls|]` the last one. */
  ghost predicate IsHistory(h: seq<Store>, calls: seq<Call>) {
    && |h| == |calls| + 1 && h[0] == EMPTY
    && forall i :: 0 <= i < |calls| ==> WellFormed(calls[i]) && h[i + 1] == Apply(h[i], calls[i])
  }

  lemma {:induction false} HistoryIsRun(h: seq<Store>, calls: seq<Call>, n: nat)
    requires IsHistory(h, calls) && n <= |calls|
    ensures h[n] == Run(EMPTY, calls[..n]) && AllWellFormed(calls[..n])
  {
    hide Apply, WellFormed;
    if n > 0 {
      HistoryIsRun(h, calls, n - 1);
      assert calls[..n][..n - 1] == calls[..n - 1];
    }
  }

  /** Every run has its history. */
  lemma {:induction false} RunHasHistory(calls: seq<Call>) returns (h: seq<Store>)
    requires AllWellFormed(calls)
    ensures IsHistory(h, calls) && h[|calls|] == Run(EMPTY, calls)
  {
    hide Apply, WellFormed;
    if |calls| == 0 {
      h := [EMPTY];
    } else {
      h := RunHasHistory(calls[..|calls| - 1]);
      h := h + [Run(EMPTY, calls)];
    }
  }

  lemma HistoryKeepsInv(h: seq<Store>, calls: seq<Call>, n: nat)
    requires IsHistory(h, calls) && n <= |calls|
    ensures Inv(h[n])
  {
    hide Inv, Run, WellFormed, Apply;
    HistoryIsRun(h, calls, n);
    ReachableKeepsInv(calls[..n]);
  }

  lemma HistoryGrows(h: seq<Store>, calls: seq<Call>, i: nat, j: nat)
    requires IsHistory(h, calls) && i <= j <= |calls|
    ensures Grows(h[i], h[j])
  {
    hide Run, WellFormed, Apply, Grows;
    HistoryIsRun(h, calls, i);
    HistoryIsRun(h, calls, j);
    assert calls[..j][..i] == calls[..i];
    RunGrows(calls[..j], i);
  }
}
