/** What holds of every run of the store, whatever its callers do and however they interleave. */
module StoreTheorems {
  import opened Records
  import opened StoreSpec
  import opened StoreInvariant
  import opened Frames
  import opened Histories

  // ---------------------------------------------------------------- effects

  /** No two receipts of a run carry the same effect, and each effect of a receipt is owned by the
      receipt's packet. */
  lemma EffectSettlesOnce(h: seq<Store>, calls: seq<Call>, n: nat, a: ReceiptId, b: ReceiptId, effect: string)
    requires IsHistory(h, calls) && n <= |calls|
    requires var w := h[n].work;
      && a in w.receipts && w.receipts[a].body.effectId == Some(effect)
      && b in w.receipts && w.receipts[b].body.effectId == Some(effect)
    ensures a == b
    ensures var w := h[n].work;
      effect in w.owner && w.owner[effect] == w.receipts[a].body.packetId
  {
    HistoryKeepsInv(h, calls, n);
    hide Apply, WellFormed;
    var s := h[n];
    ReceiptOwnsEffect(s.claims, s.work, a);
    ReceiptOwnsEffect(s.claims, s.work, b);
  }

  lemma ReceiptOwnsEffect(c: ClaimLedger, w: WorkLedger, id: ReceiptId)
    requires WorkInv(c, w) && id in w.receipts && w.receipts[id].body.effectId.Some?
    ensures var b := w.receipts[id].body;
      && b.effectId.value in w.owner && w.owner[b.effectId.value] == b.packetId
      && b.packetId in w.receiptOf && w.receiptOf[b.packetId].id == id
  {
  }

  // ---------------------------------------------------------------- fencing

  /** At every moment of a run active scopes are disjoint and active versions are current. */
  lemma ActiveLeasesFence(h: seq<Store>, calls: seq<Call>, n: nat, a: LeaseId, b: LeaseId, item: string)
    requires IsHistory(h, calls) && n <= |calls|
    requires var c := h[n].claims; a in c.active && b in c.active
    ensures var c := h[n].claims;
      && (item in c.active[a].scope && item in c.active[b].scope ==> a == b)
      && (item in c.active[a].scope ==>
            (item, Version(c.versions, item)) in c.active[a].scopeVersions)
  {
    HistoryKeepsInv(h, calls, n);
    hide Apply, WellFormed;
    var c := h[n].claims;
    assert a != b ==> !Overlaps(c.active[a].scope, c.active[b].scope);
    if item in c.active[a].scope { ScopeHasVersion(c, c.active[a].packetId, item); }
  }

  lemma ScopeHasVersion(c: ClaimLedger, pid: PacketId, item: string)
    requires ClaimsInv(c) && pid in c.leases && c.leases[pid].leaseId in c.active
    requires item in c.leases[pid].scope
    ensures (item, Version(c.versions, item)) in c.leases[pid].scopeVersions
  {
    assert ClaimedPacket(c, pid);
    hide Fenced, ActiveDisjoint, PacketsFit;
    var l := c.leases[pid];
    var i :| 0 <= i < |l.scope| && l.scope[i] == item;
    assert l.scopeVersions[i] in l.scopeVersions && l.scopeVersions[i].0 == item;
    assert c.active[l.leaseId] == l by { OwnLease(c, pid); }
  }

  lemma OwnLease(c: ClaimLedger, pid: PacketId)
    requires PacketsFit(c) && ActiveFit(c) && pid in c.leases && c.leases[pid].leaseId in c.active
    ensures c.active[c.leases[pid].leaseId] == c.leases[pid]
  {
  }

  /** Over a whole run no version of a scope item is granted to two packets, not even to one that
      lost its lease long before the other was claimed. */
  lemma NoVersionGrantedTwice(h: seq<Store>, calls: seq<Call>, early: nat, n: nat, p: PacketId,
                              q: PacketId, item: string, v: int)
    requires IsHistory(h, calls) && early <= n <= |calls|
    requires Granted(h[early].claims, p, item, v)
    requires Granted(h[n].claims, q, item, v)
    ensures p == q
    ensures v <= Version(h[n].claims.versions, item)
  {
    HistoryGrows(h, calls, early, n);
    HistoryKeepsInv(h, calls, n);
    hide Apply, WellFormed, PacketsFit, ActiveFit, ActiveDisjoint, ActiveCurrent;
    assert Granted(h[n].claims, p, item, v);
  }

  // ---------------------------------------------------------------- partition

  /** A claimed packet holds its lease or has its one receipt, never both and never neither; the
      receipt is final; BLOCKED says the packet was never started. */
  lemma ClaimedIsLeasedOrTerminal(h: seq<Store>, calls: seq<Call>, early: nat, n: nat, pid: PacketId)
    requires IsHistory(h, calls) && early <= n <= |calls|
    requires pid in h[early].claims.packets
    ensures var s := h[n];
      && pid in s.claims.packets
      && (IsActive(s.claims, pid) <==> pid !in s.work.receiptOf)
      && (pid in s.work.receiptOf ==>
            (s.work.receiptOf[pid].body.status == Blocked <==> pid !in s.work.started))
    ensures pid in h[early].work.receiptOf ==>
              && pid in h[n].work.receiptOf
              && h[n].work.receiptOf[pid]
                 == h[early].work.receiptOf[pid]
  {
    HistoryGrows(h, calls, early, n);
    HistoryKeepsInv(h, calls, n);
    hide Apply, WellFormed, ReceiptsIndexed, AttemptsFit, FailuresFit, StartedFit;
    var s := h[n];
    if pid in s.work.receiptOf { assert ReceiptFits(s.claims, s.work, pid); }
  }

  /** Two receipts of one packet are the same receipt. */
  lemma OneReceiptPerPacket(h: seq<Store>, calls: seq<Call>, n: nat, a: ReceiptId, b: ReceiptId)
    requires IsHistory(h, calls) && n <= |calls|
    requires var w := h[n].work;
      a in w.receipts && b in w.receipts && w.receipts[a].body.packetId == w.receipts[b].body.packetId
    ensures a == b
  {
    HistoryKeepsInv(h, calls, n);
    hide Apply, WellFormed, ReceiptsFit, AttemptsFit, FailuresFit, StartedFit, Partitioned;
  }

  // ---------------------------------------------------------------- terminal writes

  /** In every reachable state each step of a packet with a receipt is NONE or SETTLED. */
  lemma TerminalPacketsAreSettled(h: seq<Store>, calls: seq<Call>, n: nat, pid: PacketId, step: StepId)
    requires IsHistory(h, calls) && n <= |calls|
    requires pid in h[n].work.receiptOf
    requires step in StepsOf(h[n].steps, pid)
    ensures step in h[n].steps.steps
    ensures EffectiveState(h[n].steps, step) != Unsettled
  {
    HistoryKeepsInv(h, calls, n);
    hide Apply, WellFormed, StepRecordsFit;
    var s := h[n];
    assert LedgerFits(s.steps, pid);
    assert !HasUnsettledStep(s.steps, pid);
  }

  /** No terminal call leaves a partial update: it returns a receipt it has fully recorded, and
      otherwise the receipts, the leases and the scope versions are untouched.  A rejected block or
      reconciliation changes nothing at all. */
  lemma TerminalCallsAreWhole(h: seq<Store>, calls: seq<Call>, n: nat, c: Call)
    requires IsHistory(h, calls) && n <= |calls| && WellFormed(c) && TouchesReceipts(c)
    ensures var s, t := h[n], Apply(h[n], c);
      KeepsReceipts(s, t) || exists receipt :: WritesReceipt(s, t, receipt)
    ensures !c.DoResult? && KeepsReceipts(h[n], Apply(h[n], c)) ==>
              Apply(h[n], c) == h[n]
  {
    hide Inv, WellFormed, Apply, KeepsReceipts, WritesReceipt;
    HistoryKeepsInv(h, calls, n);
    ReceiptCallsWrite(h[n], c);
    if !c.DoResult? { RejectedTerminalCall(h[n], c); }
  }

  /** A block or a reconciliation writes a receipt or nothing. */
  lemma RejectedTerminalCall(s: Store, c: Call)
    requires Inv(s) && WellFormed(c) && TouchesReceipts(c) && !c.DoResult?
    ensures KeepsReceipts(s, Apply(s, c)) ==> Apply(s, c) == s
  {
    hide Inv, HasUnsettledStep, TerminalizePreExecution, ReconcileFailure, ReconcileEffect,
         FailureReconciliationWellFormed, IsActive;
    match c
    case DoBlock(p, l, code, d) => BlockWrites(s, p, l, code, d);
    case DoReconcileFailure(p, l, r) => ReconcileFailureWrites(s, p, l, r);
    case DoReconcileEffect(p, l, r) => ReconcileEffectWrites(s, p, l, r);
  }
}
