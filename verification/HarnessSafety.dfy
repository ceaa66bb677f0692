/** What every step of every caller keeps, beyond the store's own invariant. */
module HarnessSafety {
  import opened Records
  import opened StoreSpec
  import opened StoreInvariant
  import opened StoreSafety
  import opened Frames
  import opened Harness

  // ---------------------------------------------------------------- outcomes and effects

  /** An effect is held for the receipt of a terminal packet, or for the one attempt or failure of a
      packet still open. */
  ghost predicate OwnerFits(w: WorkLedger, e: string)
    requires e in w.owner
  {
    var pid := w.owner[e];
    if pid in w.receiptOf then w.receiptOf[pid].body.effectId == Some(e)
    else || (pid in w.attempts && w.attempts[pid].effectId == e)
         || (pid in w.failures && w.failures[pid].body.observedEffectId == Some(e))
  }

  ghost predicate Separate(w: WorkLedger) { w.attempts.Keys !! w.failures.Keys }

  ghost predicate OwnersFit(w: WorkLedger) { forall e :: e in w.owner ==> OwnerFits(w, e) }

  ghost predicate OutcomesInv(w: WorkLedger) { Separate(w) && OwnersFit(w) }

  /** No outcome of the packet is on record. */
  predicate NoOutcome(w: WorkLedger, pid: PacketId) {
    pid !in w.attempts && pid !in w.failures && pid !in w.receiptOf
  }

  lemma FailKeepsOutcomes(s: Store, p: TaskPacket, l: Lease, code: FailureCode, e: Evidence,
                          seen: Option<string>, origin: FailureOrigin)
    requires OutcomesInv(s.work) && p.id !in s.work.attempts
    ensures OutcomesInv(RecordExecutionFailure(s, p, l, code, e, seen, origin).store.work)
  {
    hide HoldsLease, EvidenceText, FailureCodeAllowed, AddFailure, OutcomesInv;
    if p.id !in s.work.failures && p.id !in s.work.receiptOf {
      AddFailureKeepsOutcomes(s.work, Seal(FailureBody(p.id, l.leaseId, code, e, seen, origin)));
    }
  }

  lemma AddFailureKeepsOutcomes(w: WorkLedger, failure: ExecutionFailure)
    requires OutcomesInv(w) && NoOutcome(w, failure.body.packetId)
    ensures OutcomesInv(AddFailure(w, failure))
  {
  }

  /** A first receipt takes over what its packet held. */
  lemma ReceiptKeepsOutcomes(w: WorkLedger, x: WorkLedger, receipt: TerminalReceipt)
    requires OutcomesInv(w) && Separate(x) && receipt.body.packetId !in w.receiptOf
    requires x.receiptOf == w.receiptOf && x.attempts.Keys >= w.attempts.Keys
    requires x.failures == w.failures
    requires forall q :: q in w.attempts && q != receipt.body.packetId ==>
               x.attempts[q] == w.attempts[q]
    requires forall e :: e in x.owner && x.owner[e] != receipt.body.packetId ==>
               e in w.owner && w.owner[e] == x.owner[e]
    requires forall e :: e in x.owner && x.owner[e] == receipt.body.packetId ==>
               receipt.body.effectId == Some(e)
    ensures OutcomesInv(AddReceipt(x, receipt))
  {
  }

  lemma BlockKeepsOutcomes(s: Store, p: TaskPacket, l: Lease, code: FailureCode, d: Detail)
    requires Inv(s) && OutcomesInv(s.work)
    ensures OutcomesInv(TerminalizePreExecution(s, p, l, code, d).store.work)
  {
    hide Inv, HasUnsettledStep, TerminalizePreExecution, AddReceipt, OutcomesInv, OwnersFit,
         TruthInv, ClaimsInv, StepsInv, RecoveryInv, CallbacksInv, PacketsHaveMissions, ReceiptsFit,
         AttemptsFit, FailuresFit, Partitioned, ReceiptsIndexed;
    InvParts(s);
    HolderIsOpen(s, p, l);
    BlockShape(s, p, l, code, d);
    var o := TerminalizePreExecution(s, p, l, code, d);
    if o.result.Ok? {
      assert Separate(s.work) by { OutcomeParts(s.work); }
      ReceiptKeepsOutcomes(s.work, s.work, o.result.value);
    }
  }

  lemma OutcomeParts(w: WorkLedger)
    requires OutcomesInv(w)
    ensures Separate(w) && OwnersFit(w)
  {
  }

  lemma ReconcileFailureKeepsOutcomes(s: Store, p: TaskPacket, l: Lease, r: FailureReconciliation)
    requires Inv(s) && OutcomesInv(s.work) && FailureReconciliationWellFormed(r)
    ensures OutcomesInv(ReconcileFailure(s, p, l, r).store.work)
  {
    hide Inv, HasUnsettledStep, ReconcileFailure, AddReceipt, OwnersAfter, OutcomesInv,
         FailureReconciliationWellFormed;
    ReconcileFailureShape(s, p, l, r);
    OutcomeParts(s.work);
    var o := ReconcileFailure(s, p, l, r);
    if o.result.Ok? {
      ReconciledOwners(s.work, p.id, r);
      ReceiptKeepsOutcomes(s.work, s.work.(owner := OwnersAfter(s.work, p.id, r)), o.result.value);
    }
  }

  /** After reconciling a failure its packet holds exactly the settled effect, if there is one. */
  lemma ReconciledOwners(w: WorkLedger, pid: PacketId, r: FailureReconciliation)
    requires OutcomesInv(w) && pid in w.failures && pid !in w.receiptOf
    requires FailureReconciliationWellFormed(r)
    requires r.effectState == Settled && w.failures[pid].body.observedEffectId.Some? ==>
               r.effectId == w.failures[pid].body.observedEffectId
    ensures var x := OwnersAfter(w, pid, r);
      && (forall e :: e in x && x[e] != pid ==> e in w.owner && w.owner[e] == x[e])
      && (forall e :: e in x && x[e] == pid ==> r.effectId == Some(e))
  {
  }

  lemma AttemptKeepsOutcomes(w: WorkLedger, pid: PacketId, r: ExecutionResult)
    requires OutcomesInv(w) && NoOutcome(w, pid) && r.effectId !in w.owner
    ensures var x := w.(attempts := w.attempts[pid := r], owner := w.owner[r.effectId := pid]);
      && OutcomesInv(x)
      && (forall receipt: TerminalReceipt | receipt.body.packetId == pid
            && receipt.body.effectId == Some(r.effectId) :: OutcomesInv(AddReceipt(x, receipt)))
  {
    hide AddReceipt;
    var x := w.(attempts := w.attempts[pid := r], owner := w.owner[r.effectId := pid]);
    forall e | e in x.owner ensures OwnerFits(x, e) {
      assert e in w.owner ==> OwnerFits(w, e);
    }
    forall receipt: TerminalReceipt | receipt.body.packetId == pid
      && receipt.body.effectId == Some(r.effectId) ensures OutcomesInv(AddReceipt(x, receipt))
    {
      OpenOwnsNothing(w, pid);
      ReceiptKeepsOutcomes(w, x, receipt);
    }
  }

  /** A packet without an outcome holds no effect. */
  lemma OpenOwnsNothing(w: WorkLedger, pid: PacketId)
    requires OwnersFit(w) && NoOutcome(w, pid)
    ensures forall e :: e in w.owner ==> w.owner[e] != pid
  {
  }

  lemma ResultKeepsOutcomes(s: Store, p: TaskPacket, l: Lease, r: ExecutionResult)
    requires Inv(s) && OutcomesInv(s.work) && ResultWellFormed(r) && NoOutcome(s.work, p.id)
    ensures OutcomesInv(RecordExecution(s, p, l, r).store.work)
  {
    hide Inv, HasUnsettledStep, RecordExecution, AddReceipt, OutcomesInv, RecordExecutionFailure,
         ResultWellFormed;
    RecordExecutionShape(s, p, l, r);
    var o := RecordExecution(s, p, l, r);
    if o.store != s {
      if code, e :| o.store == RecordExecutionFailure(s, p, l, code, e, Some(r.effectId),
                                                      HarnessOrigin).store {
        FailKeepsOutcomes(s, p, l, code, e, Some(r.effectId), HarnessOrigin);
      } else {
        AttemptKeepsOutcomes(s.work, p.id, r);
      }
    }
  }

  lemma OpenAttemptOwnsOne(w: WorkLedger, pid: PacketId, e: string)
    requires OutcomesInv(w) && pid in w.attempts && pid !in w.receiptOf
    requires e in w.owner && w.owner[e] == pid
    ensures e == w.attempts[pid].effectId
  {
  }

  lemma ReconcileEffectKeepsOutcomes(s: Store, p: TaskPacket, l: Lease, r: EffectReconciliation)
    requires Inv(s) && OutcomesInv(s.work)
    ensures OutcomesInv(ReconcileEffect(s, p, l, r).store.work)
  {
    hide Inv, HasUnsettledStep, ReconcileEffect, AddReceipt, OutcomesInv;
    HolderIsOpen(s, p, l);
    ReconcileEffectShape(s, p, l, r);
    OutcomeParts(s.work);
    var o := ReconcileEffect(s, p, l, r);
    if o.result.Ok? {
      var a := s.work.attempts[p.id].(effectState := Settled);
      forall e | e in s.work.owner && s.work.owner[e] == p.id ensures e == a.effectId {
        OpenAttemptOwnsOne(s.work, p.id, e);
      }
      ReceiptKeepsOutcomes(s.work, s.work.(attempts := s.work.attempts[p.id := a]), o.result.value);
    }
  }

  /** Every call keeps the outcomes consistent, provided results and failures arrive only for packets
      without an outcome. */
  lemma CallKeepsOutcomes(s: Store, c: Call)
    requires Inv(s) && WellFormed(c) && OutcomesInv(s.work)
    requires c.DoResult? || c.DoFail? ==> NoOutcome(s.work, c.packet.id)
    ensures OutcomesInv(Apply(s, c).work)
  {
    hide Inv, OutcomesInv, RecordExecution, RecordExecutionFailure, ReconcileFailure,
         ReconcileEffect, TerminalizePreExecution, ResultWellFormed,
         FailureReconciliationWellFormed;
    match c
    case DoFail(p, l, code, e, seen, origin) => FailKeepsOutcomes(s, p, l, code, e, seen, origin);
    case DoResult(p, l, r) => ResultKeepsOutcomes(s, p, l, r);
    case DoReconcileFailure(p, l, r) => ReconcileFailureKeepsOutcomes(s, p, l, r);
    case DoReconcileEffect(p, l, r) => ReconcileEffectKeepsOutcomes(s, p, l, r);
    case DoBlock(p, l, code, d) => BlockKeepsOutcomes(s, p, l, code, d);
    case DoBegin(p, l) => BeginKeepsOutcomes(s, p, l);
    case _ => OthersKeepWork(s, c);
  }

  lemma BeginKeepsOutcomes(s: Store, p: TaskPacket, l: Lease)
    requires OutcomesInv(s.work)
    ensures OutcomesInv(BeginExecution(s, p, l).store.work)
  {
  }

  lemma OthersKeepWork(s: Store, c: Call)
    requires !TouchesWork(c)
    ensures Apply(s, c).work == s.work
  {
    hide Apply;
    ApplyFrame(s, c);
  }

  // ---------------------------------------------------------------- callers in flight

  /** A caller between `begin_execution` and the executor's end. */
  ghost predicate RunningFits(s: Store, p: TaskPacket, l: Lease) {
    HoldsLease(s.claims, p, l) && p.id in s.work.started && NoOutcome(s.work, p.id)
  }

  /** A caller between `begin_delivery` and the record of the turn's end. */
  ghost predicate TurnFits(s: Store, n: Continuation, receipt: TerminalReceipt) {
    && Authoritative(s.work, receipt) && n.receiptId == receipt.id
    && IsCurrent(s.callbacks, n) && n.state == DeliveryStarted
  }

  ghost predicate PhaseFits(s: Store, phase: Phase) {
    match phase
    case Executing(p, l) => RunningFits(s, p, l)
    case Turning(n, r) => TurnFits(s, n, r)
    case Marking(n, r) => TurnFits(s, n, r)
    case _ => true
  }

  predicate SamePacket(a: Phase, b: Phase) {
    a.Executing? && b.Executing? && a.packet.id == b.packet.id
  }

  predicate InTurn(a: Phase) { a.Turning? || a.Marking? }

  predicate SameTurn(a: Phase, b: Phase) {
    InTurn(a) && InTurn(b) && a.continuation.continuationId == b.continuation.continuationId
  }

  ghost predicate CallersFit(s: Store, callers: map<nat, Phase>) {
    forall k :: k in callers ==> PhaseFits(s, callers[k])
  }

  /** No two callers run the same packet or the same delivery. */
  ghost predicate CallersApart(callers: map<nat, Phase>) {
    forall j, k | j in callers && k in callers
      && (SamePacket(callers[j], callers[k]) || SameTurn(callers[j], callers[k])) :: j == k
  }

  /** The executor has run once for each started packet, and for no other. */
  ghost predicate RanOnce(ran: multiset<PacketId>, started: set<PacketId>) {
    forall pid :: ran[pid] == if pid in started then 1 else 0
  }

  ghost predicate HostInv(h: Host) {
    && Inv(h.store) && OutcomesInv(h.store.work) && AcksInv(h.store.work, h.store.callbacks)
    && RanOnce(h.ran, h.store.work.started)
    && CallersFit(h.store, h.callers) && CallersApart(h.callers)
  }

  // ---------------------------------------------------------------- calls leave other callers be

  /** The call concerns another packet than `p`, or cannot touch a running execution. */
  ghost predicate SparesRun(c: Call, pid: PacketId) {
    (c.DoResult? || c.DoFail?) ==> c.packet.id != pid
  }

  lemma ReleaseSparesOthers(c: ClaimLedger, pid: PacketId, p: TaskPacket, l: Lease)
    requires PacketsFit(c) && HoldsLease(c, p, l) && pid in c.packets && pid in c.leases
    requires p.id != pid
    ensures HoldsLease(Release(c, c.leases[pid].leaseId), p, l)
  {
  }

  lemma IssueSparesOthers(c: ClaimLedger, q: TaskPacket, p: TaskPacket, l: Lease)
    requires PacketsFit(c) && HoldsLease(c, p, l) && q.id !in c.leases
    ensures HoldsLease(Issue(c, q), p, l)
  {
  }

  lemma ClaimSparesRun(s: Store, q: TaskPacket, p: TaskPacket, l: Lease)
    requires Inv(s) && RunningFits(s, p, l)
    ensures RunningFits(Claim(s, q).store, p, l)
  {
    hide Inv, ValidatePacket, Overlaps, ScopeSnapshot, Issue, HoldsLease, TruthInv, WorkInv,
         StepsInv, RecoveryInv, CallbacksInv, Fenced, ActiveDisjoint, ActiveCurrent, PacketsFit,
         NoOutcome, PacketsHaveMissions;
    InvParts(s);
    if q.id !in s.claims.leases { IssueSparesOthers(s.claims, q, p, l); }
  }

  /** An attempt or failure appears only where a result or a failure is recorded. */
  lemma NoOutcomeStays(s: Store, c: Call, pid: PacketId)
    requires Inv(s) && WellFormed(c) && NoOutcome(s.work, pid) && pid in s.work.started
    requires SparesRun(c, pid)
    ensures NoOutcome(Apply(s, c).work, pid)
  {
    hide Inv, HasUnsettledStep, HoldsLease, ValidateClaim, WellFormed, EvidenceText,
         FailureCodeAllowed;
    if !TouchesWork(c) {
      OthersKeepWork(s, c);
    } else if c.DoReconcileFailure? {
      ReconcileFailureSpares(s, c.packet, c.lease, c.failureProof, pid);
    } else if c.DoResult? {
      ResultSpares(s, c.packet, c.lease, c.outcome, pid);
    }
  }

  lemma ReconcileFailureSpares(s: Store, p: TaskPacket, l: Lease, r: FailureReconciliation,
                               pid: PacketId)
    requires NoOutcome(s.work, pid)
    ensures NoOutcome(ReconcileFailure(s, p, l, r).store.work, pid)
  {
  }

  lemma ResultSpares(s: Store, p: TaskPacket, l: Lease, r: ExecutionResult, pid: PacketId)
    requires NoOutcome(s.work, pid) && p.id != pid
    ensures NoOutcome(RecordExecution(s, p, l, r).store.work, pid)
  {
    hide HasUnsettledStep, HoldsLease, EvidenceText, FailureCodeAllowed;
  }

  lemma CallSparesRun(s: Store, c: Call, p: TaskPacket, l: Lease)
    requires Inv(s) && WellFormed(c) && RunningFits(s, p, l) && SparesRun(c, p.id)
    ensures RunningFits(Apply(s, c), p, l)
  {
    hide Inv, HoldsLease, NoOutcome, WellFormed, Apply, Claim, ClaimsInv, TruthInv, WorkInv,
         StepsInv, RecoveryInv, CallbacksInv, WritesReceipt, RecoveryStepsInv, PacketsHaveMissions;
    NoOutcomeStays(s, c, p.id);
    ApplyGrows(s, c);
    if c.DoClaim? {
      ClaimSparesRun(s, c.packet, p, l);
      assert Apply(s, c) == Claim(s, c.packet).store by { ClaimIsApply(s, c); }
    } else if TouchesReceipts(c) {
      ReceiptCallsWrite(s, c);
      if receipt :| WritesReceipt(s, Apply(s, c), receipt) {
        WriterSparesRun(s, Apply(s, c), receipt, p, l);
      }
    } else {
      ApplyFrame(s, c);
    }
  }

  lemma ClaimIsApply(s: Store, c: Call)
    requires c.DoClaim?
    ensures Apply(s, c) == Claim(s, c.packet).store
  {
  }

  lemma WriterSparesRun(s: Store, t: Store, receipt: TerminalReceipt, p: TaskPacket, l: Lease)
    requires Inv(s) && WritesReceipt(s, t, receipt) && HoldsLease(s.claims, p, l)
    requires NoOutcome(t.work, p.id)
    ensures HoldsLease(t.claims, p, l)
  {
    hide Inv, HasUnsettledStep, TruthInv, WorkInv, StepsInv, RecoveryInv, CallbacksInv, HoldsLease,
         IsActive, Fenced, ActiveDisjoint, ActiveCurrent, PacketsFit, PacketsHaveMissions;
    InvParts(s);
    ReleaseSparesOthers(s.claims, receipt.body.packetId, p, l);
  }

  /** The call moves no delivery but its own. */
  ghost predicate SparesTurn(c: Call, id: ContinuationId) {
    (c.DoAcknowledge? || c.DoUnsettle?) ==> c.continuation.continuationId != id
  }

  lemma CallSparesTurn(s: Store, c: Call, n: Continuation, receipt: TerminalReceipt)
    requires Inv(s) && WellFormed(c) && TurnFits(s, n, receipt) && SparesTurn(c, n.continuationId)
    ensures TurnFits(Apply(s, c), n, receipt)
  {
    hide Inv, WellFormed, Apply, IsCurrent;
    ApplyGrows(s, c);
    assert IsCurrent(Apply(s, c).callbacks, n) by {
      if TouchesCallbacks(c) { CallbackSparesTurn(s, c, n); } else { ApplyFrame(s, c); }
    }
  }

  lemma CallbackSparesTurn(s: Store, c: Call, n: Continuation)
    requires Inv(s) && TouchesCallbacks(c) && IsCurrent(s.callbacks, n) && n.state == DeliveryStarted
    requires SparesTurn(c, n.continuationId)
    ensures IsCurrent(Apply(s, c).callbacks, n)
  {
    hide Inv, Authoritative, NonBlank, AbsenceExact, AckFor, CallbacksInv, TruthInv, ClaimsInv,
         WorkInv, StepsInv, RecoveryInv, PacketsHaveMissions, AcknowledgeDelivery;
    InvParts(s);
    if c.DoReconcileContinuation? {
      ReconcileSparesTurn(s, c.receipt, c.reconciliation, c.proof, n);
    } else if c.DoAcknowledge? {
      AcknowledgeSparesTurn(s, c.continuation, c.receipt, c.turn, DeliveryStarted, n);
    } else if c.DoPrepare? {
      PrepareSparesTurn(s, c.receipt, n);
    }
  }

  lemma PrepareSparesTurn(s: Store, receipt: TerminalReceipt, n: Continuation)
    requires CallbacksInv(s.claims, s.work, s.callbacks) && IsCurrent(s.callbacks, n)
    ensures IsCurrent(PrepareContinuation(s, receipt).store.callbacks, n)
  {
  }

  lemma AcknowledgeSparesTurn(s: Store, m: Continuation, receipt: TerminalReceipt,
                              proof: ConvergenceProof, expected: ContinuationState, n: Continuation)
    requires IsCurrent(s.callbacks, n)
    requires m.continuationId == n.continuationId ==> n.state != expected
    ensures IsCurrent(AcknowledgeDelivery(s, m, receipt, proof, expected).store.callbacks, n)
  {
  }

  lemma ReconcileSparesTurn(s: Store, receipt: TerminalReceipt, r: ContinuationReconciliation,
                            proof: Option<DeliveryProof>, n: Continuation)
    requires CallbacksInv(s.claims, s.work, s.callbacks)
    requires IsCurrent(s.callbacks, n) && n.state == DeliveryStarted
    ensures IsCurrent(ReconcileContinuation(s, receipt, r, proof).store.callbacks, n)
  {
    hide CallbacksInv, Authoritative, AbsenceExact, AcknowledgeDelivery;
    if r.continuationId in s.callbacks.continuations {
      CurrentHasId(s, r.continuationId);
      if proof.Some? && proof.value.Converged? {
        AcknowledgeSparesTurn(s, s.callbacks.continuations[r.continuationId], receipt,
                              proof.value.proof, DeliveryUnsettled, n);
      }
    }
  }
}
