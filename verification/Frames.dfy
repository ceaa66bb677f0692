/** Which ledgers a call may touch, and what only grows. */
module Frames {
  import opened Records
  import opened StoreSpec
  import opened StoreInvariant
  import opened WorkSafety
  import opened ClaimSafety
  import opened StoreSafety

  predicate TouchesTruth(c: Call) { c.DoRegister? || c.DoDispose? || c.DoSupersede? || c.DoVerify? }

  predicate TouchesClaims(c: Call) { c.DoClaim? || TouchesReceipts(c) }

  predicate TouchesReceipts(c: Call) {
    c.DoBlock? || c.DoReconcileFailure? || c.DoResult? || c.DoReconcileEffect?
  }

  predicate TouchesWork(c: Call) { c.DoBegin? || c.DoFail? || TouchesReceipts(c) }

  predicate TouchesSteps(c: Call) { c.DoStep? || c.DoReconcileStep? }

  predicate TouchesRecovery(c: Call) { c.DoBlocker? || c.DoAdmit? }

  predicate TouchesCallbacks(c: Call) {
    || c.DoPrepare? || c.DoDeliver? || c.DoUnsettle? || c.DoAcknowledge?
    || c.DoReconcileContinuation?
  }

  lemma WorkCallsFrame(s: Store, c: Call)
    requires TouchesWork(c)
    ensures Apply(s, c) == s.(work := Apply(s, c).work, claims := Apply(s, c).claims)
    ensures !TouchesReceipts(c) ==> Apply(s, c).claims == s.claims
    ensures !TouchesReceipts(c) ==> Apply(s, c).work.receiptOf == s.work.receiptOf
  {
    hide HasUnsettledStep, ValidatePacket, HoldsLease, EvidenceText, FailureCodeAllowed;
  }

  lemma CallbackCallsFrame(s: Store, c: Call)
    requires TouchesCallbacks(c)
    ensures Apply(s, c) == s.(callbacks := Apply(s, c).callbacks)
  {
    hide Authoritative, IsCurrent, NonBlank, AbsenceExact, AckFor;
  }

  lemma StepCallsFrame(s: Store, c: Call)
    requires TouchesSteps(c)
    ensures Apply(s, c) == s.(steps := Apply(s, c).steps)
  {
    hide ValidatePacket, HoldsLease, AdmittedAction, AddStep;
  }

  lemma RecoveryCallsFrame(s: Store, c: Call)
    requires TouchesRecovery(c)
    ensures Apply(s, c) == s.(recovery := Apply(s, c).recovery)
  {
    hide ValidatePacket, HoldsLease, AdmissionFor, ProposalAuthentic, EffectiveState;
  }

  lemma TruthCallsFrame(s: Store, c: Call)
    requires TouchesTruth(c)
    ensures Apply(s, c) == s.(truth := Apply(s, c).truth)
  {
    hide FindRoute, SameKeys, ReadbackOf, VerificationFor;
  }

  lemma ClaimCallFrame(s: Store, c: Call)
    requires c.DoClaim?
    ensures Apply(s, c) == s.(claims := Apply(s, c).claims)
  {
    hide ValidatePacket, Overlaps, ScopeSnapshot, Issue, LeaseFor;
  }

  /** A call changes only the ledgers of its own group. */
  lemma ApplyFrame(s: Store, c: Call)
    ensures !TouchesTruth(c) ==> Apply(s, c).truth == s.truth
    ensures !TouchesClaims(c) ==> Apply(s, c).claims == s.claims
    ensures !TouchesWork(c) ==> Apply(s, c).work == s.work
    ensures !TouchesSteps(c) ==> Apply(s, c).steps == s.steps
    ensures !TouchesRecovery(c) ==> Apply(s, c).recovery == s.recovery
    ensures !TouchesCallbacks(c) ==> Apply(s, c).callbacks == s.callbacks
  {
    hide Apply;
    if TouchesTruth(c) { TruthCallsFrame(s, c); }
    else if TouchesWork(c) { WorkCallsFrame(s, c); }
    else if TouchesSteps(c) { StepCallsFrame(s, c); }
    else if TouchesRecovery(c) { RecoveryCallsFrame(s, c); }
    else if TouchesCallbacks(c) { CallbackCallsFrame(s, c); }
    else { ClaimCallFrame(s, c); }
  }

  // ---------------------------------------------------------------- growth

  /** A call that can terminalize either leaves receipts and leases alone, or writes the first
      receipt of one packet whose steps are settled and releases exactly that packet's lease. */
  ghost predicate WritesReceipt(s: Store, t: Store, receipt: TerminalReceipt) {
    var pid := receipt.body.packetId;
    && pid in s.claims.packets && pid in s.claims.leases && IsActive(s.claims, pid)
    && pid !in s.work.receiptOf && receipt.Authentic()
    && !HasUnsettledStep(s.steps, pid)
    && t.claims == Release(s.claims, s.claims.leases[pid].leaseId)
    && t.work.receiptOf == s.work.receiptOf[pid := receipt]
    && t.work.receipts == s.work.receipts[receipt.id := receipt]
    && t.work.started == s.work.started
  }

  ghost predicate KeepsReceipts(s: Store, t: Store) {
    && t.claims == s.claims && t.work.receipts == s.work.receipts
    && t.work.receiptOf == s.work.receiptOf && s.work.started <= t.work.started
  }

  lemma FailKeepsReceipts(s: Store, p: TaskPacket, l: Lease, code: FailureCode, e: Evidence,
                          seen: Option<string>, origin: FailureOrigin)
    ensures KeepsReceipts(s, RecordExecutionFailure(s, p, l, code, e, seen, origin).store)
  {
  }

  lemma BlockWrites(s: Store, p: TaskPacket, l: Lease, code: FailureCode, d: Detail)
    requires Inv(s)
    ensures var o := TerminalizePreExecution(s, p, l, code, d);
      if o.result.Ok? then WritesReceipt(s, o.store, o.result.value) else o.store == s
  {
    HolderIsOpen(s, p, l);
    BlockShape(s, p, l, code, d);
    hide Inv, HasUnsettledStep, TerminalizePreExecution;
  }

  lemma ReconcileFailureWrites(s: Store, p: TaskPacket, l: Lease, r: FailureReconciliation)
    requires Inv(s) && FailureReconciliationWellFormed(r)
    ensures var o := ReconcileFailure(s, p, l, r);
      if o.result.Ok? then WritesReceipt(s, o.store, o.result.value) else o.store == s
  {
    ReconcileFailureShape(s, p, l, r);
    hide Inv, HasUnsettledStep, ReconcileFailure, OwnersAfter, FailureReconciliationWellFormed;
  }

  lemma ReconcileEffectWrites(s: Store, p: TaskPacket, l: Lease, r: EffectReconciliation)
    requires Inv(s)
    ensures var o := ReconcileEffect(s, p, l, r);
      if o.result.Ok? then WritesReceipt(s, o.store, o.result.value) else o.store == s
  {
    HolderIsOpen(s, p, l);
    ReconcileEffectShape(s, p, l, r);
    hide Inv, HasUnsettledStep, ReconcileEffect;
  }

  lemma RecordExecutionWrites(s: Store, p: TaskPacket, l: Lease, r: ExecutionResult)
    requires Inv(s) && ResultWellFormed(r)
    ensures var o := RecordExecution(s, p, l, r);
      if o.result.Ok? then WritesReceipt(s, o.store, o.result.value) else KeepsReceipts(s, o.store)
  {
    HolderIsOpen(s, p, l);
    RecordExecutionShape(s, p, l, r);
    hide Inv, HasUnsettledStep, RecordExecution, RecordExecutionFailure, ResultWellFormed;
    var o := RecordExecution(s, p, l, r);
    if o.store != s {
      if code, e :| o.store == RecordExecutionFailure(s, p, l, code, e, Some(r.effectId),
                                                      HarnessOrigin).store {
        FailKeepsReceipts(s, p, l, code, e, Some(r.effectId), HarnessOrigin);
      }
    }
  }

  lemma ReceiptCallsWrite(s: Store, c: Call)
    requires Inv(s) && WellFormed(c) && TouchesReceipts(c)
    ensures KeepsReceipts(s, Apply(s, c)) || exists receipt :: WritesReceipt(s, Apply(s, c), receipt)
  {
    hide Inv, HasUnsettledStep, TerminalizePreExecution, ReconcileFailure, ReconcileEffect,
         RecordExecution, FailureReconciliationWellFormed, ResultWellFormed;
    match c
    case DoBlock(p, l, code, d) => BlockWrites(s, p, l, code, d);
    case DoReconcileFailure(p, l, r) => ReconcileFailureWrites(s, p, l, r);
    case DoResult(p, l, r) => RecordExecutionWrites(s, p, l, r);
    case DoReconcileEffect(p, l, r) => ReconcileEffectWrites(s, p, l, r);
  }

  ghost predicate Grows(s: Store, t: Store) {
    && ClaimsGrow(s.claims, t.claims)
    && (forall x :: Version(s.claims.versions, x) <= Version(t.claims.versions, x))
    && (forall id :: id in s.work.receipts ==>
          id in t.work.receipts && t.work.receipts[id] == s.work.receipts[id])
    && (forall id :: id in s.work.receiptOf ==>
          id in t.work.receiptOf && t.work.receiptOf[id] == s.work.receiptOf[id])
    && s.work.started <= t.work.started
  }

  lemma WritingGrows(s: Store, t: Store, receipt: TerminalReceipt)
    requires Inv(s) && WritesReceipt(s, t, receipt)
    ensures Grows(s, t)
  {
    hide TruthInv, ClaimsInv, StepsInv, RecoveryInv, RecoveryStepsInv, CallbacksInv,
         PacketsHaveMissions, AttemptsFit, FailuresFit, StartedFit, Partitioned, ReceiptsFit,
         HasUnsettledStep, IsActive;
    IndexReceipt(s.work, receipt);
  }

  lemma InvParts(s: Store)
    requires Inv(s)
    ensures TruthInv(s.truth) && ClaimsInv(s.claims) && WorkInv(s.claims, s.work)
    ensures StepsInv(s.claims, s.work, s.steps) && RecoveryInv(s.claims, s.recovery)
    ensures RecoveryStepsInv(s.steps, s.recovery)
    ensures CallbacksInv(s.claims, s.work, s.callbacks) && PacketsHaveMissions(s.truth, s.claims)
  {
    hide TruthInv, ClaimsInv, WorkInv, StepsInv, RecoveryInv, RecoveryStepsInv, CallbacksInv,
         PacketsHaveMissions;
  }

  lemma ClaimGrows(s: Store, p: TaskPacket)
    requires Inv(s)
    ensures Grows(s, Claim(s, p).store)
  {
    hide Claim, Inv, Issuable, TruthInv, ClaimsInv, IsActive;
    if Claim(s, p).result.Ok? {
      InvParts(s);
      AcceptedClaimIsIssuable(s, p);
      IssuableIsNew(s.claims, p);
      IssueGrowth(s.claims, p);
    } else {
      RejectedClaimChangesNothing(s, p);
    }
  }

  lemma BeginGrows(s: Store, p: TaskPacket, l: Lease)
    ensures KeepsReceipts(s, BeginExecution(s, p, l).store)
  {
    hide ValidatePacket, HoldsLease;
  }

  /** Claimed packets, leases, scope versions, started executions and receipts are never lost. */
  lemma ApplyGrows(s: Store, c: Call)
    requires Inv(s) && WellFormed(c)
    ensures Grows(s, Apply(s, c))
  {
    hide Inv, WellFormed, Apply, WritesReceipt, Grows;
    if TouchesReceipts(c) {
      ReceiptCallsWrite(s, c);
      if receipt :| WritesReceipt(s, Apply(s, c), receipt) {
        WritingGrows(s, Apply(s, c), receipt);
      } else {
        KeepingGrows(s, Apply(s, c));
      }
    } else if c.DoClaim? {
      ClaimCallGrows(s, c);
    } else {
      OtherCallsKeep(s, c);
      KeepingGrows(s, Apply(s, c));
    }
  }

  lemma KeepingGrows(s: Store, t: Store)
    requires KeepsReceipts(s, t)
    ensures Grows(s, t)
  {
  }

  lemma ClaimCallGrows(s: Store, c: Call)
    requires Inv(s) && c.DoClaim?
    ensures Grows(s, Apply(s, c))
  {
    hide Inv, Claim, Grows;
    ClaimGrows(s, c.packet);
  }

  lemma OtherCallsKeep(s: Store, c: Call)
    requires !TouchesReceipts(c) && !c.DoClaim?
    ensures KeepsReceipts(s, Apply(s, c))
  {
    hide BeginExecution, RecordExecutionFailure;
    if c.DoBegin? {
      BeginGrows(s, c.packet, c.lease);
    } else if c.DoFail? {
      FailKeepsReceipts(s, c.packet, c.lease, c.code, c.evidence, c.observed, c.origin);
    } else {
      hide Apply;
      ApplyFrame(s, c);
    }
  }

  lemma {:induction false} RunGrows(calls: seq<Call>, n: nat)
    requires AllWellFormed(calls) && n <= |calls|
    ensures Grows(Run(EMPTY, calls[..n]), Run(EMPTY, calls))
    decreases |calls|
  {
    hide Apply, WellFormed, Grows;
    if n == |calls| {
      assert calls[..n] == calls;
      assert Grows(Run(EMPTY, calls), Run(EMPTY, calls)) by { GrowsReflexive(Run(EMPTY, calls)); }
    } else {
      var front := calls[..|calls| - 1];
      RunGrows(front, n);
      assert front[..n] == calls[..n];
      ReachableKeepsInv(front);
      ApplyGrows(Run(EMPTY, front), calls[|calls| - 1]);
      GrowsTransitive(Run(EMPTY, calls[..n]), Run(EMPTY, front), Run(EMPTY, calls));
    }
  }

  lemma GrowsReflexive(s: Store)
    ensures Grows(s, s)
  {
  }

  lemma GrowsTransitive(s: Store, t: Store, u: Store)
    requires Grows(s, t) && Grows(t, u)
    ensures Grows(s, u)
  {
  }
}
