/** Every call of every run keeps the joint invariant. */
module StoreSafety {
  import opened Records
  import opened StoreSpec
  import opened StoreInvariant
  import opened ClaimSafety
  import opened WorkSafety
  import opened LedgerSafety
  import opened RecoverySafety
  import opened TruthSafety

  // ---------------------------------------------------------------- missions

  lemma RegisterKeepsInv(s: Store, m: Mission)
    requires Inv(s) && MissionWellFormed(m)
    ensures Inv(RegisterMission(s, m).store)
  {
    hide TruthInv, ClaimsInv, WorkInv, StepsInv, RecoveryInv, RecoveryStepsInv, CallbacksInv,
         PacketsHaveMissions, MissionWellFormed;
    if RegisterMission(s, m).store != s {
      RegisterKeepsTruth(s.truth, m);
      RegisterKeepsPackets(s.truth, s.claims, m);
    }
  }

  lemma SideRecordsKeepTruth(t: MissionLedger, u: MissionLedger, c: ClaimLedger)
    requires TruthInv(t) && PacketsHaveMissions(t, c)
    requires u == t.(dispositions := u.dispositions, supersessions := u.supersessions)
    ensures TruthInv(u) && PacketsHaveMissions(u, c)
  {
    hide MissionWellFormed, SameKeys;
    forall key | key in u.snapshots ensures SnapshotFits(u, key) { assert SnapshotFits(t, key); }
    forall id | id in u.verifications ensures VerificationCovered(u, u.verifications[id]) {
      assert VerificationCovered(t, u.verifications[id]);
    }
  }

  lemma DisposeKeepsInv(s: Store, d: RouteDisposition)
    requires Inv(s)
    ensures Inv(RecordRouteDisposition(s, d).store)
  {
    hide TruthInv, ClaimsInv, WorkInv, StepsInv, RecoveryInv, RecoveryStepsInv, CallbacksInv,
         PacketsHaveMissions, FindRoute;
    SideRecordsKeepTruth(s.truth, RecordRouteDisposition(s, d).store.truth, s.claims);
  }

  lemma SupersedeKeepsInv(s: Store, d: Supersession)
    requires Inv(s)
    ensures Inv(RecordMissionSupersession(s, d).store)
  {
    hide TruthInv, ClaimsInv, WorkInv, StepsInv, RecoveryInv, RecoveryStepsInv, CallbacksInv,
         PacketsHaveMissions;
    SideRecordsKeepTruth(s.truth, RecordMissionSupersession(s, d).store.truth, s.claims);
  }

  lemma VerifyKeepsInv(s: Store, ack: Acknowledgement, readback: SnapshotReadback)
    requires Inv(s) && readback.body.sequence >= 0
    ensures Inv(VerifyMission(s, ack, readback).store)
  {
    hide TruthInv, ClaimsInv, WorkInv, StepsInv, RecoveryInv, RecoveryStepsInv, CallbacksInv,
         PacketsHaveMissions, VerificationFor, ReadbackOf, SameKeys;
    var o := VerifyMission(s, ack, readback);
    if o.result.Ok? {
      AcceptedReadbackIsStored(s, ack, readback);
      if o.store != s { VerificationMatches(s, ack, readback); }
    }
  }

  lemma VerificationMatches(s: Store, ack: Acknowledgement, readback: SnapshotReadback)
    requires TruthInv(s.truth) && PacketsHaveMissions(s.truth, s.claims)
    requires VerifyMission(s, ack, readback).result.Ok? && readback.body.sequence >= 0
    requires VerifyMission(s, ack, readback).store
             == s.(truth := StoreReadback(s.truth, readback,
                                          VerifyMission(s, ack, readback).result.value))
    ensures TruthInv(VerifyMission(s, ack, readback).store.truth)
    ensures PacketsHaveMissions(VerifyMission(s, ack, readback).store.truth, s.claims)
  {
    AcceptedReadbackIsStored(s, ack, readback);
    hide TruthInv, VerifyMission, ReadbackOf, NextOf, SameKeys, Storable;
    StoreReadbackKeepsTruth(s.truth, readback, VerifyMission(s, ack, readback).result.value);
  }

  // ---------------------------------------------------------------- claims and steps

  lemma RejectedClaimChangesNothing(s: Store, p: TaskPacket)
    requires !Claim(s, p).result.Ok?
    ensures Claim(s, p).store == s
  {
  }

  /** An accepted packet targets a predicate of its registered mission revision. */
  lemma ValidPacketMatches(t: MissionLedger, p: TaskPacket)
    requires ValidatePacket(t, p).Ok?
    ensures p.body.missionId in t.missions
    ensures t.missions[p.body.missionId].revision == p.body.missionRevision
    ensures exists i :: 0 <= i < |t.missions[p.body.missionId].predicates|
              && t.missions[p.body.missionId].predicates[i].key == p.body.predicateKey
  {
  }

  lemma AcceptedPacketMatches(s: Store, p: TaskPacket)
    requires Claim(s, p).result.Ok?
    ensures ValidatePacket(s.truth, p).Ok?
  {
  }

  lemma ClaimKeepsInv(s: Store, p: TaskPacket)
    requires Inv(s)
    ensures Inv(Claim(s, p).store)
  {
    if Claim(s, p).result.Ok? {
      AcceptedClaimIsIssuable(s, p);
      AcceptedPacketMatches(s, p);
      IssueKeepsInv(s, p);
    } else {
      RejectedClaimChangesNothing(s, p);
    }
  }

  lemma IssueKeepsInv(s: Store, p: TaskPacket)
    requires Inv(s) && Issuable(s.claims, p) && ValidatePacket(s.truth, p).Ok?
    ensures Inv(s.(claims := Issue(s.claims, p)))
  {
    hide TruthInv, WorkInv, StepsInv, RecoveryInv, RecoveryStepsInv, CallbacksInv, ValidatePacket,
         Fenced, ActiveDisjoint, ActiveCurrent, ActiveFit, ClaimedPacket, Issuable, IsActive;
    assert p.id !in s.claims.leases by { IssuableIsNew(s.claims, p); }
    IssueKeepsClaims(s.claims, p);
    IssueGrowth(s.claims, p);
    GrowthKeepsWork(s.claims, Issue(s.claims, p), s.work);
    CarryOver(s, p);
    ValidPacketMatches(s.truth, p);
  }

  lemma IssuableIsNew(c: ClaimLedger, p: TaskPacket)
    requires Issuable(c, p)
    ensures p.id !in c.leases
  {
  }

  /** Steps, recovery and callbacks do not notice a new claim. */
  lemma CarryOver(s: Store, p: TaskPacket)
    requires ClaimsInv(s.claims) && ClaimsInv(Issue(s.claims, p))
    requires StepsInv(s.claims, s.work, s.steps) && RecoveryInv(s.claims, s.recovery)
    requires CallbacksInv(s.claims, s.work, s.callbacks)
    requires ClaimsGrow(s.claims, Issue(s.claims, p))
    ensures StepsInv(Issue(s.claims, p), s.work, s.steps)
    ensures RecoveryInv(Issue(s.claims, p), s.recovery)
    ensures CallbacksInv(Issue(s.claims, p), s.work, s.callbacks)
  {
    hide StepsInv, RecoveryInv, CallbacksInv, Fenced, ActiveDisjoint, ActiveCurrent, ActiveFit;
    var d := Issue(s.claims, p);
    StepsFrame(s.claims, s.work, d, s.work, s.steps);
    CallbacksFrame(s.claims, s.work, d, s.work, s.callbacks);
    assert forall pid :: pid in d.packets ==> ClaimedPacket(d, pid);
    RecoveryFrame(s.claims, d, s.recovery);
  }

  lemma BeginKeepsInv(s: Store, p: TaskPacket, l: Lease)
    requires Inv(s)
    ensures Inv(BeginExecution(s, p, l).store)
  {
    hide TruthInv, ClaimsInv, WorkInv, StepsInv, RecoveryInv, RecoveryStepsInv, CallbacksInv,
         PacketsHaveMissions, ValidatePacket;
    var o := BeginExecution(s, p, l);
    if o.result.Ok? {
      BeginKeepsWork(s.claims, s.work, p.id);
      StepsFrame(s.claims, s.work, s.claims, o.store.work, s.steps);
      CallbacksFrame(s.claims, s.work, s.claims, o.store.work, s.callbacks);
    }
  }

  lemma RecordStepKeepsInv(s: Store, p: TaskPacket, l: Lease, step: StepAttempt)
    requires Inv(s) && StepWellFormed(step.body)
    ensures Inv(RecordStepAttempt(s, p, l, step).store)
  {
    hide TruthInv, ClaimsInv, WorkInv, StepsInv, RecoveryInv, CallbacksInv,
         PacketsHaveMissions, ValidatePacket, AdmittedAction, StepWellFormed;
    var o := RecordStepAttempt(s, p, l, step);
    if o.store != s {
      assert IsActive(s.claims, p.id);
      LeasedIsOpen(s, p.id);
      AppendKeepsSteps(s.claims, s.work, s.steps, step);
    }
  }

  /** A packet that holds its lease has no receipt. */
  lemma LeasedIsOpen(s: Store, pid: PacketId)
    requires WorkInv(s.claims, s.work) && ClaimsInv(s.claims) && IsActive(s.claims, pid)
    ensures pid in s.claims.packets && pid !in s.work.receiptOf
  {
  }

  lemma ReconcileStepKeepsInv(s: Store, p: TaskPacket, l: Lease, r: StepReconciliation)
    requires Inv(s) && r.body.effectState != Unsettled
    ensures Inv(ReconcileStepEffect(s, p, l, r).store)
  {
    hide TruthInv, ClaimsInv, WorkInv, StepsInv, RecoveryInv, AdmittedAction, CallbacksInv,
         PacketsHaveMissions, ValidatePacket;
    if ReconcileStepEffect(s, p, l, r).store != s {
      ReconcileKeepsSteps(s.claims, s.work, s.steps, r);
    }
  }

  lemma BlockersKeepRecovery(c: ClaimLedger, r: RecoveryLedger, blocker: BlockerReport)
    requires RecoveryInv(c, r) && blocker.Authentic()
    ensures RecoveryInv(c, r.(blockers := r.blockers[blocker.id := blocker]))
  {
    hide InsideEnvelope, ProposalAuthentic, AdmittedFor, BudgetSum, BudgetsExact, FingerprintsOnce;
    var x := r.(blockers := r.blockers[blocker.id := blocker]);
    forall id | id in x.admissions ensures AdmissionFits(c, x, id) { assert AdmissionFits(c, r, id); }
    BlockersKeepBudgets(c, r, x);
    assert FingerprintsOnce(x) by { BlockersKeepFingerprints(r, x); }
  }

  lemma BlockersKeepBudgets(c: ClaimLedger, r: RecoveryLedger, x: RecoveryLedger)
    requires BudgetsExact(c, r) && x == r.(blockers := x.blockers)
    ensures BudgetsExact(c, x)
  {
    hide AdmittedFor;
    forall pid ensures BudgetExact(c, x, pid) {
      assert BudgetExact(c, r, pid);
      SameAdmitted(r, x, pid);
      BudgetSumSame(r, x, AdmittedFor(r, pid));
    }
  }

  lemma BlockersKeepFingerprints(r: RecoveryLedger, x: RecoveryLedger)
    requires FingerprintsOnce(r) && x == r.(blockers := x.blockers)
    ensures FingerprintsOnce(x)
  {
  }

  lemma SameAdmitted(r: RecoveryLedger, x: RecoveryLedger, pid: PacketId)
    requires x.admissions == r.admissions
    ensures AdmittedFor(x, pid) == AdmittedFor(r, pid)
  {
  }

  lemma BlockerKeepsInv(s: Store, p: TaskPacket, l: Lease, blocker: BlockerReport)
    requires Inv(s)
    ensures Inv(RecordBlocker(s, p, l, blocker).store)
  {
    hide TruthInv, ClaimsInv, WorkInv, StepsInv, RecoveryInv, RecoveryStepsInv, CallbacksInv,
         PacketsHaveMissions, ValidatePacket;
    var o := RecordBlocker(s, p, l, blocker);
    if o.store != s {
      BlockersKeepRecovery(s.claims, s.recovery, blocker);
      RecoveryStepsFrame(s.steps, s.recovery, o.store.recovery);
    }
  }

  /** A new admission passed the guards its ledger relies on. */
  lemma NewAdmissionIsAdmissible(s: Store, p: TaskPacket, l: Lease, blocker: BlockerReport,
                                 q: RecoveryProposal)
    requires HoldsLease(s.claims, p, l) && blocker.Authentic()
    requires q.body.blockerId == blocker.id && q.body.packetId == p.id && q.body.leaseId == l.leaseId
    requires ProposalAuthentic(q) && q.id !in s.recovery.admissions
    ensures Admissible(s.claims, s.recovery, q, AdmissionFor(s, p, l, blocker, q))
    ensures AdmissionFor(s, p, l, blocker, q).body.state == Admitted ==>
              !HasUnsettledStep(s.steps, p.id)
  {
    hide RecoveryChecks, ProposalAuthentic, InsideEnvelope;
    if AdmissionFor(s, p, l, blocker, q).body.state == Admitted {
      NoObjectionsIff(s, p, blocker.body, q.body);
    }
  }

  lemma AdmitKeepsInv(s: Store, p: TaskPacket, l: Lease, blocker: BlockerReport,
                      q: RecoveryProposal)
    requires Inv(s)
    ensures Inv(AdmitRecovery(s, p, l, blocker, q).store)
  {
    hide TruthInv, ClaimsInv, WorkInv, StepsInv, RecoveryStepsInv, CallbacksInv,
         PacketsHaveMissions, ValidatePacket, RecoveryChecks, AdmissionFor, ProposalAuthentic,
         AdmissionsFit, AdmissionsIndexed, FingerprintsOnce, BudgetsExact, Admissible;
    var o := AdmitRecovery(s, p, l, blocker, q);
    if o.store != s {
      var a := AdmissionFor(s, p, l, blocker, q);
      NewAdmissionIsAdmissible(s, p, l, blocker, q);
      AdmitKeepsRecovery(s.claims, s.recovery, q, a);
      AdmissionExtends(s.claims, s.recovery, q, a);
      RecoveryStepsFrame(s.steps, s.recovery, o.store.recovery);
    }
  }

  lemma AdmissionExtends(c: ClaimLedger, r: RecoveryLedger, q: RecoveryProposal,
                         a: RecoveryAdmission)
    requires RecoveryInv(c, r) && Admissible(c, r, q, a)
    ensures var x := AddAdmission(r, q, a);
      && (forall id :: id in r.admissionById ==>
            id in x.admissionById && x.admissionById[id] == r.admissionById[id])
      && (forall id :: id in r.proposals ==> id in x.proposals && x.proposals[id] == r.proposals[id])
  {
    hide FingerprintsOnce, BudgetsExact, AdmissionFits, InsideEnvelope, ProposalAuthentic;
  }

  // ---------------------------------------------------------------- terminal writes

  /** Effects assigned, receipt written, lease released: the whole invariant holds again. */
  lemma TerminalKeepsInv(s: Store, x: WorkLedger, p: TaskPacket, l: Lease,
                         receipt: TerminalReceipt)
    requires Inv(s) && AlmostWork(s.claims, x, p.id) && HoldsLease(s.claims, p, l)
    requires p.id !in s.work.receiptOf && !HasUnsettledStep(s.steps, p.id)
    requires x.started == s.work.started
    requires x.receipts == s.work.receipts && x.receiptOf == s.work.receiptOf
    requires receipt.Authentic() && receipt.body.packetId == p.id
    requires ReceiptFits(Release(s.claims, l.leaseId), AddReceipt(x, receipt), p.id)
    ensures Inv(s.(work := AddReceipt(x, receipt), claims := Release(s.claims, l.leaseId)))
  {
    hide TruthInv, StepsInv, RecoveryInv, RecoveryStepsInv, CallbacksInv, ReceiptFits,
         Fenced, ActiveDisjoint, ActiveCurrent, ActiveFit, ClaimedPacket, HasUnsettledStep,
         ReceiptsFit, AttemptsFit, FailuresFit, StartedFit, Partitioned;
    var d, y := Release(s.claims, l.leaseId), AddReceipt(x, receipt);
    ReleaseKeepsClaims(s.claims, l.leaseId);
    ReceiptKeepsWork(s.claims, x, receipt);
    assert receipt.id !in s.work.receipts by { IndexReceipt(x, receipt); }
    StepsFrame(s.claims, s.work, d, y, s.steps);
    CallbacksFrame(s.claims, s.work, d, y, s.callbacks);
    assert RecoveryInv(d, s.recovery) by { ReleaseKeepsRecovery(s.claims, l.leaseId, s.recovery); }
    assert PacketsHaveMissions(s.truth, d);
  }

  lemma ReleaseKeepsRecovery(c: ClaimLedger, id: LeaseId, r: RecoveryLedger)
    requires RecoveryInv(c, r) && ClaimsInv(c)
    ensures RecoveryInv(Release(c, id), r)
  {
    hide RecoveryInv, Fenced, ActiveDisjoint, ActiveCurrent, ActiveFit;
    assert forall pid :: pid in c.packets ==> ClaimedPacket(c, pid);
    RecoveryFrame(c, Release(c, id), r);
  }

  /** The receipt `_persist_terminal` builds names its packet; status and effect must be right. */
  lemma NewReceiptFits(c: ClaimLedger, x: WorkLedger, p: TaskPacket, l: Lease,
                       receipt: TerminalReceipt)
    requires HoldsLease(c, p, l) && receipt.Authentic()
    requires receipt.body == ReceiptBody(p.body.missionId, p.body.missionRevision, p.id, l.leaseId,
                                         p.body.executorId, receipt.body.status,
                                         receipt.body.effectId, receipt.body.effectState,
                                         receipt.body.outputDigest, receipt.body.proofDigest,
                                         receipt.body.predicateSatisfied, receipt.body.failureCode,
                                         receipt.body.failureOrigin)
    requires receipt.body.status == Blocked <==> p.id !in x.started
    requires match receipt.body.effectId
             case Some(e) => receipt.body.effectState == Settled && e in x.owner && x.owner[e] == p.id
             case None => receipt.body.effectState == NoEffect
    ensures ReceiptFits(Release(c, l.leaseId), AddReceipt(x, receipt), p.id)
  {
  }

  /** Blocking either changes nothing or writes the BLOCKED receipt. */
  lemma BlockShape(s: Store, p: TaskPacket, l: Lease, code: FailureCode, detail: Detail)
    requires HoldsLease(s.claims, p, l) ==> p.id !in s.work.receiptOf
    ensures var o := TerminalizePreExecution(s, p, l, code, detail);
      && (!o.result.Ok? ==> o.store == s)
      && (o.result.Ok? ==>
            && p.id !in s.work.started && p.id !in s.work.receiptOf && HoldsLease(s.claims, p, l)
            && !HasUnsettledStep(s.steps, p.id)
            && o.store == s.(work := AddReceipt(s.work, o.result.value),
                             claims := Release(s.claims, l.leaseId))
            && o.result.value == Seal(ReceiptBody(p.body.missionId, p.body.missionRevision, p.id,
                                                  l.leaseId, p.body.executorId, Blocked, None,
                                                  NoEffect, PreExecutionBlock(code, detail), None,
                                                  false, Some(code), Some(HarnessOrigin))))
  {
  }

  lemma BlockKeepsInv(s: Store, p: TaskPacket, l: Lease, code: FailureCode, detail: Detail)
    requires Inv(s)
    ensures Inv(TerminalizePreExecution(s, p, l, code, detail).store)
  {
    HolderIsOpen(s, p, l);
    BlockShape(s, p, l, code, detail);
    hide TruthInv, ClaimsInv, WorkInv, StepsInv, RecoveryInv, RecoveryStepsInv, CallbacksInv,
         PacketsHaveMissions, AlmostWork, HasUnsettledStep, ReceiptFits, TerminalizePreExecution,
         AddReceipt, Release, HoldsLease;
    var o := TerminalizePreExecution(s, p, l, code, detail);
    if o.result.Ok? {
      UnstartedIsAlmost(s.claims, s.work, p.id);
      NewReceiptFits(s.claims, s.work, p, l, o.result.value);
      TerminalKeepsInv(s, s.work, p, l, o.result.value);
    }
  }

  lemma UnstartedIsAlmost(c: ClaimLedger, w: WorkLedger, pid: PacketId)
    requires WorkInv(c, w) && pid !in w.started
    ensures AlmostWork(c, w, pid)
  {
  }

  lemma FailKeepsInv(s: Store, p: TaskPacket, l: Lease, code: FailureCode, detail: Evidence,
                     seen: Option<string>, origin: FailureOrigin)
    requires Inv(s)
    ensures Inv(RecordExecutionFailure(s, p, l, code, detail, seen, origin).store)
  {
    hide TruthInv, ClaimsInv, WorkInv, StepsInv, RecoveryInv, RecoveryStepsInv, CallbacksInv,
         PacketsHaveMissions, AddFailure, ExecutorCode, ReconcilableCode;
    var o := RecordExecutionFailure(s, p, l, code, detail, seen, origin);
    if o.result.Ok? {
      FailureKeepsWork(s.claims, s.work, o.result.value);
      FailureOnlyAdds(s.work, o.result.value);
      StepsFrame(s.claims, s.work, s.claims, o.store.work, s.steps);
      CallbacksFrame(s.claims, s.work, s.claims, o.store.work, s.callbacks);
    }
  }

  lemma FailureOnlyAdds(w: WorkLedger, failure: ExecutionFailure)
    ensures var x := AddFailure(w, failure);
      && x.started == w.started && x.attempts == w.attempts
      && x.receipts == w.receipts && x.receiptOf == w.receiptOf
  {
  }

  /** The owner map a failure reconciliation leaves. */
  function OwnersAfter(w: WorkLedger, pid: PacketId, r: FailureReconciliation): map<string, PacketId>
    requires pid in w.failures
  {
    var seen := w.failures[pid].body.observedEffectId;
    if r.effectState == Settled then
      w.owner[(if r.effectId.Some? then r.effectId.value else "") := pid]
    else if seen.Some? && seen.value in w.owner && w.owner[seen.value] == pid
    then w.owner - {seen.value}
    else w.owner
  }

  lemma ReconcileFailureIsAlmost(c: ClaimLedger, w: WorkLedger, pid: PacketId,
                                 r: FailureReconciliation)
    requires WorkInv(c, w) && pid in w.failures && pid !in w.receiptOf
    requires r.effectState == Settled && r.effectId.Some? && r.effectId.value in w.owner ==>
               w.owner[r.effectId.value] == pid
    requires FailureReconciliationWellFormed(r)
    ensures AlmostWork(c, w.(owner := OwnersAfter(w, pid, r)), pid)
  {
    hide ReceiptsFit, AttemptsFit, ReceiptsIndexed, Partitioned, AlmostWork;
    assert FailureFits(c, w, pid);
    AssignKeepsAlmost(c, w, w.(owner := OwnersAfter(w, pid, r)), pid);
  }

  /** Reconciling a failure either changes nothing or writes the FAILED receipt. */
  lemma ReconcileFailureShape(s: Store, p: TaskPacket, l: Lease, r: FailureReconciliation)
    requires FailureReconciliationWellFormed(r)
    ensures var o := ReconcileFailure(s, p, l, r);
      && (!o.result.Ok? ==> o.store == s)
      && (o.result.Ok? ==>
            && p.id in s.work.failures && p.id !in s.work.receiptOf && HoldsLease(s.claims, p, l)
            && !HasUnsettledStep(s.steps, p.id)
            && (r.effectState == Settled && r.effectId.value in s.work.owner ==>
                  s.work.owner[r.effectId.value] == p.id)
            && (r.effectState == Settled && s.work.failures[p.id].body.observedEffectId.Some? ==>
                  r.effectId == s.work.failures[p.id].body.observedEffectId)
            && var x := s.work.(owner := OwnersAfter(s.work, p.id, r));
               var f := s.work.failures[p.id].body;
            && o.store == s.(work := AddReceipt(x, o.result.value),
                             claims := Release(s.claims, l.leaseId))
            && o.result.value == Seal(ReceiptBody(p.body.missionId, p.body.missionRevision, p.id,
                                                  l.leaseId, p.body.executorId, Failed, r.effectId,
                                                  r.effectState, r.outputDigest,
                                                  Some(r.proofDigest), false, Some(f.code),
                                                  Some(f.origin))))
  {
  }

  lemma ReconciledEffectIsOwned(w: WorkLedger, pid: PacketId, r: FailureReconciliation)
    requires pid in w.failures && FailureReconciliationWellFormed(r) && r.effectState == Settled
    ensures r.effectId.Some? && r.effectId.value in OwnersAfter(w, pid, r)
    ensures OwnersAfter(w, pid, r)[r.effectId.value] == pid
  {
  }

  lemma FailedWasStarted(c: ClaimLedger, w: WorkLedger, pid: PacketId)
    requires WorkInv(c, w) && pid in w.failures
    ensures pid in w.started
  {
  }

  lemma ReconcileFailureKeepsInv(s: Store, p: TaskPacket, l: Lease, r: FailureReconciliation)
    requires Inv(s) && FailureReconciliationWellFormed(r)
    ensures Inv(ReconcileFailure(s, p, l, r).store)
  {
    hide TruthInv, ClaimsInv, WorkInv, StepsInv, RecoveryInv, RecoveryStepsInv, CallbacksInv,
         AlmostWork, PacketsHaveMissions, HasUnsettledStep, ReconcileFailure, ReconcilableCode,
         ReceiptFits, OwnersAfter, HoldsLease, Release, AddReceipt;
    ReconcileFailureShape(s, p, l, r);
    var o := ReconcileFailure(s, p, l, r);
    if o.result.Ok? {
      var x := s.work.(owner := OwnersAfter(s.work, p.id, r));
      ReconcileFailureIsAlmost(s.claims, s.work, p.id, r);
      FailedWasStarted(s.claims, s.work, p.id);
      if r.effectState == Settled { ReconciledEffectIsOwned(s.work, p.id, r); }
      NewReceiptFits(s.claims, x, p, l, o.result.value);
      TerminalKeepsInv(s, x, p, l, o.result.value);
    }
  }

  // ---------------------------------------------------------------- results

  /** What recording a result does past its guards: a failure, an unsettled attempt or a receipt. */
  lemma RecordExecutionShape(s: Store, p: TaskPacket, l: Lease, r: ExecutionResult)
    requires ResultWellFormed(r)
    requires HoldsLease(s.claims, p, l) ==> p.id !in s.work.receiptOf
    ensures var o := RecordExecution(s, p, l, r);
      var x := s.work.(attempts := s.work.attempts[p.id := r],
                       owner := s.work.owner[r.effectId := p.id]);
      || (o.store == s && !o.result.Ok?)
      || (!o.result.Ok? && exists code, e ::
            o.store == RecordExecutionFailure(s, p, l, code, e, Some(r.effectId),
                                              HarnessOrigin).store)
      || (&& HoldsLease(s.claims, p, l) && !HasUnsettledStep(s.steps, p.id)
          && p.id in s.work.started && p.id !in s.work.attempts
          && r.executorId == p.body.executorId && r.packetId == p.id && r.leaseId == l.leaseId
          && r.effectId !in s.work.owner
          && if r.effectState == Settled
             then o.result.Ok?
                  && o.store == s.(work := AddReceipt(x, o.result.value),
                                   claims := Release(s.claims, l.leaseId))
                  && o.result.value == Seal(ReceiptBody(p.body.missionId, p.body.missionRevision,
                                                        p.id, l.leaseId, p.body.executorId,
                                                        Succeeded, Some(r.effectId), Settled,
                                                        r.outputDigest, Some(r.outputDigest),
                                                        r.predicateSatisfied, None, None))
             else o.store == s.(work := x) && o.result == Rejected(UnsettledEffect, EffectHasNoProof))
  {
    hide HasUnsettledStep, AddReceipt, Release, RecordExecutionFailure, NonBlank, EvidenceText;
  }

  /** A first result by a started packet: its effect is new and now its own. */
  lemma NewAttemptIsAlmost(c: ClaimLedger, w: WorkLedger, p: TaskPacket, l: Lease,
                           r: ExecutionResult)
    requires WorkInv(c, w) && HoldsLease(c, p, l) && p.id in w.started && p.id !in w.receiptOf
    requires r.executorId == p.body.executorId && r.packetId == p.id && r.leaseId == l.leaseId
    requires r.effectId !in w.owner && NonBlank(r.effectId)
    ensures var x := w.(attempts := w.attempts[p.id := r], owner := w.owner[r.effectId := p.id]);
      AlmostWork(c, x, p.id) && (r.effectState == Unsettled ==> WorkInv(c, x))
  {
    hide ReceiptsFit, ReceiptsIndexed, AttemptsFit, Partitioned, FailuresFit, StartedFit;
    var x := w.(attempts := w.attempts[p.id := r], owner := w.owner[r.effectId := p.id]);
    AssignKeepsAlmost(c, w, x, p.id);
    if r.effectState == Unsettled { AlmostWithAttempt(c, x, p.id); }
  }

  lemma AlmostWithAttempt(c: ClaimLedger, x: WorkLedger, pid: PacketId)
    requires AlmostWork(c, x, pid) && pid in x.attempts && AttemptFits(c, x, pid)
    ensures WorkInv(c, x)
  {
  }

  lemma AttemptKeepsInv(s: Store, p: TaskPacket, l: Lease, r: ExecutionResult)
    requires Inv(s) && HoldsLease(s.claims, p, l) && !HasUnsettledStep(s.steps, p.id)
    requires p.id in s.work.started && p.id !in s.work.receiptOf
    requires r.executorId == p.body.executorId && r.packetId == p.id && r.leaseId == l.leaseId
    requires r.effectId !in s.work.owner && r.effectState != NoEffect && NonBlank(r.effectId)
    ensures var x := s.work.(attempts := s.work.attempts[p.id := r],
                             owner := s.work.owner[r.effectId := p.id]);
      && (r.effectState == Unsettled ==> Inv(s.(work := x)))
      && (r.effectState == Settled ==> forall receipt: TerminalReceipt ::
            receipt.Authentic()
            && receipt.body == ReceiptBody(p.body.missionId, p.body.missionRevision, p.id, l.leaseId,
                                           p.body.executorId, Succeeded, Some(r.effectId), Settled,
                                           r.outputDigest, Some(r.outputDigest),
                                           r.predicateSatisfied, None, None)
            ==> Inv(s.(work := AddReceipt(x, receipt), claims := Release(s.claims, l.leaseId))))
  {
    hide TruthInv, ClaimsInv, WorkInv, StepsInv, RecoveryInv, RecoveryStepsInv, CallbacksInv,
         AlmostWork, PacketsHaveMissions, HasUnsettledStep, ReceiptFits;
    var x := s.work.(attempts := s.work.attempts[p.id := r],
                     owner := s.work.owner[r.effectId := p.id]);
    NewAttemptIsAlmost(s.claims, s.work, p, l, r);
    if r.effectState == Unsettled {
      StepsFrame(s.claims, s.work, s.claims, x, s.steps);
      CallbacksFrame(s.claims, s.work, s.claims, x, s.callbacks);
    } else {
      forall receipt: TerminalReceipt |
        receipt.Authentic()
        && receipt.body == ReceiptBody(p.body.missionId, p.body.missionRevision, p.id, l.leaseId,
                                       p.body.executorId, Succeeded, Some(r.effectId), Settled,
                                       r.outputDigest, Some(r.outputDigest),
                                       r.predicateSatisfied, None, None)
        ensures Inv(s.(work := AddReceipt(x, receipt), claims := Release(s.claims, l.leaseId)))
      {
        NewReceiptFits(s.claims, x, p, l, receipt);
        hide AddReceipt, Release;
        TerminalKeepsInv(s, x, p, l, receipt);
      }
    }
  }

  lemma HolderIsOpen(s: Store, p: TaskPacket, l: Lease)
    requires Inv(s)
    ensures HoldsLease(s.claims, p, l) ==> p.id !in s.work.receiptOf
  {
    if HoldsLease(s.claims, p, l) { LeasedIsOpen(s, p.id); }
  }

  lemma RecordExecutionKeepsInv(s: Store, p: TaskPacket, l: Lease, r: ExecutionResult)
    requires Inv(s) && ResultWellFormed(r)
    ensures Inv(RecordExecution(s, p, l, r).store)
  {
    HolderIsOpen(s, p, l);
    RecordExecutionShape(s, p, l, r);
    hide Inv, RecordExecution, HasUnsettledStep, AddReceipt, Release, RecordExecutionFailure,
         NonBlank, EvidenceText;
    var o := RecordExecution(s, p, l, r);
    if o.store != s {
      if code, e :| o.store == RecordExecutionFailure(s, p, l, code, e, Some(r.effectId),
                                                      HarnessOrigin).store {
        FailKeepsInv(s, p, l, code, e, Some(r.effectId), HarnessOrigin);
      } else {
        AttemptKeepsInv(s, p, l, r);
      }
    }
  }

  /** Settling an attempt either changes nothing or writes the SUCCEEDED receipt. */
  lemma ReconcileEffectShape(s: Store, p: TaskPacket, l: Lease, r: EffectReconciliation)
    requires HoldsLease(s.claims, p, l) ==> p.id !in s.work.receiptOf
    ensures var o := ReconcileEffect(s, p, l, r);
      && (!o.result.Ok? ==> o.store == s)
      && (o.result.Ok? ==>
            && p.id in s.work.attempts && s.work.attempts[p.id].effectState == Unsettled
            && HoldsLease(s.claims, p, l) && !HasUnsettledStep(s.steps, p.id)
            && r.effectId == s.work.attempts[p.id].effectId && r.effectState == Settled
            && var a := s.work.attempts[p.id].(effectState := Settled);
            && o.store == s.(work := AddReceipt(s.work.(attempts := s.work.attempts[p.id := a]),
                                                o.result.value),
                             claims := Release(s.claims, l.leaseId))
            && o.result.value == Seal(ReceiptBody(p.body.missionId, p.body.missionRevision, p.id,
                                                  l.leaseId, p.body.executorId, Succeeded,
                                                  Some(a.effectId), Settled, a.outputDigest,
                                                  Some(r.proofDigest), a.predicateSatisfied, None,
                                                  None)))
  {
  }

  lemma SettledAttemptIsAlmost(c: ClaimLedger, w: WorkLedger, pid: PacketId)
    requires WorkInv(c, w) && pid in w.attempts && pid !in w.receiptOf
    ensures var a := w.attempts[pid].(effectState := Settled);
      AlmostWork(c, w.(attempts := w.attempts[pid := a]), pid)
    ensures pid in w.started
    ensures w.attempts[pid].effectId in w.owner && w.owner[w.attempts[pid].effectId] == pid
  {
    hide ReceiptsFit, ReceiptsIndexed, Partitioned, FailuresFit, StartedFit;
    assert AttemptFits(c, w, pid);
    hide AttemptsFit, AlmostWork;
    AssignKeepsAlmost(c, w, w.(attempts := w.attempts[pid := w.attempts[pid].(effectState := Settled)]),
                      pid);
  }

  lemma ReconcileEffectKeepsInv(s: Store, p: TaskPacket, l: Lease, r: EffectReconciliation)
    requires Inv(s)
    ensures Inv(ReconcileEffect(s, p, l, r).store)
  {
    HolderIsOpen(s, p, l);
    ReconcileEffectShape(s, p, l, r);
    hide TruthInv, ClaimsInv, WorkInv, StepsInv, RecoveryInv, RecoveryStepsInv, CallbacksInv,
         AlmostWork, PacketsHaveMissions, HasUnsettledStep, ReceiptFits, ReconcileEffect,
         AddReceipt, Release, HoldsLease;
    var o := ReconcileEffect(s, p, l, r);
    if o.result.Ok? {
      SettledAttemptIsAlmost(s.claims, s.work, p.id);
      var x := s.work.(attempts := s.work.attempts[p.id := s.work.attempts[p.id].(effectState := Settled)]);
      NewReceiptFits(s.claims, x, p, l, o.result.value);
      TerminalKeepsInv(s, x, p, l, o.result.value);
    }
  }

  // ---------------------------------------------------------------- continuations

  lemma AuthoritativeHasPacket(s: Store, receipt: TerminalReceipt)
    requires Inv(s) && Authoritative(s.work, receipt)
    ensures receipt.Authentic() && receipt.body.packetId in s.work.receiptOf
    ensures s.work.receiptOf[receipt.body.packetId] == receipt
    ensures receipt.body.packetId in s.claims.packets
  {
    hide TruthInv, ClaimsInv, StepsInv, RecoveryInv, RecoveryStepsInv, CallbacksInv,
         PacketsHaveMissions, AttemptsFit, FailuresFit, StartedFit, ReceiptsFit;
  }

  lemma PrepareKeepsInv(s: Store, receipt: TerminalReceipt)
    requires Inv(s)
    ensures Inv(PrepareContinuation(s, receipt).store)
  {
    hide TruthInv, ClaimsInv, WorkInv, StepsInv, RecoveryInv, RecoveryStepsInv, CallbacksInv,
         PacketsHaveMissions, AddContinuation, ContinuationFor;
    var o := PrepareContinuation(s, receipt);
    if o.store != s { PrepareKeepsCallbacks(s.claims, s.work, s.callbacks, receipt, o.result.value); }
  }

  lemma DeliverKeepsInv(s: Store, n: Continuation, receipt: TerminalReceipt)
    requires Inv(s)
    ensures Inv(BeginDelivery(s, n, receipt).store)
  {
    hide TruthInv, ClaimsInv, WorkInv, StepsInv, RecoveryInv, RecoveryStepsInv, CallbacksInv,
         PacketsHaveMissions;
    var o := BeginDelivery(s, n, receipt);
    if o.store != s { MoveKeepsCallbacks(s.claims, s.work, s.callbacks, o.result.value); }
  }

  lemma UnsettleKeepsInv(s: Store, n: Continuation, receipt: TerminalReceipt)
    requires Inv(s)
    ensures Inv(MarkDeliveryUnsettled(s, n, receipt).store)
  {
    hide TruthInv, ClaimsInv, WorkInv, StepsInv, RecoveryInv, RecoveryStepsInv, CallbacksInv,
         PacketsHaveMissions;
    var o := MarkDeliveryUnsettled(s, n, receipt);
    if o.store != s { MoveKeepsCallbacks(s.claims, s.work, s.callbacks, o.result.value); }
  }

  lemma AcknowledgeKeepsInv(s: Store, n: Continuation, receipt: TerminalReceipt,
                            proof: ConvergenceProof, expected: ContinuationState)
    requires Inv(s)
    ensures Inv(AcknowledgeDelivery(s, n, receipt, proof, expected).store)
  {
    hide TruthInv, ClaimsInv, WorkInv, StepsInv, RecoveryInv, RecoveryStepsInv, CallbacksInv,
         PacketsHaveMissions, AckFor, NonBlank;
    var o := AcknowledgeDelivery(s, n, receipt, proof, expected);
    if o.store != s {
      var k := PutContinuation(s.callbacks, n.(state := Acknowledged));
      MoveKeepsCallbacks(s.claims, s.work, s.callbacks, n.(state := Acknowledged));
      SameContinuations(s.claims, s.work, k, o.store.callbacks);
    }
  }

  lemma ReconcileContinuationKeepsInv(s: Store, receipt: TerminalReceipt,
                                      r: ContinuationReconciliation, proof: Option<DeliveryProof>)
    requires Inv(s)
    ensures Inv(ReconcileContinuation(s, receipt, r, proof).store)
  {
    hide TruthInv, ClaimsInv, WorkInv, StepsInv, RecoveryInv, RecoveryStepsInv, CallbacksInv,
         PacketsHaveMissions, AcknowledgeDelivery, AbsenceExact, Authoritative, CallbacksInv;
    var o := ReconcileContinuation(s, receipt, r, proof);
    if o.store != s {
      assert r.continuationId in s.callbacks.continuations;
      var current := s.callbacks.continuations[r.continuationId];
      CurrentHasId(s, r.continuationId);
      if r.state == NotCommitted {
        MoveKeepsCallbacks(s.claims, s.work, s.callbacks, current.(state := Prepared));
      } else {
        AcknowledgeKeepsInv(s, current, receipt, proof.value.proof, DeliveryUnsettled);
      }
    }
  }

  lemma CurrentHasId(s: Store, id: ContinuationId)
    requires CallbacksInv(s.claims, s.work, s.callbacks) && id in s.callbacks.continuations
    ensures s.callbacks.continuations[id].continuationId == id
  {
  }

  // ---------------------------------------------------------------- runs

  lemma ApplyKeepsInv(s: Store, call: Call)
    requires Inv(s) && WellFormed(call)
    ensures Inv(Apply(s, call))
  {
    hide Inv, MissionWellFormed, StepWellFormed, FailureReconciliationWellFormed, ResultWellFormed;
    hide RegisterMission, RecordRouteDisposition, RecordMissionSupersession, Claim, BeginExecution,
         RecordStepAttempt, ReconcileStepEffect, RecordBlocker, AdmitRecovery,
         TerminalizePreExecution, RecordExecutionFailure, ReconcileFailure, RecordExecution,
         ReconcileEffect, PrepareContinuation, BeginDelivery, MarkDeliveryUnsettled,
         AcknowledgeDelivery, ReconcileContinuation, VerifyMission;
    match call
    case DoRegister(m) => RegisterKeepsInv(s, m);
    case DoDispose(d) => DisposeKeepsInv(s, d);
    case DoSupersede(d) => SupersedeKeepsInv(s, d);
    case DoClaim(p) => ClaimKeepsInv(s, p);
    case DoBegin(p, l) => BeginKeepsInv(s, p, l);
    case DoStep(p, l, step) => RecordStepKeepsInv(s, p, l, step);
    case DoReconcileStep(p, l, r) => ReconcileStepKeepsInv(s, p, l, r);
    case DoBlocker(p, l, b) => BlockerKeepsInv(s, p, l, b);
    case DoAdmit(p, l, b, q) => AdmitKeepsInv(s, p, l, b, q);
    case DoBlock(p, l, code, d) => BlockKeepsInv(s, p, l, code, d);
    case DoFail(p, l, code, e, seen, origin) => FailKeepsInv(s, p, l, code, e, seen, origin);
    case DoReconcileFailure(p, l, r) => ReconcileFailureKeepsInv(s, p, l, r);
    case DoResult(p, l, r) => RecordExecutionKeepsInv(s, p, l, r);
    case DoReconcileEffect(p, l, r) => ReconcileEffectKeepsInv(s, p, l, r);
    case DoPrepare(r) => PrepareKeepsInv(s, r);
    case DoDeliver(k, r) => DeliverKeepsInv(s, k, r);
    case DoUnsettle(k, r) => UnsettleKeepsInv(s, k, r);
    case DoAcknowledge(k, r, proof) => AcknowledgeKeepsInv(s, k, r, proof, DeliveryStarted);
    case DoReconcileContinuation(r, c, proof) => ReconcileContinuationKeepsInv(s, r, c, proof);
    case DoVerify(ack, readback) => VerifyKeepsInv(s, ack, readback);
  }

  lemma EmptyHoldsInv()
    ensures Inv(EMPTY)
  {
    forall pid ensures BudgetExact(EMPTY.claims, EMPTY.recovery, pid) {
      assert AdmittedFor(EMPTY.recovery, pid) == {};
    }
  }

  /** Every state reachable from the empty store, by any calls in any order, satisfies `Inv`. */
  lemma {:induction false} ReachableKeepsInv(calls: seq<Call>)
    requires AllWellFormed(calls)
    ensures Inv(Run(EMPTY, calls))
  {
    hide Inv, Apply, WellFormed;
    if |calls| == 0 {
      EmptyHoldsInv();
    } else {
      ReachableKeepsInv(calls[..|calls| - 1]);
      ApplyKeepsInv(Run(EMPTY, calls[..|calls| - 1]), calls[|calls| - 1]);
    }
  }
}
