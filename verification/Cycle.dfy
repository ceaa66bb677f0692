/** One whole cycle, `CollaborationHarness.run`, from any reachable state: with an executor that
    settles and a destination that converges, every step is accepted and the mission moves exactly as
    the parent's readback says. */
module Cycle {
  import opened Records
  import opened StoreSpec
  import opened StoreInvariant
  import opened TruthSafety
  import opened StoreSafety
  import opened Frames
  import opened MissionTruth
  import opened Planning
  import opened Histories

  /** What the outside world contributes to a successful cycle. */
  datatype Outside = Outside(effectId: string, output: string, satisfied: bool,
                             resumeToken: string, turnId: string, readback: SnapshotReadback)

  function ResultOf(p: TaskPacket, l: Lease, w: Outside): ExecutionResult {
    ExecutionResult(p.body.executorId, p.id, l.leaseId, w.effectId, Settled, Given(w.output),
                    w.satisfied)
  }

  function ResumeOf(c: Continuation, w: Outside): ResumeProof {
    ResumeProof(c.continuationId, c.destination, w.resumeToken)
  }

  function TurnOf(c: Continuation, receipt: TerminalReceipt, w: Outside): ConvergenceProof {
    Seal(ConvergenceBody(c.continuationId, receipt.id, c.destination, c.turnRequestId, w.turnId, true))
  }

  /** The states the cycle passes through after the plan. */
  function Claimed(s: Store, p: TaskPacket): Store { Claim(s, p).store }

  function Started(s: Store, p: TaskPacket): Store {
    BeginExecution(Claimed(s, p), p, LeaseFor(p)).store
  }

  function Executed(s: Store, p: TaskPacket, w: Outside): Outcome<TerminalReceipt> {
    RecordExecution(Started(s, p), p, LeaseFor(p), ResultOf(p, LeaseFor(p), w))
  }

  function ReceiptOf(p: TaskPacket, w: Outside): TerminalReceipt {
    Seal(ReceiptBody(p.body.missionId, p.body.missionRevision, p.id, LeaseFor(p).leaseId,
                     p.body.executorId, Succeeded, Some(w.effectId), Settled, Given(w.output),
                     Some(Given(w.output)), w.satisfied, None, None))
  }

  // ---------------------------------------------------------------- a packet never seen before

  /** Nothing in the store refers to the packet. */
  ghost predicate Unseen(s: Store, pid: PacketId) {
    && pid !in s.claims.leases && pid !in s.work.started && pid !in s.work.receiptOf
    && pid !in s.work.attempts && pid !in s.work.failures && !HasUnsettledStep(s.steps, pid)
    && (forall id :: id in s.work.receipts ==> s.work.receipts[id].body.packetId != pid)
  }

  lemma UnclaimedIsUnseen(s: Store, pid: PacketId)
    requires Inv(s) && pid !in s.claims.leases
    ensures Unseen(s, pid)
  {
    hide Inv, TruthInv, RecoveryInv, RecoveryStepsInv, CallbacksInv, PacketsHaveMissions,
         ClaimsInv, WorkInv, StepsInv, HasUnsettledStep;
    InvParts(s);
    UnclaimedHasNoWork(s.claims, s.work, pid);
    UnclaimedHasNoSteps(s, pid);
  }

  lemma UnclaimedHasNoWork(c: ClaimLedger, w: WorkLedger, pid: PacketId)
    requires ClaimsInv(c) && WorkInv(c, w) && pid !in c.leases
    ensures pid !in w.started && pid !in w.receiptOf && pid !in w.attempts && pid !in w.failures
    ensures forall id :: id in w.receipts ==> w.receipts[id].body.packetId != pid
  {
  }

  lemma UnclaimedHasNoSteps(s: Store, pid: PacketId)
    requires StepsInv(s.claims, s.work, s.steps) && pid !in s.claims.leases
    ensures !HasUnsettledStep(s.steps, pid)
  {
    assert LedgerFits(s.steps, pid);
    forall id | id in s.steps.steps ensures s.steps.steps[id].body.packetId in s.claims.leases {
      assert StepFits(s.claims, s.work, s.steps, id);
    }
  }

  // ---------------------------------------------------------------- step by step

  lemma CycleClaims(s: Store, p: TaskPacket)
    requires Claim(s, p).result == Ok(LeaseFor(p))
    ensures Claimed(s, p) == s.(claims := Issue(s.claims, p))
    ensures HoldsLease(Claimed(s, p).claims, p, LeaseFor(p))
    ensures ValidatePacket(s.truth, p).Ok? && p.id !in s.claims.leases
  {
    hide ValidatePacket, ScopeSnapshot, BumpScope;
  }

  lemma CycleExecutes(s: Store, p: TaskPacket, w: Outside)
    requires Claim(s, p).result == Ok(LeaseFor(p)) && Unseen(s, p.id)
    requires w.effectId !in s.work.owner
    ensures BeginExecution(Claimed(s, p), p, LeaseFor(p)).result == Ok(())
    ensures Executed(s, p, w).result == Ok(ReceiptOf(p, w))
    ensures var t := Executed(s, p, w).store;
      && t.truth == s.truth && t.callbacks == s.callbacks
      && t.claims == Release(Issue(s.claims, p), LeaseFor(p).leaseId)
      && t.work.receipts == s.work.receipts[ReceiptOf(p, w).id := ReceiptOf(p, w)]
      && t.work.receiptOf == s.work.receiptOf[p.id := ReceiptOf(p, w)]
      && t.work.owner == s.work.owner[w.effectId := p.id]
  {
    hide ValidatePacket, HasUnsettledStep, Claim, LeaseFor, Issue, HoldsLease, Release;
    CycleClaims(s, p);
  }

  /** The callback half: prepare, check, resume, deliver, acknowledge. */
  ghost predicate Converges(s: Store, receipt: TerminalReceipt, w: Outside, t: Store,
                            ack: Acknowledgement) {
    var a := PrepareContinuation(s, receipt);
    && a.result.Ok? && a.result.value.state == Prepared
    && ValidatePreparedContinuation(a.store, a.result.value, receipt) == Ok(())
    && ValidateResume(a.store, a.result.value, ResumeOf(a.result.value, w)) == Ok(a.result.value)
    && var b := BeginDelivery(a.store, a.result.value, receipt);
    && b.result.Ok?
    && var c := AcknowledgeAfterConvergence(b.store, b.result.value, receipt,
                                            TurnOf(b.result.value, receipt, w));
    && c.result.Ok? && c.store == t && c.result.value.1 == ack
  }

  lemma CycleConverges(s: Store, receipt: TerminalReceipt, w: Outside)
    returns (t: Store, ack: Acknowledgement)
    requires Authoritative(s.work, receipt) && receipt.id !in s.callbacks.byReceipt
    requires receipt.body.packetId in s.claims.packets
    requires NonBlank(w.resumeToken) && NonBlank(w.turnId)
    ensures Converges(s, receipt, w, t, ack)
    ensures t == s.(callbacks := t.callbacks) && ack.Authentic()
    ensures ack.base.packetId == receipt.body.packetId && ack.base.receiptId == receipt.id
    ensures ack.acknowledgementId in t.callbacks.acks
    ensures t.callbacks.acks[ack.acknowledgementId] == ack
    ensures ack.base.continuationId in t.callbacks.continuations
    ensures t.callbacks.continuations[ack.base.continuationId].state == Acknowledged
    ensures t.callbacks.continuations[ack.base.continuationId].receiptId == receipt.id
  {
    hide NonBlank, Authoritative;
    var a := PrepareContinuation(s, receipt);
    var b := BeginDelivery(a.store, a.result.value, receipt);
    var c := AcknowledgeAfterConvergence(b.store, b.result.value, receipt,
                                         TurnOf(b.result.value, receipt, w));
    t, ack := c.store, c.result.value.1;
  }

  lemma NewReceiptIsUnprepared(s: Store, receipt: TerminalReceipt)
    requires CallbacksInv(s.claims, s.work, s.callbacks) && receipt.id !in s.work.receipts
    ensures receipt.id !in s.callbacks.byReceipt
  {
  }

  /** The parent reads the whole mission at a newer sequence than it did before. */
  ghost predicate NewReadback(t: MissionLedger, m: Mission, readback: SnapshotReadback) {
    var b := readback.body;
    && readback.Authentic() && b.missionId == m.missionId && b.missionRevision == m.revision
    && SameKeys(m, b.predicates)
    && ((m.missionId, m.revision) in t.snapshots ==>
          t.snapshots[(m.missionId, m.revision)].body.sequence < b.sequence)
  }

  lemma CycleVerifies(s: Store, m: Mission, ack: Acknowledgement, readback: SnapshotReadback)
    requires MissionsFit(s.truth) && NewReadback(s.truth, m, readback) && ack.Authentic()
    requires m.missionId in s.truth.missions && s.truth.missions[m.missionId] == m
    requires ack.acknowledgementId in s.callbacks.acks
    requires s.callbacks.acks[ack.acknowledgementId] == ack
    requires ack.base.packetId in s.claims.packets
    requires var p := s.claims.packets[ack.base.packetId].body;
      && p.missionId == m.missionId && p.missionRevision == m.revision
      && exists i :: 0 <= i < |m.predicates| && m.predicates[i].key == p.predicateKey
    ensures VerifyMission(s, ack, readback).result.Ok?
  {
    var p := s.claims.packets[ack.base.packetId].body;
    var i :| 0 <= i < |m.predicates| && m.predicates[i].key == p.predicateKey;
    assert readback.body.predicates[i].key == p.predicateKey;
    hide VerificationFor, MissionWellFormed;
  }

  lemma RegisterIsWellFormed(m: Mission)
    requires MissionWellFormed(m)
    ensures WellFormed(DoRegister(m))
  {
  }

  lemma ReceiptIsNew(s: Store, p: TaskPacket, w: Outside)
    requires WorkInv(s.claims, s.work) && Unseen(s, p.id)
    ensures ReceiptOf(p, w).id !in s.work.receipts
    ensures ReceiptOf(p, w).body.packetId == p.id
  {
  }

  /** The plan names its mission and its first false predicate. */
  lemma PlannedPacketTargets(s: Store, m: Mission)
    requires Plan(s, m, None).result.Ok? && MissionWellFormed(m)
    ensures var p := Plan(s, m, None).result.value;
      && p.Authentic() && p.body.missionId == m.missionId && p.body.missionRevision == m.revision
      && exists i :: 0 <= i < |m.predicates| && m.predicates[i].key == p.body.predicateKey
  {
    PlanShape(s, m, None);
    hide Plan, Eligible, EligibleRoutes, Least;
    var t, p := Plan(s, m, None).store, Plan(s, m, None).result.value;
    var q, r :| Picks(t, m, None, p, q, r);
    var ts := Truths(t.truth, m);
    var k := FirstIndex(ts, Unsatisfied);
    assert m.predicates[k] == q;
  }

  lemma ClaimStays(s: Store, p: TaskPacket)
    ensures var c := Release(Issue(s.claims, p), LeaseFor(p).leaseId);
      && p.id in c.packets && c.packets[p.id] == p && LeaseFor(p).leaseId !in c.active
      && (forall x :: x in p.body.scope ==> Version(c.versions, x) == Version(s.claims.versions, x) + 1)
      && (forall x :: x !in p.body.scope ==> Version(c.versions, x) == Version(s.claims.versions, x))
  {
  }

  // ---------------------------------------------------------------- the cycle

  /** Everything a finished cycle leaves: the receipt with the executor's effect, the lease gone and
      the scope one version on, the continuation acknowledged, and a verification that states the
      readback and agrees with the next `first_false`. */
  ghost predicate Completed(s: Store, p: TaskPacket, w: Outside, m: Mission, t: Store,
                            v: MissionVerification) {
    && p.id in t.work.receiptOf && t.work.receiptOf[p.id] == ReceiptOf(p, w)
    && w.effectId in t.work.owner && t.work.owner[w.effectId] == p.id
    && LeaseFor(p).leaseId !in t.claims.active
    && (forall x :: x in p.body.scope ==> Version(t.claims.versions, x) == Version(s.claims.versions, x) + 1)
    && (forall x :: x !in p.body.scope ==> Version(t.claims.versions, x) == Version(s.claims.versions, x))
    && (exists c :: c in t.callbacks.continuations && t.callbacks.continuations[c].state == Acknowledged
                    && t.callbacks.continuations[c].receiptId == ReceiptOf(p, w).id)
    && v.Authentic() && v.body.predicateKey == p.body.predicateKey
    && v.body.readbackId == w.readback.id
    && m.missionId in t.truth.missions && t.truth.missions[m.missionId] == m
    && ScanAgrees(t.truth, m, v.body)
  }

  /** From any reachable state: when the plan is made, its scope is free, the executor settles a new
      effect, the destination resumes and completes its turn and the parent reads the mission anew,
      every call and every check of the cycle is passed and it completes. */
  lemma CycleCompletes(h: seq<Store>, calls: seq<Call>, n: nat, m: Mission, w: Outside)
    returns (t: Store, v: MissionVerification)
    requires IsHistory(h, calls) && n <= |calls| && MissionWellFormed(m)
    requires Plan(h[n], m, None).result.Ok?
    requires var o := Plan(h[n], m, None);
      && ScopeIsFree(o.store.claims, o.result.value.body.scope)
      && w.effectId !in o.store.work.owner && NonBlank(w.resumeToken) && NonBlank(w.turnId)
      && NewReadback(o.store.truth, m, w.readback)
    ensures var o := Plan(h[n], m, None);
            var s, p := o.store, o.result.value;
      && Claim(s, p).result == Ok(LeaseFor(p))
      && Executed(s, p, w).result == Ok(ReceiptOf(p, w))
      && (exists u, ack :: Converges(Executed(s, p, w).store, ReceiptOf(p, w), w, u, ack)
            && VerifyMission(u, ack, w.readback) == Outcome(t, Ok(v)))
      && Completed(s, p, w, m, t, v)
  {
    hide WellFormed, MissionWellFormed, Plan, Inv, TruthInv, ClaimsInv, WorkInv, StepsInv,
         RecoveryInv, RecoveryStepsInv, CallbacksInv, PacketsHaveMissions, Claim, Executed,
         Unseen, NewReadback, Completed, LeaseFor, ReceiptOf, Apply, FirstFalse, ValidatePacket,
         MissionsFit, Issue, Release, NonBlank, VerifyMission;
    var o := Plan(h[n], m, None);
    var s, p := o.store, o.result.value;
    FreshPlansAreNeverStale(h, calls, n, m, None);
    PlanRegisters(h[n], m, None);
    HistoryKeepsInv(h, calls, n);
    RegisterIsWellFormed(m);
    ApplyKeepsInv(h[n], DoRegister(m));
    InvParts(s);
    CycleClaims(s, p);
    UnclaimedIsUnseen(s, p.id);
    CycleExecutes(s, p, w);
    var receipt := ReceiptOf(p, w);
    ReceiptIsNew(s, p, w);
    var e := Executed(s, p, w).store;
    ClaimStays(s, p);
    NewReceiptIsUnprepared(s, receipt);
    var u, ack := CycleConverges(e, receipt, w);
    PlannedPacketTargets(h[n], m);
    assert MissionsFit(s.truth) by { MissionsOf(s.truth); }
    CycleVerifies(u, m, ack, w.readback);
    t, v := VerifyMission(u, ack, w.readback).store, VerifyMission(u, ack, w.readback).result.value;
    CycleEnds(s, p, w, m, u, ack);
  }

  lemma CycleEnds(s: Store, p: TaskPacket, w: Outside, m: Mission, u: Store, ack: Acknowledgement)
    requires VerifyMission(u, ack, w.readback).result.Ok? && TruthInv(u.truth)
    requires NewReadback(u.truth, m, w.readback) && u.claims.packets.Keys >= {p.id}
    requires ack.base.packetId == p.id && u.claims.packets[p.id] == p
    requires p.id in u.work.receiptOf && u.work.receiptOf[p.id] == ReceiptOf(p, w)
    requires w.effectId in u.work.owner && u.work.owner[w.effectId] == p.id
    requires LeaseFor(p).leaseId !in u.claims.active
    requires forall x :: x in p.body.scope ==>
               Version(u.claims.versions, x) == Version(s.claims.versions, x) + 1
    requires forall x :: x !in p.body.scope ==>
               Version(u.claims.versions, x) == Version(s.claims.versions, x)
    requires ack.base.continuationId in u.callbacks.continuations
    requires u.callbacks.continuations[ack.base.continuationId].state == Acknowledged
    requires u.callbacks.continuations[ack.base.continuationId].receiptId == ReceiptOf(p, w).id
    requires m.missionId in u.truth.missions && u.truth.missions[m.missionId] == m
    ensures var o := VerifyMission(u, ack, w.readback);
      Completed(s, p, w, m, o.store, o.result.value)
  {
    hide LeaseFor, ReceiptOf, Version, MissionWellFormed, SameKeys, FirstFalse, NextOf, TruthInv,
         VerifyMission, ScanAgrees, StoreReadback, Storable, ReadbackOf;
    AcceptedReadbackIsStored(u, ack, w.readback);
    var o := VerifyMission(u, ack, w.readback);
    var key := (m.missionId, m.revision);
    ReadbackScan(o.store.truth, m, w.readback);
    VerdictScan(o.store.truth, m, ack, p.body.predicateKey, w.readback, o.result.value);
    VerifyTouchesTruthOnly(u, ack, w.readback);
  }

  lemma VerifyTouchesTruthOnly(s: Store, ack: Acknowledgement, readback: SnapshotReadback)
    ensures var t := VerifyMission(s, ack, readback).store;
      t == s.(truth := t.truth) && t.truth.missions == s.truth.missions
  {
    hide VerificationFor, ReadbackOf, SameKeys;
  }

  /** What the readback asks for next is what the verification announces. */
  lemma VerdictScan(t: MissionLedger, m: Mission, ack: Acknowledgement, key: string,
                    readback: SnapshotReadback, v: MissionVerification)
    requires exists truth :: v == VerificationFor(ack, key, truth, readback)
    requires var next := NextOf(readback.body.predicates);
      match next.0
      case ReadbackRecheck => && next.1.Some?
                              && FirstFalse(t, m) == Rejected(MissionReadbackIndeterminate,
                                                              PredicateIndeterminate(next.1.value))
      case MissionComplete => next.1 == None && FirstFalse(t, m) == Ok(None)
      case RouteSelection => && FirstFalse(t, m).Ok? && FirstFalse(t, m).value.Some?
                             && next.1 == Some(FirstFalse(t, m).value.value.key)
                             && FirstFalse(t, m).value.value in m.predicates
    ensures ScanAgrees(t, m, v.body) && v.Authentic() && v.body.predicateKey == key
    ensures v.body.readbackId == readback.id
  {
  }
}
