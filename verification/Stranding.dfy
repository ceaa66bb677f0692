/** Exactly which leased packets can still be closed, and which hold their lease for ever. */
module Stranding {
  import opened Records
  import opened StoreSpec
  import opened StoreInvariant
  import opened TruthSafety
  import opened StoreSafety
  import opened Frames
  import opened MissionTruth
  import opened Closing
  import opened Histories

  // ---------------------------------------------------------------- current packets

  ghost predicate Current(t: MissionLedger, p: PacketBody) {
    p.missionId in t.missions && t.missions[p.missionId].revision == p.missionRevision
  }

  ghost predicate Targets(t: MissionLedger, p: PacketBody)
    requires p.missionId in t.missions
  {
    var scan := FirstFalse(t, t.missions[p.missionId]);
    scan.Ok? && scan.value.Some? && scan.value.value.key == p.predicateKey
  }

  /** A claimed packet of the current revision matches its route, and targets the first false
      predicate for as long as no readback of that revision is stored. */
  ghost predicate OnRoute(t: MissionLedger, p: PacketBody) {
    Current(t, p) ==>
      && RouteMatches(p, t.missions[p.missionId], FindRoute(t.missions[p.missionId].routes, p.routeId))
      && ((p.missionId, p.missionRevision) in t.snapshots || Targets(t, p))
  }

  ghost predicate PacketsOnRoute(t: MissionLedger, c: ClaimLedger) {
    forall pid :: pid in c.packets ==> OnRoute(t, c.packets[pid].body)
  }

  ghost predicate AcksAuthentic(k: CallbackLedger) {
    forall id :: id in k.acks ==> k.acks[id].acknowledgementId == id && k.acks[id].Authentic()
  }

  ghost predicate AcksGrow(k: CallbackLedger, x: CallbackLedger) {
    forall id :: id in k.acks ==> id in x.acks && x.acks[id] == k.acks[id]
  }

  /** The acknowledgement lets the parent read revision `key` again. */
  ghost predicate Readable(c: ClaimLedger, k: CallbackLedger, id: AckId, key: SnapshotKey) {
    && id in k.acks && k.acks[id].base.packetId in c.packets
    && (c.packets[k.acks[id].base.packetId].body.missionId,
        c.packets[k.acks[id].base.packetId].body.missionRevision) == key
  }

  ghost predicate SnapshotsReadable(t: MissionLedger, c: ClaimLedger, k: CallbackLedger) {
    forall key :: key in t.snapshots ==> exists id :: Readable(c, k, id, key)
  }

  ghost predicate Reopenable(s: Store) {
    && PacketsOnRoute(s.truth, s.claims) && AcksAuthentic(s.callbacks)
    && SnapshotsReadable(s.truth, s.claims, s.callbacks)
  }

  // ---------------------------------------------------------------- kept by every call

  lemma AcknowledgeGrows(s: Store, n: Continuation, r: TerminalReceipt, p: ConvergenceProof,
                         expected: ContinuationState)
    requires AcksAuthentic(s.callbacks)
    ensures var x := AcknowledgeDelivery(s, n, r, p, expected).store.callbacks;
      AcksAuthentic(x) && AcksGrow(s.callbacks, x)
  {
  }

  lemma AcksOnlyGrow(s: Store, c: Call)
    requires AcksAuthentic(s.callbacks)
    ensures AcksAuthentic(Apply(s, c).callbacks) && AcksGrow(s.callbacks, Apply(s, c).callbacks)
  {
    hide AcknowledgeDelivery, Authoritative, IsCurrent, AbsenceExact, ContinuationFor;
    if c.DoAcknowledge? {
      AcknowledgeGrows(s, c.continuation, c.receipt, c.turn, DeliveryStarted);
    } else if c.DoReconcileContinuation? {
      var k := s.callbacks.continuations;
      if c.reconciliation.continuationId in k && c.proof.Some? && c.proof.value.Converged? {
        AcknowledgeGrows(s, k[c.reconciliation.continuationId], c.receipt, c.proof.value.proof,
                         DeliveryUnsettled);
      }
    } else if TouchesCallbacks(c) {
    } else {
      hide Apply;
      ApplyFrame(s, c);
    }
  }

  lemma VerifierCanRead(s: Store, ack: Acknowledgement, readback: SnapshotReadback)
    requires VerifyMission(s, ack, readback).result.Ok?
    ensures ack.acknowledgementId in s.callbacks.acks
    ensures Readable(s.claims, s.callbacks, ack.acknowledgementId,
                     (readback.body.missionId, readback.body.missionRevision))
  {
  }

  lemma SnapshotsStayReadable(s: Store, c: Call)
    requires Inv(s) && WellFormed(c)
    requires AcksAuthentic(s.callbacks) && SnapshotsReadable(s.truth, s.claims, s.callbacks)
    ensures SnapshotsReadable(Apply(s, c).truth, Apply(s, c).claims, Apply(s, c).callbacks)
  {
    hide Inv, Apply, WellFormed, AcksAuthentic, TruthInv, ClaimsInv, WorkInv, StepsInv, RecoveryInv,
         RecoveryStepsInv, CallbacksInv, PacketsHaveMissions, VerifyMission, RegisterMission;
    InvParts(s);
    CallReplays(s, c);
    AcksOnlyGrow(s, c);
    ApplyGrows(s, c);
    var t := Apply(s, c);
    forall key | key in t.truth.snapshots
      ensures exists id :: Readable(t.claims, t.callbacks, id, key)
    {
      if key in s.truth.snapshots {
        var id :| Readable(s.claims, s.callbacks, id, key);
        assert Readable(t.claims, t.callbacks, id, key);
      } else {
        VerifierCanRead(s, c.ack, c.readback);
        assert Readable(t.claims, t.callbacks, c.ack.acknowledgementId, key);
      }
    }
  }

  lemma ValidIsOnRoute(t: MissionLedger, p: TaskPacket)
    requires ValidatePacket(t, p).Ok?
    ensures OnRoute(t, p.body)
  {
  }

  /** The scan of an unread mission depends on its declaration only. */
  lemma UnreadScan(t: MissionLedger, u: MissionLedger, m: Mission)
    requires (m.missionId, m.revision) !in t.snapshots && (m.missionId, m.revision) !in u.snapshots
    ensures FirstFalse(t, m) == FirstFalse(u, m)
  {
  }

  /** `u` is a later truth than `t`. */
  ghost predicate Later(t: MissionLedger, u: MissionLedger) {
    && (forall id | id in t.missions :: id in u.missions
          && (u.missions[id] == t.missions[id] || t.missions[id].revision < u.missions[id].revision))
    && (forall key :: key in t.snapshots ==> key in u.snapshots)
    && (forall key :: key in t.dispositions ==> key in u.dispositions)
  }

  lemma TruthAdvances(s: Store, c: Call)
    ensures Later(s.truth, Apply(s, c).truth)
  {
    if TouchesTruth(c) {
      hide FindRoute, SameKeys, ReadbackOf, VerificationFor;
    } else {
      hide Apply;
      ApplyFrame(s, c);
    }
  }

  lemma StaysOnRoute(t: MissionLedger, u: MissionLedger, p: PacketBody)
    requires Later(t, u) && OnRoute(t, p) && MissionsFit(t)
    requires p.missionId in t.missions && p.missionRevision <= t.missions[p.missionId].revision
    ensures OnRoute(u, p)
  {
    hide FirstFalse, RouteMatches, MissionWellFormed;
    if Current(u, p) {
      var m := t.missions[p.missionId];
      assert u.missions[p.missionId] == m && Current(t, p);
      if (m.missionId, m.revision) !in u.snapshots { UnreadScan(t, u, m); }
    }
  }

  lemma ClaimedIsOldOrValid(s: Store, c: Call, pid: PacketId)
    requires Inv(s) && pid in Apply(s, c).claims.packets
    ensures || (pid in s.claims.packets && Apply(s, c).claims.packets[pid] == s.claims.packets[pid])
            || (ValidatePacket(s.truth, Apply(s, c).claims.packets[pid]).Ok?
                && Apply(s, c).truth == s.truth)
  {
    hide Inv, ValidatePacket, Overlaps, ScopeSnapshot;
    if c.DoClaim? {
    } else {
      hide Apply;
      if TouchesReceipts(c) { PacketsUntouched(s, c); } else { ApplyFrame(s, c); }
    }
  }

  lemma PacketsUntouched(s: Store, c: Call)
    requires TouchesReceipts(c)
    ensures Apply(s, c).claims.packets == s.claims.packets
  {
    hide HasUnsettledStep, HoldsLease, EvidenceText, FailureCodeAllowed;
  }

  lemma PacketsStayOnRoute(s: Store, c: Call)
    requires Inv(s) && PacketsOnRoute(s.truth, s.claims)
    ensures PacketsOnRoute(Apply(s, c).truth, Apply(s, c).claims)
  {
    hide Inv, Apply, ValidatePacket, OnRoute, TruthInv, ClaimsInv, WorkInv, StepsInv, RecoveryInv,
         RecoveryStepsInv, CallbacksInv, Later, MissionsFit;
    InvParts(s);
    TruthAdvances(s, c);
    var t := Apply(s, c);
    assert MissionsFit(s.truth) by { MissionsOf(s.truth); }
    forall pid | pid in t.claims.packets ensures OnRoute(t.truth, t.claims.packets[pid].body) {
      ClaimedIsOldOrValid(s, c, pid);
      if ValidatePacket(s.truth, t.claims.packets[pid]).Ok? && t.truth == s.truth {
        ValidIsOnRoute(s.truth, t.claims.packets[pid]);
      } else {
        StaysOnRoute(s.truth, t.truth, t.claims.packets[pid].body);
      }
    }
  }

  lemma {:induction false} ReachableIsReopenable(calls: seq<Call>)
    requires AllWellFormed(calls)
    ensures Reopenable(Run(EMPTY, calls))
  {
    hide Inv, Apply, WellFormed, OnRoute, Readable;
    if |calls| > 0 {
      var front, last := calls[..|calls| - 1], calls[|calls| - 1];
      ReachableIsReopenable(front);
      ReachableKeepsInv(front);
      hide Run;
      AcksOnlyGrow(Run(EMPTY, front), last);
      SnapshotsStayReadable(Run(EMPTY, front), last);
      PacketsStayOnRoute(Run(EMPTY, front), last);
    }
  }

  // ---------------------------------------------------------------- reading the mission again

  /** A readback in which exactly the predicate at `i` is unsatisfied. */
  function FailingAt(m: Mission, i: nat, sequence: int): (r: SnapshotReadback)
    requires i < |m.predicates|
    ensures r.Authentic() && SameKeys(m, r.body.predicates)
    ensures r.body.missionId == m.missionId && r.body.missionRevision == m.revision
    ensures r.body.sequence == sequence
    ensures forall j :: 0 <= j < |m.predicates| ==>
              r.body.predicates[j].truth == if j == i then Unsatisfied else Satisfied
  {
    Seal(ReadbackBody(m.missionId, m.revision, PROOF, sequence,
                      seq(|m.predicates|, j requires 0 <= j < |m.predicates| =>
                        PredicateReadback(m.predicates[j].key,
                                          if j == i then Unsatisfied else Satisfied, PROOF)),
                      PROOF))
  }

  /** The parent can really give such a readback. */
  lemma FailingIsWellFormed(m: Mission, i: nat, sequence: int)
    requires MissionWellFormed(m) && i < |m.predicates| && sequence >= 0
    ensures ReadbackWellFormed(FailingAt(m, i, sequence).body)
  {
    hide NonBlank, PROOF, RouteWellFormed;
    EvidenceIsText();
  }

  lemma VerifyAccepts(s: Store, ack: Acknowledgement, readback: SnapshotReadback, m: Mission, i: nat)
    requires ack.acknowledgementId in s.callbacks.acks
    requires s.callbacks.acks[ack.acknowledgementId] == ack && ack.Authentic()
    requires readback.Authentic() && SameKeys(m, readback.body.predicates)
    requires ack.base.packetId in s.claims.packets
    requires var p := s.claims.packets[ack.base.packetId].body;
      && p.missionId in s.truth.missions && s.truth.missions[p.missionId] == m
      && m.missionId == p.missionId && m.revision == p.missionRevision
      && readback.body.missionId == m.missionId && readback.body.missionRevision == m.revision
      && i < |m.predicates| && m.predicates[i].key == p.predicateKey
    requires (m.missionId, m.revision) in s.truth.snapshots ==>
               s.truth.snapshots[(m.missionId, m.revision)].body.sequence < readback.body.sequence
    ensures VerifyMission(s, ack, readback).result.Ok?
  {
  }

  lemma ReadFirstFalse(t: MissionLedger, m: Mission, i: nat, sequence: int)
    requires i < |m.predicates| && (m.missionId, m.revision) in t.snapshots
    requires t.snapshots[(m.missionId, m.revision)] == FailingAt(m, i, sequence)
    ensures FirstFalse(t, m) == Ok(Some(m.predicates[i]))
  {
  }

  /** A packet on its route validates again once its predicate is the first false one. */
  lemma TargetingPacketIsValid(t: MissionLedger, p: TaskPacket)
    requires p.Authentic() && Current(t, p.body) && OnRoute(t, p.body) && Targets(t, p.body)
    requires MissionsFit(t)
    requires (p.body.missionId, p.body.missionRevision, p.body.routeId) !in t.dispositions
    ensures ValidatePacket(t, p).Ok?
  {
  }

  ghost predicate ReadOnce(t: MissionLedger, p: PacketBody) {
    (p.missionId, p.missionRevision) in t.snapshots
  }

  ghost predicate Undisposed(t: MissionLedger, p: PacketBody) {
    (p.missionId, p.missionRevision, p.routeId) !in t.dispositions
  }

  /** The index of a claimed packet's predicate in its current mission. */
  lemma PredicateIndex(s: Store, pid: PacketId) returns (i: nat)
    requires PacketsHaveMissions(s.truth, s.claims) && pid in s.claims.packets
    requires Current(s.truth, s.claims.packets[pid].body)
    ensures var p := s.claims.packets[pid].body;
      i < |s.truth.missions[p.missionId].predicates|
      && s.truth.missions[p.missionId].predicates[i].key == p.predicateKey
  {
    var p := s.claims.packets[pid].body;
    i :| 0 <= i < |s.truth.missions[p.missionId].predicates|
         && s.truth.missions[p.missionId].predicates[i].key == p.predicateKey;
  }

  /** The call makes the packet's predicate the first false one and moves nothing else. */
  ghost predicate Reopens(s: Store, c: Call, p: PacketBody) {
    var u := Apply(s, c).truth;
    && u.missions == s.truth.missions && u.dispositions == s.truth.dispositions
    && p.missionId in u.missions && Targets(u, p)
  }

  /** A readback that makes the packet's predicate the first false one again is accepted. */
  lemma Reopen(s: Store, pid: PacketId) returns (c: Call)
    requires Inv(s) && Reopenable(s) && pid in s.claims.packets
    requires Current(s.truth, s.claims.packets[pid].body)
    requires ReadOnce(s.truth, s.claims.packets[pid].body)
    ensures WellFormed(c) && c.DoVerify? && Reopens(s, c, s.claims.packets[pid].body)
  {
    hide Inv, Reopenable, TruthInv, ClaimsInv, WorkInv, StepsInv, RecoveryInv, RecoveryStepsInv,
         CallbacksInv, PacketsHaveMissions, VerifyMission, FirstFalse, FailingAt, SameKeys,
         OnRoute, IsActive, MissionWellFormed;
    InvParts(s);
    var p := s.claims.packets[pid].body;
    var m := s.truth.missions[p.missionId];
    var key := (p.missionId, p.missionRevision);
    assert m.missionId == p.missionId && MissionWellFormed(m) by { MissionsOf(s.truth); }
    StoredSequence(s.truth, key);
    var i := PredicateIndex(s, pid);
    FailingIsWellFormed(m, i, s.truth.snapshots[key].body.sequence + 1);
    var id := Reader(s, key);
    var ack := s.callbacks.acks[id];
    var j := PredicateIndex(s, ack.base.packetId);
    var readback := FailingAt(m, i, s.truth.snapshots[key].body.sequence + 1);
    VerifyAccepts(s, ack, readback, m, j);
    c := DoVerify(ack, readback);
    VerifyReplays(s, ack, readback);
    ReadFirstFalse(Apply(s, c).truth, m, i, s.truth.snapshots[key].body.sequence + 1);
    VerifyKeepsDispositions(s, ack, readback);
  }

  lemma StoredSequence(t: MissionLedger, key: SnapshotKey)
    requires TruthInv(t) && key in t.snapshots
    ensures t.snapshots[key].body.sequence >= 0
  {
    assert SnapshotFits(t, key);
  }

  lemma VerifyKeepsDispositions(s: Store, ack: Acknowledgement, readback: SnapshotReadback)
    ensures VerifyMission(s, ack, readback).store.truth.dispositions == s.truth.dispositions
  {
  }

  lemma Reader(s: Store, key: SnapshotKey) returns (id: AckId)
    requires Reopenable(s) && key in s.truth.snapshots
    ensures Readable(s.claims, s.callbacks, id, key)
    ensures s.callbacks.acks[id].acknowledgementId == id && s.callbacks.acks[id].Authentic()
  {
    hide PacketsOnRoute;
    id :| Readable(s.claims, s.callbacks, id, key);
  }

  // ---------------------------------------------------------------- stranded for ever

  /** The packet's steps cannot be settled any more: its revision is superseded or its route is
      disposed while an effect is open. */
  ghost predicate Stranded(s: Store, pid: PacketId) {
    && Leased(s, pid) && HasUnsettledStep(s.steps, pid)
    && (!Current(s.truth, s.claims.packets[pid].body) || !Undisposed(s.truth, s.claims.packets[pid].body))
  }

  lemma DriftedNeverValidates(t: MissionLedger, p: TaskPacket)
    requires MissionsFit(t)
    requires !Current(t, p.body) || !Undisposed(t, p.body)
    ensures !ValidatePacket(t, p).Ok?
  {
    hide FirstFalse, MissionWellFormed;
  }

  lemma DriftStays(s: Store, c: Call, pid: PacketId)
    requires Inv(s) && Stranded(s, pid)
    ensures var u, p := Apply(s, c).truth, s.claims.packets[pid].body;
      !Current(u, p) || !Undisposed(u, p)
  {
    hide Inv, Apply, TruthInv, ClaimsInv, WorkInv, StepsInv, RecoveryInv, RecoveryStepsInv,
         CallbacksInv, HasUnsettledStep, IsActive;
    InvParts(s);
    TruthAdvances(s, c);
  }

  /** An open step of a packet that no longer validates stays open. */
  lemma StepsStayOpen(s: Store, c: Call, pid: PacketId)
    requires Inv(s) && HasUnsettledStep(s.steps, pid) && pid in s.claims.packets
    requires !ValidatePacket(s.truth, s.claims.packets[pid]).Ok?
    ensures HasUnsettledStep(Apply(s, c).steps, pid)
  {
    hide Inv, TruthInv, ClaimsInv, WorkInv, StepsInv, RecoveryInv, RecoveryStepsInv, CallbacksInv,
         ValidatePacket, ValidateClaim, AdmittedAction, PacketsHaveMissions;
    InvParts(s);
    if c.DoStep? {
      StepKeepsOpen(s, c.packet, c.lease, c.step, pid);
    } else if c.DoReconcileStep? {
      ValidatedIsClaimed(s, c.packet, c.lease);
      ReconcileKeepsOthersOpen(s, c.packet, c.lease, c.stepProof, pid);
    } else {
      hide Apply;
      ApplyFrame(s, c);
    }
  }

  lemma ValidatedIsClaimed(s: Store, p: TaskPacket, l: Lease)
    ensures ValidateClaim(s, p, l).Ok? ==>
              p.id in s.claims.packets && s.claims.packets[p.id] == p && ValidatePacket(s.truth, p).Ok?
  {
  }

  lemma StepKeepsOpen(s: Store, p: TaskPacket, l: Lease, step: StepAttempt, pid: PacketId)
    requires StepsInv(s.claims, s.work, s.steps) && HasUnsettledStep(s.steps, pid)
    ensures HasUnsettledStep(RecordStepAttempt(s, p, l, step).store.steps, pid)
  {
    hide ValidatePacket, AdmittedAction, StepRecordsFit, StepReconciliationsFit, TerminalSettled;
    var id :| id in StepsOf(s.steps, pid) && EffectiveState(s.steps, id) == Unsettled;
    assert LedgerFits(s.steps, pid);
    var x := RecordStepAttempt(s, p, l, step).store.steps;
    if x != s.steps {
      var i :| 0 <= i < |StepsOf(s.steps, pid)| && StepsOf(s.steps, pid)[i] == id;
      assert StepsOf(x, pid)[i] == id;
    }
    assert EffectiveState(x, id) == Unsettled;
  }

  lemma ReconcileKeepsOthersOpen(s: Store, p: TaskPacket, l: Lease, r: StepReconciliation,
                                 pid: PacketId)
    requires StepsInv(s.claims, s.work, s.steps) && HasUnsettledStep(s.steps, pid)
    requires p.id == pid ==> !ValidateClaim(s, p, l).Ok?
    ensures HasUnsettledStep(ReconcileStepEffect(s, p, l, r).store.steps, pid)
  {
    hide ValidateClaim, StepRecordsFit, StepReconciliationsFit, TerminalSettled;
    var id :| id in StepsOf(s.steps, pid) && EffectiveState(s.steps, id) == Unsettled;
    assert LedgerFits(s.steps, pid);
    var x := ReconcileStepEffect(s, p, l, r).store.steps;
    assert id in StepsOf(x, pid) && EffectiveState(x, id) == Unsettled;
  }

  /** No call releases a packet with an open step. */
  lemma OpenStaysLeased(s: Store, c: Call, pid: PacketId)
    requires Inv(s) && WellFormed(c) && Leased(s, pid) && HasUnsettledStep(s.steps, pid)
    ensures Leased(Apply(s, c), pid)
    ensures Apply(s, c).claims.packets[pid] == s.claims.packets[pid]
  {
    hide Inv, Apply, WellFormed, HasUnsettledStep, TruthInv, StepsInv, RecoveryInv,
         RecoveryStepsInv, CallbacksInv, PacketsHaveMissions, ReceiptsFit, AttemptsFit, FailuresFit,
         StartedFit, ReceiptsIndexed;
    InvParts(s);
    ApplyGrows(s, c);
    ApplyKeepsInv(s, c);
    InvParts(Apply(s, c));
    LeaseIsHeld(s, pid);
    if TouchesReceipts(c) {
      ReceiptCallsWrite(s, c);
      if receipt :| WritesReceipt(s, Apply(s, c), receipt) {
        assert receipt.body.packetId != pid;
      }
    } else {
      ReceiptsUntouched(s, c);
    }
    assert pid !in Apply(s, c).work.receiptOf;
  }

  lemma ReceiptsUntouched(s: Store, c: Call)
    requires !TouchesReceipts(c)
    ensures Apply(s, c).work.receiptOf == s.work.receiptOf
  {
    if TouchesWork(c) {
      hide ValidatePacket, HoldsLease, EvidenceText, FailureCodeAllowed;
    } else {
      hide Apply;
      ApplyFrame(s, c);
    }
  }

  lemma StrandedStays(s: Store, c: Call, pid: PacketId)
    requires Inv(s) && WellFormed(c) && Stranded(s, pid)
    ensures Stranded(Apply(s, c), pid)
    ensures Apply(s, c).claims.packets[pid] == s.claims.packets[pid]
  {
    hide Inv, Apply, WellFormed, HasUnsettledStep, ValidatePacket, IsActive, Current, Undisposed,
         MissionsFit;
    ClaimedIsAuthentic(s, pid);
    DriftedNeverValidates(s.truth, s.claims.packets[pid]);
    DriftStays(s, c, pid);
    StepsStayOpen(s, c, pid);
    OpenStaysLeased(s, c, pid);
  }

  /** Once stranded, a packet holds its lease through every later run. */
  lemma {:induction false} StrandedForEver(calls: seq<Call>, more: seq<Call>, pid: PacketId)
    requires AllWellFormed(calls + more) && Stranded(Run(EMPTY, calls), pid)
    ensures Stranded(Run(EMPTY, calls + more), pid)
    decreases |more|
  {
    hide Inv, Apply, WellFormed, Stranded, Leased;
    if |more| == 0 {
      assert calls + more == calls;
    } else {
      var all := calls + more;
      assert all[..|all| - 1] == calls + more[..|more| - 1];
      StrandedForEver(calls, more[..|more| - 1], pid);
      ReachableKeepsInv(all[..|all| - 1]);
      StrandedStays(Run(EMPTY, all[..|all| - 1]), all[|all| - 1], pid);
    }
  }

  // ---------------------------------------------------------------- the exact condition

  /** What a caller can look up: no open step, or the packet's revision is the registered one and
      its route has no disposition. */
  ghost predicate Closable(s: Store, pid: PacketId)
    requires pid in s.claims.packets
  {
    || !HasUnsettledStep(s.steps, pid)
    || (Current(s.truth, s.claims.packets[pid].body) && Undisposed(s.truth, s.claims.packets[pid].body))
  }

  lemma OpenPath(s: Store, pid: PacketId) returns (more: seq<Call>)
    requires Inv(s) && Reopenable(s) && Leased(s, pid) && Closable(s, pid)
    ensures AllWellFormed(more) && pid in Run(s, more).work.receiptOf
    ensures |more| <= Unresolved(s.steps, pid) + 3
    ensures HasOutcome(s.work, pid) ==> AllReconcile(more)
  {
    hide Inv, Reopenable, ValidatePacket, Apply, WellFormed, Run, Unresolved, IsActive, Current,
         HasUnsettledStep, Reopens, Undisposed;
    var p := s.claims.packets[pid];
    if !HasUnsettledStep(s.steps, pid) || ValidatePacket(s.truth, p).Ok? {
      more := ClosingPath(s, pid);
    } else {
      InvalidWasRead(s, pid);
      var c := Reopen(s, pid);
      var t := Apply(s, c);
      ApplyKeepsInv(s, c);
      ReopenedIsValid(s, c, pid);
      var rest := ClosingPath(t, pid);
      more := [c] + rest;
      RunOne(s, c);
      RunJoins(s, [c], rest);
    }
  }

  lemma ClaimedIsAuthentic(s: Store, pid: PacketId)
    requires Inv(s) && pid in s.claims.packets
    ensures s.claims.packets[pid].Authentic()
    ensures MissionsFit(s.truth)
  {
    hide WorkInv, StepsInv, RecoveryInv, RecoveryStepsInv, CallbacksInv, PacketsHaveMissions, Fenced,
         ActiveDisjoint, ActiveCurrent, ActiveFit, SnapshotsFit, VerificationsFit;
    assert ClaimedPacket(s.claims, pid);
  }

  /** A current, undisposed packet stops validating only after a readback of its revision. */
  lemma InvalidWasRead(s: Store, pid: PacketId)
    requires Inv(s) && Reopenable(s) && pid in s.claims.packets
    requires Current(s.truth, s.claims.packets[pid].body)
    requires Undisposed(s.truth, s.claims.packets[pid].body)
    requires !ValidatePacket(s.truth, s.claims.packets[pid]).Ok?
    ensures ReadOnce(s.truth, s.claims.packets[pid].body)
  {
    hide Inv, ValidatePacket, Targets, SnapshotsReadable, AcksAuthentic, RouteMatches,
         MissionsFit;
    ClaimedIsAuthentic(s, pid);
    var p := s.claims.packets[pid];
    if Targets(s.truth, p.body) { TargetingPacketIsValid(s.truth, p); }
    assert OnRoute(s.truth, p.body);
  }

  lemma ReopenedIsValid(s: Store, c: Call, pid: PacketId)
    requires Inv(s) && Reopenable(s) && pid in s.claims.packets && c.DoVerify?
    requires Current(s.truth, s.claims.packets[pid].body)
    requires Undisposed(s.truth, s.claims.packets[pid].body)
    requires Reopens(s, c, s.claims.packets[pid].body)
    ensures Apply(s, c).claims == s.claims && Apply(s, c).steps == s.steps
    ensures Apply(s, c).work == s.work
    ensures ValidatePacket(Apply(s, c).truth, s.claims.packets[pid]).Ok?
  {
    hide Inv, Apply, WellFormed, ValidatePacket, Targets, OnRoute, MissionsFit, SnapshotsReadable,
         AcksAuthentic;
    ClaimedIsAuthentic(s, pid);
    PacketsStayOnRoute(s, c);
    ApplyFrame(s, c);
    var u := Apply(s, c).truth;
    assert MissionsFit(u) by { SameMissionsFit(s.truth, u); }
    assert OnRoute(u, s.claims.packets[pid].body);
    TargetingPacketIsValid(u, s.claims.packets[pid]);
  }

  lemma SameMissionsFit(t: MissionLedger, u: MissionLedger)
    requires MissionsFit(t) && u.missions == t.missions
    ensures MissionsFit(u)
  {
  }

  /** From any reachable state a leased packet can reach its receipt if and only if it is closable,
      and then within its open steps plus three calls.  A newer revision of the mission or a
      disposition of the route, while an effect is open, strands the lease for ever. */
  lemma LeasesCloseIffClosable(calls: seq<Call>, pid: PacketId)
    requires AllWellFormed(calls) && Leased(Run(EMPTY, calls), pid)
    ensures Closable(Run(EMPTY, calls), pid) ==>
              exists more :: AllWellFormed(calls + more)
                && |more| <= Unresolved(Run(EMPTY, calls).steps, pid) + 3
                && pid in Run(EMPTY, calls + more).work.receiptOf
    ensures !Closable(Run(EMPTY, calls), pid) ==>
              forall more :: AllWellFormed(calls + more) ==>
                Leased(Run(EMPTY, calls + more), pid)
                && pid !in Run(EMPTY, calls + more).work.receiptOf
  {
    hide Inv, Run, WellFormed, HasUnsettledStep, Current, Undisposed, IsActive, Unresolved,
         Reopenable;
    ReachableKeepsInv(calls);
    ReachableIsReopenable(calls);
    var s := Run(EMPTY, calls);
    if Closable(s, pid) {
      var more := OpenPath(s, pid);
      RunJoins(EMPTY, calls, more);
      assert AllWellFormed(calls + more);
    } else {
      forall more | AllWellFormed(calls + more)
        ensures Leased(Run(EMPTY, calls + more), pid)
        ensures pid !in Run(EMPTY, calls + more).work.receiptOf
      {
        StrandedForEver(calls, more, pid);
        ReachableKeepsInv(calls + more);
        LeaseIsHeld(Run(EMPTY, calls + more), pid);
      }
    }
  }

  /** While the packet validates, the path needs at most its open steps plus two calls, and with no
      open step at most two, even after mission drift. */
  lemma ClosingIsShort(h: seq<Store>, calls: seq<Call>, n: nat, pid: PacketId)
    requires IsHistory(h, calls) && n <= |calls| && Leased(h[n], pid)
    requires var s := h[n];
      !HasUnsettledStep(s.steps, pid) || ValidatePacket(s.truth, s.claims.packets[pid]).Ok?
    ensures exists more :: AllWellFormed(more) && |more| <= Unresolved(h[n].steps, pid) + 2
                           && pid in Run(h[n], more).work.receiptOf
    ensures !HasUnsettledStep(h[n].steps, pid) ==>
              Unresolved(h[n].steps, pid) == 0
  {
    hide Apply, Inv, Run, WellFormed, HasUnsettledStep, IsActive, Unresolved, ValidatePacket;
    HistoryKeepsInv(h, calls, n);
    var more := ClosingPath(h[n], pid);
    UnresolvedIsZeroIff(h[n].steps, pid);
  }
}
