/** Mission truth over whole runs: only the parent's registrations and readbacks move it. */
module MissionTruth {
  import opened Records
  import opened StoreSpec
  import opened StoreInvariant
  import opened TruthSafety
  import opened StoreSafety
  import opened Frames
  import opened Histories

  // ---------------------------------------------------------------- what moves truth

  /** Two ledgers that answer every `first_false` alike, and accept the same packets. */
  ghost predicate SameTruth(t: MissionLedger, u: MissionLedger) {
    t.missions == u.missions && t.snapshots == u.snapshots
  }

  lemma OnlyParentCallsMoveTruth(s: Store, c: Call)
    requires !c.DoRegister? && !c.DoVerify?
    ensures SameTruth(s.truth, Apply(s, c).truth)
  {
    ApplyFrame(s, c);
    hide FindRoute;
    if TouchesTruth(c) {
    } else {
      hide Apply;
    }
  }

  /** A mission's `first_false` answer after a call differs from the one before only if the call
      registers that mission or verifies it, and then only if the call is accepted. */
  lemma FirstFalseMovesOnlyAtParentCalls(h: seq<Store>, calls: seq<Call>, n: nat, c: Call, id: string)
    requires IsHistory(h, calls) && n <= |calls| && id in h[n].truth.missions
    requires var t, u := h[n].truth, Apply(h[n], c).truth;
      id in u.missions ==> FirstFalse(u, u.missions[id]) != FirstFalse(t, t.missions[id])
    ensures || (c.DoRegister? && c.mission.missionId == id
                && RegisterMission(h[n], c.mission).result.Ok?)
            || (c.DoVerify? && c.readback.body.missionId == id
                && VerifyMission(h[n], c.ack, c.readback).result.Ok?)
  {
    hide WellFormed, Inv, Apply, VerifyMission, RegisterMission, FirstFalse, TruthInv, ClaimsInv,
         WorkInv, StepsInv, RecoveryInv, RecoveryStepsInv, CallbacksInv, PacketsHaveMissions;
    HistoryKeepsInv(h, calls, n);
    InvParts(h[n]);
    var s := h[n];
    if && !(c.DoRegister? && c.mission.missionId == id && RegisterMission(s, c.mission).result.Ok?)
       && !(c.DoVerify? && c.readback.body.missionId == id
            && VerifyMission(s, c.ack, c.readback).result.Ok?)
    {
      StaysWithoutParent(s, c, id);
    }
  }

  lemma StaysWithoutParent(s: Store, c: Call, id: string)
    requires TruthInv(s.truth) && id in s.truth.missions
    requires !(c.DoRegister? && c.mission.missionId == id && RegisterMission(s, c.mission).result.Ok?)
    requires !(c.DoVerify? && c.readback.body.missionId == id
               && VerifyMission(s, c.ack, c.readback).result.Ok?)
    ensures var u := Apply(s, c).truth;
      id in u.missions && FirstFalse(u, u.missions[id]) == FirstFalse(s.truth, s.truth.missions[id])
  {
    CallReplays(s, c);
    hide Apply, VerifyMission, RegisterMission, FirstFalse, MissionWellFormed, SnapshotsFit,
         VerificationsFit;
    AnswerStays(s.truth, Apply(s, c).truth, id);
  }

  /** The answer depends on the mission registered under the id and on its own snapshot. */
  lemma AnswerStays(t: MissionLedger, u: MissionLedger, id: string)
    requires MissionsFit(t) && id in t.missions && id in u.missions
    requires u.missions[id] == t.missions[id]
    requires forall r: int :: (id, r) in t.snapshots <==> (id, r) in u.snapshots
    requires forall r: int :: (id, r) in t.snapshots ==> t.snapshots[(id, r)] == u.snapshots[(id, r)]
    ensures FirstFalse(u, u.missions[id]) == FirstFalse(t, t.missions[id])
  {
    hide MissionWellFormed, FirstIndex;
  }

  /** What the parent tells the store. */
  datatype ParentEvent = Declares(mission: Mission) | Reads(readback: SnapshotReadback)

  /** The accepted parent events of a run, in order. */
  ghost function ParentEvents(calls: seq<Call>): seq<ParentEvent> {
    if |calls| == 0 then []
    else
      var front, last := calls[..|calls| - 1], calls[|calls| - 1];
      var s := Run(EMPTY, front);
      ParentEvents(front)
      + (if last.DoRegister? && RegisterMission(s, last.mission).result.Ok?
         then [Declares(last.mission)]
         else if last.DoVerify? && VerifyMission(s, last.ack, last.readback).result.Ok?
         then [Reads(last.readback)] else [])
  }

  datatype ParentView = ParentView(missions: map<string, Mission>,
                                   snapshots: map<SnapshotKey, SnapshotReadback>)

  /** The latest mission of each id and the latest readback of each revision. */
  function Replay(events: seq<ParentEvent>): ParentView {
    if |events| == 0 then ParentView(map[], map[])
    else
      var v := Replay(events[..|events| - 1]);
      match events[|events| - 1]
      case Declares(m) => v.(missions := v.missions[m.missionId := m])
      case Reads(r) =>
        v.(snapshots := v.snapshots[(r.body.missionId, r.body.missionRevision) := r])
  }

  lemma ReplayOne(events: seq<ParentEvent>, e: ParentEvent)
    ensures var v := Replay(events);
      Replay(events + [e]) ==
        match e
        case Declares(m) => v.(missions := v.missions[m.missionId := m])
        case Reads(r) => v.(snapshots := v.snapshots[(r.body.missionId, r.body.missionRevision) := r])
  {
  }

  lemma RejectedReadbackChangesNothing(s: Store, ack: Acknowledgement, readback: SnapshotReadback)
    requires !VerifyMission(s, ack, readback).result.Ok?
    ensures VerifyMission(s, ack, readback).store == s
  {
  }

  lemma VerifyReplays(s: Store, ack: Acknowledgement, readback: SnapshotReadback)
    requires TruthInv(s.truth)
    ensures var o := VerifyMission(s, ack, readback);
      && o.store.truth.missions == s.truth.missions
      && o.store.truth.snapshots ==
         if o.result.Ok?
         then s.truth.snapshots[(readback.body.missionId, readback.body.missionRevision) := readback]
         else s.truth.snapshots
  {
    hide VerifyMission, Storable, VerificationFor, ReadbackOf, TruthInv;
    if VerifyMission(s, ack, readback).result.Ok? {
      AcceptedReadbackIsStored(s, ack, readback);
    } else {
      RejectedReadbackChangesNothing(s, ack, readback);
    }
  }

  lemma CallReplays(s: Store, c: Call)
    requires TruthInv(s.truth)
    ensures c.DoRegister? && RegisterMission(s, c.mission).result.Ok? ==>
              && Apply(s, c).truth.missions == s.truth.missions[c.mission.missionId := c.mission]
              && Apply(s, c).truth.snapshots == s.truth.snapshots
    ensures c.DoVerify? && VerifyMission(s, c.ack, c.readback).result.Ok? ==>
              && Apply(s, c).truth.missions == s.truth.missions
              && Apply(s, c).truth.snapshots ==
                 s.truth.snapshots[(c.readback.body.missionId, c.readback.body.missionRevision)
                                   := c.readback]
    ensures || (c.DoRegister? && RegisterMission(s, c.mission).result.Ok?)
            || (c.DoVerify? && VerifyMission(s, c.ack, c.readback).result.Ok?)
            || SameTruth(s.truth, Apply(s, c).truth)
  {
    hide TruthInv, VerifyMission;
    if c.DoRegister? {
    } else if c.DoVerify? {
      VerifyReplays(s, c.ack, c.readback);
    } else {
      OnlyParentCallsMoveTruth(s, c);
    }
  }

  /** The truth of a run is what its accepted parent events say, and nothing else: no claim, result,
      receipt or acknowledgement contributes to it. */
  lemma {:induction false} TruthIsTheParents(calls: seq<Call>)
    requires AllWellFormed(calls)
    ensures Run(EMPTY, calls).truth.missions == Replay(ParentEvents(calls)).missions
    ensures Run(EMPTY, calls).truth.snapshots == Replay(ParentEvents(calls)).snapshots
  {
    hide Apply, WellFormed, RegisterMission, VerifyMission, TruthInv;
    if |calls| > 0 {
      var front, last := calls[..|calls| - 1], calls[|calls| - 1];
      TruthIsTheParents(front);
      ReachableKeepsInv(front);
      InvParts(Run(EMPTY, front));
      hide Inv;
      CallReplays(Run(EMPTY, front), last);
      assert ParentEvents(front) + [] == ParentEvents(front);
      if last.DoRegister? { ReplayOne(ParentEvents(front), Declares(last.mission)); }
      if last.DoVerify? { ReplayOne(ParentEvents(front), Reads(last.readback)); }
    }
  }

  // ---------------------------------------------------------------- monotone snapshots

  ghost predicate SnapshotsAdvance(t: MissionLedger, u: MissionLedger) {
    forall key :: key in t.snapshots ==>
      && key in u.snapshots
      && t.snapshots[key].body.sequence <= u.snapshots[key].body.sequence
      && (t.snapshots[key].body.sequence == u.snapshots[key].body.sequence ==>
            t.snapshots[key] == u.snapshots[key])
  }

  lemma ApplyAdvances(s: Store, c: Call)
    requires TruthInv(s.truth)
    ensures SnapshotsAdvance(s.truth, Apply(s, c).truth)
  {
    hide TruthInv, Apply, VerifyMission, RegisterMission, SameKeys, VerificationFor, ReadbackOf,
         StoreReadback;
    CallReplays(s, c);
    if c.DoVerify? && VerifyMission(s, c.ack, c.readback).result.Ok? {
      AcceptedReadbackIsStored(s, c.ack, c.readback);
    }
  }

  /** Per mission revision the snapshot sequence never decreases, and one sequence number means one
      snapshot, at any two moments of a run. */
  lemma {:induction false} SnapshotsAreMonotone(calls: seq<Call>, early: nat)
    requires AllWellFormed(calls) && early <= |calls|
    ensures SnapshotsAdvance(Run(EMPTY, calls[..early]).truth, Run(EMPTY, calls).truth)
    decreases |calls|
  {
    hide Apply, WellFormed, Inv, TruthInv;
    if early == |calls| {
      assert calls[..early] == calls;
    } else {
      var front := calls[..|calls| - 1];
      SnapshotsAreMonotone(front, early);
      assert front[..early] == calls[..early];
      ReachableKeepsInv(front);
      InvParts(Run(EMPTY, front));
      ApplyAdvances(Run(EMPTY, front), calls[|calls| - 1]);
    }
  }

  // ---------------------------------------------------------------- the two scans

  /** `first_false` gives the answer the verification announces. */
  ghost predicate ScanAgrees(t: MissionLedger, m: Mission, v: VerificationBody) {
    match v.nextAction
    case ReadbackRecheck => && v.nextKey.Some?
                            && FirstFalse(t, m) == Rejected(MissionReadbackIndeterminate,
                                                            PredicateIndeterminate(v.nextKey.value))
    case MissionComplete => v.nextKey == None && FirstFalse(t, m) == Ok(None)
    case RouteSelection => && FirstFalse(t, m).Ok? && FirstFalse(t, m).value.Some?
                           && v.nextKey == Some(FirstFalse(t, m).value.value.key)
                           && FirstFalse(t, m).value.value in m.predicates
  }

  lemma ReadbackScan(t: MissionLedger, m: Mission, readback: SnapshotReadback)
    requires (m.missionId, m.revision) in t.snapshots
    requires t.snapshots[(m.missionId, m.revision)] == readback
    requires SameKeys(m, readback.body.predicates)
    ensures var ps := readback.body.predicates;
            var next := NextOf(ps);
      match next.0
      case ReadbackRecheck => && next.1.Some?
                              && FirstFalse(t, m) == Rejected(MissionReadbackIndeterminate,
                                                              PredicateIndeterminate(next.1.value))
      case MissionComplete => next.1 == None && FirstFalse(t, m) == Ok(None)
      case RouteSelection => && FirstFalse(t, m).Ok? && FirstFalse(t, m).value.Some?
                             && next.1 == Some(FirstFalse(t, m).value.value.key)
                             && FirstFalse(t, m).value.value in m.predicates
  {
    var ts := ReadbackTruths(readback.body.predicates);
    assert ts[..|ts|] == ts;
  }

  /** After a successful verification, in a state no other call has touched, the stored snapshot is
      the accepted readback and both scans of it agree, for predicate lists of any length. */
  lemma VerificationAgreesWithFirstFalse(h: seq<Store>, calls: seq<Call>, n: nat, ack: Acknowledgement,
                                         readback: SnapshotReadback)
    requires IsHistory(h, calls) && n <= |calls|
    requires VerifyMission(h[n], ack, readback).result.Ok?
    ensures var o := VerifyMission(h[n], ack, readback);
            var t, b := o.store.truth, readback.body;
      && b.missionId in t.missions && t.missions[b.missionId].revision == b.missionRevision
      && (b.missionId, b.missionRevision) in t.snapshots
      && t.snapshots[(b.missionId, b.missionRevision)] == readback
      && o.result.value.Authentic() && o.result.value.body.readbackId == readback.id
      && ScanAgrees(t, t.missions[b.missionId], o.result.value.body)
  {
    HistoryKeepsInv(h, calls, n);
    hide Apply, WellFormed;
    var s := h[n];
    InvParts(s);
    hide Inv;
    AcceptedReadbackIsStored(s, ack, readback);
    var m := s.truth.missions[readback.body.missionId];
    assert m.missionId == readback.body.missionId;
    hide VerifyMission, MissionWellFormed, SameKeys, ReadbackOf, FirstFalse, NextOf, TruthInv;
    var t := VerifyMission(s, ack, readback).store.truth;
    assert t.missions == s.truth.missions;
    ReadbackScan(t, m, readback);
  }

  // ---------------------------------------------------------------- no escaping errors

  /** Both sides of the strict `zip` have the same length for a registered mission. */
  lemma RegisteredScanIsTotal(t: MissionLedger, id: string)
    requires TruthInv(t) && id in t.missions
    ensures !FirstFalse(t, t.missions[id]).Raised?
  {
  }

  /** In every reachable state scanning a registered mission, checking a packet and preparing a
      continuation end in a value or a `HarnessViolation`, never in another error. */
  lemma ScansNeverEscape(h: seq<Store>, calls: seq<Call>, n: nat, id: string, p: TaskPacket,
                         receipt: TerminalReceipt)
    requires IsHistory(h, calls) && n <= |calls|
    ensures var s := h[n];
      && (id in s.truth.missions ==> !FirstFalse(s.truth, s.truth.missions[id]).Raised?)
      && !ValidatePacket(s.truth, p).Raised?
      && !PrepareContinuation(s, receipt).result.Raised?
  {
    HistoryKeepsInv(h, calls, n);
    hide Apply, WellFormed;
    var s := h[n];
    InvParts(s);
    if Authoritative(s.work, receipt) { AuthoritativeHasPacket(s, receipt); }
    hide Inv, PrepareContinuation, FirstFalse, TruthInv, ValidatePacket, Authoritative, ClaimsInv,
         WorkInv, StepsInv, RecoveryInv, CallbacksInv;
    PreparationIsTotal(s, receipt);
    PacketCheckIsTotal(s.truth, p);
    if id in s.truth.missions { RegisteredScanIsTotal(s.truth, id); }
  }

  lemma PacketCheckIsTotal(t: MissionLedger, p: TaskPacket)
    requires TruthInv(t)
    ensures !ValidatePacket(t, p).Raised?
  {
    hide TruthInv, FirstFalse, FindRoute, RouteMatches;
    if p.body.missionId in t.missions { RegisteredScanIsTotal(t, p.body.missionId); }
  }

  lemma PreparationIsTotal(s: Store, receipt: TerminalReceipt)
    requires CallbacksInv(s.claims, s.work, s.callbacks)
    requires Authoritative(s.work, receipt) ==> receipt.body.packetId in s.claims.packets
    ensures !PrepareContinuation(s, receipt).result.Raised?
  {
  }

  /** Verifying and replaying never escape either, while acknowledgements are exact. */
  lemma AcknowledgedCallsNeverEscape(h: seq<Store>, calls: seq<Call>, n: nat, ack: Acknowledgement,
                                     readback: SnapshotReadback, c: Continuation)
    requires IsHistory(h, calls) && n <= |calls|
    requires AcksInv(h[n].work, h[n].callbacks)
    ensures !VerifyMission(h[n], ack, readback).result.Raised?
    ensures !ReplayAcknowledged(h[n], c).Raised?
    ensures ReplayAcknowledged(h[n], c) != Rejected(ReplayIdentityConflict, ReplayNotBound)
  {
    HistoryKeepsInv(h, calls, n);
    hide Apply, WellFormed;
    var s := h[n];
    InvParts(s);
    hide Inv;
    ReplayIsTotal(s, c);
    VerifyIsTotal(s, ack, readback);
  }

  lemma ReplayIsTotal(s: Store, n: Continuation)
    requires AckStates(s.work, s.callbacks) && CallbacksInv(s.claims, s.work, s.callbacks)
    ensures !ReplayAcknowledged(s, n).Raised?
    ensures ReplayAcknowledged(s, n) != Rejected(ReplayIdentityConflict, ReplayNotBound)
  {
  }

  lemma AckPacketIsClaimed(s: Store, id: AckId)
    requires AcksInv(s.work, s.callbacks) && WorkInv(s.claims, s.work) && id in s.callbacks.acks
    ensures s.callbacks.acks[id].base.packetId in s.claims.packets
  {
    var pid := s.callbacks.acks[id].base.packetId;
    assert pid in s.callbacks.ackOf && AckFits(s.work, s.callbacks, pid);
  }

  lemma VerifyIsTotal(s: Store, ack: Acknowledgement, readback: SnapshotReadback)
    requires AcksInv(s.work, s.callbacks) && WorkInv(s.claims, s.work)
    requires PacketsHaveMissions(s.truth, s.claims) && TruthInv(s.truth)
    ensures !VerifyMission(s, ack, readback).result.Raised?
  {
    if ack.acknowledgementId in s.callbacks.acks { AckPacketIsClaimed(s, ack.acknowledgementId); }
    hide AcksInv, WorkInv, VerifyMission, TruthInv, PacketsHaveMissions, ReadbackOf, SameKeys;
    if ack.base.packetId in s.claims.packets { KeyIsRead(s, ack.base.packetId, readback); }
    if VerifyMission(s, ack, readback).result.Raised? { VerifyRaisesOnlyIf(s, ack, readback); }
  }

  lemma VerifyRaisesOnlyIf(s: Store, ack: Acknowledgement, readback: SnapshotReadback)
    requires VerifyMission(s, ack, readback).result.Raised?
    ensures ack.acknowledgementId in s.callbacks.acks
    ensures s.callbacks.acks[ack.acknowledgementId] == ack
    ensures ack.base.packetId in s.claims.packets ==>
              var p := s.claims.packets[ack.base.packetId].body;
              p.missionId in s.truth.missions ==>
                && s.truth.missions[p.missionId].revision == p.missionRevision
                && SameKeys(s.truth.missions[p.missionId], readback.body.predicates)
                && ReadbackOf(readback.body.predicates, p.predicateKey).None?
  {
  }

  /** A full readback of the packet's mission revision answers the packet's own predicate. */
  lemma KeyIsRead(s: Store, pid: PacketId, readback: SnapshotReadback)
    requires PacketsHaveMissions(s.truth, s.claims) && pid in s.claims.packets
    ensures var p := s.claims.packets[pid].body;
      && p.missionId in s.truth.missions
      && (s.truth.missions[p.missionId].revision == p.missionRevision
          && SameKeys(s.truth.missions[p.missionId], readback.body.predicates)
          ==> ReadbackOf(readback.body.predicates, p.predicateKey).Some?)
  {
  }
}
