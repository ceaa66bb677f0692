/** What registers, what is verified, and what a verification says, field by field. */
module VerdictLaws {
  import opened Records
  import opened StoreSpec
  import opened StoreInvariant
  import opened TruthSafety
  import opened Frames

  /** A mission registers when it is new, newer, or the one registered; the ledger then has it. */
  lemma RegistrationAnsweredIff(s: Store, m: Mission)
    ensures var o := RegisterMission(s, m);
            var ms := s.truth.missions;
      && (o.result.Ok? <==> || m.missionId !in ms || m == ms[m.missionId]
                            || m.revision > ms[m.missionId].revision)
      && (if o.result.Ok? then o.store == s.(truth := s.truth.(missions := ms[m.missionId := m]))
          else o.store == s && o.result.Rejected? && o.result.code == StaleIdentity)
  {
    if m.missionId in s.truth.missions && m == s.truth.missions[m.missionId] {
      assert s.truth.missions[m.missionId := m] == s.truth.missions;
    }
  }

  // ---------------------------------------------------------------- accepted readbacks

  predicate AckFiled(k: CallbackLedger, a: Acknowledgement) {
    a.acknowledgementId in k.acks && k.acks[a.acknowledgementId] == a
  }

  /** The acknowledgement is the stored one and all its four ids are its own. */
  predicate AckStands(k: CallbackLedger, a: Acknowledgement) {
    && AckFiled(k, a) && a.acknowledgementId == Of(a.base) && a.callbackAckId == Of(a.base)
    && a.receiptAckId == Of(a.base) && a.continuationAckId == Of(a.base)
  }

  /** The acknowledged packet's mission, registered at the packet's revision, is the one read back. */
  predicate ReadsMissionOf(s: Store, pid: PacketId, b: ReadbackBody) {
    && pid in s.claims.packets
    && var p := s.claims.packets[pid].body;
    && p.missionId in s.truth.missions
    && s.truth.missions[p.missionId].revision == p.missionRevision
    && b.missionId == p.missionId && b.missionRevision == p.missionRevision
  }

  /** The readback lists the mission's predicates, all of them and in order. */
  predicate ListsPredicates(m: Mission, ps: seq<PredicateReadback>) {
    && |ps| == |m.predicates|
    && forall i :: 0 <= i < |ps| ==> ps[i].key == m.predicates[i].key
  }

  /** No readback at or past this sequence is stored, other than this very one. */
  predicate NotOverrun(t: MissionLedger, readback: SnapshotReadback) {
    var key := (readback.body.missionId, readback.body.missionRevision);
    key in t.snapshots ==>
      t.snapshots[key].body.sequence < readback.body.sequence || t.snapshots[key] == readback
  }

  predicate OlderThanStored(t: MissionLedger, readback: SnapshotReadback) {
    var key := (readback.body.missionId, readback.body.missionRevision);
    key in t.snapshots && readback.body.sequence < t.snapshots[key].body.sequence
  }

  /** `verify_mission` accepts exactly these readbacks. */
  lemma ReadbackAcceptedIff(s: Store, a: Acknowledgement, readback: SnapshotReadback)
    requires Inv(s)
    ensures VerifyMission(s, a, readback).result.Ok? <==>
            && AckStands(s.callbacks, a) && readback.id == Of(readback.body)
            && ReadsMissionOf(s, a.base.packetId, readback.body)
            && ListsPredicates(s.truth.missions[readback.body.missionId], readback.body.predicates)
            && NotOverrun(s.truth, readback)
    ensures var o, b := VerifyMission(s, a, readback), readback.body;
      !o.result.Ok? ==>
        && o.store == s
        && (o.result.Raised? ==> a.base.packetId !in s.claims.packets)
        && (o.result.Rejected? ==>
              && o.result.code in {StaleIdentity, ReplayIdentityConflict}
              && (o.result.code == ReplayIdentityConflict <==>
                    && AckFiled(s.callbacks, a)
                    && (!AckStands(s.callbacks, a) || readback.id != Of(b)
                        || (ReadsMissionOf(s, a.base.packetId, b)
                            && ListsPredicates(s.truth.missions[b.missionId], b.predicates)
                            && !OlderThanStored(s.truth, readback)))))
  {
    hide Inv, TruthInv, ClaimsInv, WorkInv, StepsInv, RecoveryInv, RecoveryStepsInv, CallbacksInv,
         PacketsHaveMissions, VerificationFor, MissionsFit;
    InvParts(s);
    if a.base.packetId in s.claims.packets {
      MissionOfPacket(s, a.base.packetId);
      AsksForReadKey(s, a.base.packetId, readback.body);
      PacketHasMission(s, a.base.packetId);
    }
  }

  lemma PacketHasMission(s: Store, pid: PacketId)
    requires PacketsHaveMissions(s.truth, s.claims) && pid in s.claims.packets
    ensures s.claims.packets[pid].body.missionId in s.truth.missions
  {
  }

  lemma MissionOfPacket(s: Store, pid: PacketId)
    requires TruthInv(s.truth) && pid in s.claims.packets
    ensures var id := s.claims.packets[pid].body.missionId;
      id in s.truth.missions ==> s.truth.missions[id].missionId == id
  {
    hide MissionWellFormed;
  }

  /** The packet's own predicate is among those read back. */
  lemma AsksForReadKey(s: Store, pid: PacketId, b: ReadbackBody)
    requires PacketsHaveMissions(s.truth, s.claims) && pid in s.claims.packets
    ensures ReadsMissionOf(s, pid, b) && SameKeys(s.truth.missions[b.missionId], b.predicates) ==>
              ReadbackOf(b.predicates, s.claims.packets[pid].body.predicateKey).Some?
  {
    if ReadsMissionOf(s, pid, b) && SameKeys(s.truth.missions[b.missionId], b.predicates) {
      var m := s.truth.missions[b.missionId];
      var i :| 0 <= i < |m.predicates|
               && m.predicates[i].key == s.claims.packets[pid].body.predicateKey;
      assert b.predicates[i].key == m.predicates[i].key;
    }
  }

  // ---------------------------------------------------------------- what a verification says

  /** The verdict on the packet's predicate is the readback's on that predicate, whichever it is. */
  predicate SaysOf(b: ReadbackBody, key: string, truth: Truth) {
    && (exists i :: 0 <= i < |b.predicates| && b.predicates[i].key == key)
    && forall i :: 0 <= i < |b.predicates| && b.predicates[i].key == key ==>
         b.predicates[i].truth == truth
  }

  predicate InDoubt(ps: seq<PredicateReadback>) {
    exists i :: 0 <= i < |ps| && ps[i].truth == Indeterminate
  }

  /** What is to be done next: read again while something is in doubt, else take a route to the first
      predicate that is false, else nothing. */
  predicate AsksNext(ps: seq<PredicateReadback>, action: NextAction, key: Option<string>) {
    match action
    case ReadbackRecheck =>
      exists i | 0 <= i < |ps| && ps[i].truth == Indeterminate && key == Some(ps[i].key) ::
        forall j :: 0 <= j < i ==> ps[j].truth != Indeterminate
    case RouteSelection =>
      && !InDoubt(ps)
      && exists i | 0 <= i < |ps| && ps[i].truth == Unsatisfied && key == Some(ps[i].key) ::
           forall j :: 0 <= j < i ==> ps[j].truth == Satisfied
    case MissionComplete =>
      key == None && forall i :: 0 <= i < |ps| ==> ps[i].truth == Satisfied
  }

  lemma NextIsAsked(ps: seq<PredicateReadback>)
    ensures AsksNext(ps, NextOf(ps).0, NextOf(ps).1)
  {
    var ts := ReadbackTruths(ps);
    var i, k := FirstIndex(ts, Indeterminate), FirstIndex(ts, Unsatisfied);
    if i < |ps| {
      assert ps[i].truth == Indeterminate;
    } else {
      assert forall j :: 0 <= j < |ps| ==> ts[j] != Indeterminate && ps[j].truth == ts[j];
      if k < |ps| { assert ps[k].truth == Unsatisfied; }
    }
  }

  /** A returned verification is authentic and about the acknowledged packet: its mission and revision,
      state revision, sequence and evidence are the readback's, its verdict is the readback's on the
      packet's predicate, and it asks for what the readback leaves to do. */
  lemma VerdictIsTheReadbacks(s: Store, a: Acknowledgement, readback: SnapshotReadback)
    requires Inv(s) && VerifyMission(s, a, readback).result.Ok?
    ensures var v, b := VerifyMission(s, a, readback).result.value, readback.body;
      && v.id == Of(v.body)
      && a.base.packetId in s.claims.packets
      && v.body.predicateKey == s.claims.packets[a.base.packetId].body.predicateKey
      && SaysOf(b, v.body.predicateKey, v.body.predicateTruth)
      && v.body.missionId == b.missionId && v.body.missionRevision == b.missionRevision
      && v.body.stateRevision == b.stateRevision && v.body.sequence == b.sequence
      && v.body.readbackEvidence == b.evidenceDigest && v.body.readbackId == readback.id
      && v.body.acknowledgementId == a.acknowledgementId
      && AsksNext(b.predicates, v.body.nextAction, v.body.nextKey)
  {
    hide Inv, TruthInv, ClaimsInv, WorkInv, StepsInv, RecoveryInv, RecoveryStepsInv, CallbacksInv,
         PacketsHaveMissions, Storable, StoreReadback, NextOf, AsksNext, SaysOf, VerifyMission;
    InvParts(s);
    ReadbackAcceptedIff(s, a, readback);
    AcceptedReadbackIsStored(s, a, readback);
    KeysAreUnique(s.truth, readback.body);
    NextIsAsked(readback.body.predicates);
    var key := s.claims.packets[a.base.packetId].body.predicateKey;
    AsksForReadKey(s, a.base.packetId, readback.body);
    OneEntrySays(readback.body, key);
  }

  lemma KeysAreUnique(t: MissionLedger, b: ReadbackBody)
    requires TruthInv(t) && b.missionId in t.missions
    requires ListsPredicates(t.missions[b.missionId], b.predicates)
    ensures forall i, j :: 0 <= i < j < |b.predicates| ==> b.predicates[i].key != b.predicates[j].key
  {
  }

  lemma OneEntrySays(b: ReadbackBody, key: string)
    requires forall i, j :: 0 <= i < j < |b.predicates| ==> b.predicates[i].key != b.predicates[j].key
    requires ReadbackOf(b.predicates, key).Some?
    ensures SaysOf(b, key, ReadbackOf(b.predicates, key).value.truth)
  {
    var e := ReadbackOf(b.predicates, key).value;
    var i :| 0 <= i < |b.predicates| && b.predicates[i] == e;
  }

  /** The readback and its verification are then on record, and the rest of the store is as it was. */
  lemma VerdictIsStored(s: Store, a: Acknowledgement, readback: SnapshotReadback)
    requires Inv(s) && VerifyMission(s, a, readback).result.Ok?
    ensures var o, b := VerifyMission(s, a, readback), readback.body;
            var t := o.store.truth;
      && o.store == s.(truth := s.truth.(snapshots := t.snapshots, verifications := t.verifications))
      && t.snapshots == s.truth.snapshots[(b.missionId, b.missionRevision) := readback]
      && t.verifications == s.truth.verifications[o.result.value.id := o.result.value]
  {
    hide Inv, TruthInv, ClaimsInv, WorkInv, StepsInv, RecoveryInv, RecoveryStepsInv, CallbacksInv,
         PacketsHaveMissions, Storable, VerificationFor, VerifyMission;
    InvParts(s);
    AcceptedReadbackIsStored(s, a, readback);
    StoredTwice(s, a, readback);
  }

  /** A skipped write would have written what is there. */
  lemma StoredTwice(s: Store, a: Acknowledgement, readback: SnapshotReadback)
    requires TruthInv(s.truth) && VerifyMission(s, a, readback).result.Ok?
    ensures var v := VerifyMission(s, a, readback).result.value;
      VerifyMission(s, a, readback).store == s ==>
        v.id in s.truth.verifications && s.truth.verifications[v.id] == v
  {
    hide MissionsFit, SnapshotsFit, VerificationFor, SameKeys;
  }
}
