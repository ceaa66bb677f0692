/** Registration and verification keep the mission ledger's invariant. */
module TruthSafety {
  import opened Records
  import opened StoreSpec
  import opened StoreInvariant

  /** The mission is new, or newer than the registered revision. */
  ghost predicate Newer(t: MissionLedger, m: Mission) {
    m.missionId in t.missions ==> t.missions[m.missionId].revision < m.revision
  }

  lemma RegisterKeepsTruth(t: MissionLedger, m: Mission)
    requires TruthInv(t) && MissionWellFormed(m) && Newer(t, m)
    ensures TruthInv(t.(missions := t.missions[m.missionId := m]))
  {
    hide MissionWellFormed;
    var u := t.(missions := t.missions[m.missionId := m]);
    forall key | key in u.snapshots ensures SnapshotFits(u, key) { assert SnapshotFits(t, key); }
    forall id | id in u.verifications ensures VerificationCovered(u, u.verifications[id]) {
      assert VerificationCovered(t, u.verifications[id]);
    }
  }

  lemma RegisterKeepsPackets(t: MissionLedger, c: ClaimLedger, m: Mission)
    requires PacketsHaveMissions(t, c) && Newer(t, m)
    ensures PacketsHaveMissions(t.(missions := t.missions[m.missionId := m]), c)
  {
  }

  /** The guards a readback has passed before it is stored. */
  ghost predicate Storable(t: MissionLedger, readback: SnapshotReadback) {
    var b := readback.body;
    var key := (b.missionId, b.missionRevision);
    && readback.Authentic()
    && b.missionId in t.missions && t.missions[b.missionId].revision == b.missionRevision
    && SameKeys(t.missions[b.missionId], b.predicates)
    && (key in t.snapshots ==>
          && t.snapshots[key].body.sequence <= b.sequence
          && (t.snapshots[key].body.sequence == b.sequence ==> t.snapshots[key] == readback))
  }

  function StoreReadback(t: MissionLedger, readback: SnapshotReadback, v: MissionVerification):
    MissionLedger
  {
    t.(snapshots := t.snapshots[(readback.body.missionId, readback.body.missionRevision) := readback],
       verifications := t.verifications[v.id := v])
  }

  lemma StoreReadbackKeepsTruth(t: MissionLedger, readback: SnapshotReadback,
                                v: MissionVerification)
    requires TruthInv(t) && Storable(t, readback) && v.Authentic() && readback.body.sequence >= 0
    requires v.body.missionId == readback.body.missionId
    requires v.body.missionRevision == readback.body.missionRevision
    requires v.body.sequence == readback.body.sequence
    ensures TruthInv(StoreReadback(t, readback, v))
  {
    hide MissionWellFormed, SameKeys;
    var u := StoreReadback(t, readback, v);
    forall key | key in u.snapshots ensures SnapshotFits(u, key) {
      assert key in t.snapshots ==> SnapshotFits(t, key);
    }
    forall id | id in u.verifications ensures VerificationCovered(u, u.verifications[id]) {
      assert id in t.verifications ==> VerificationCovered(t, t.verifications[id]);
    }
  }

  /** A readback is accepted only if it is storable; it is then the stored snapshot, also when the
      verification was already on record and the write is skipped. */
  lemma AcceptedReadbackIsStored(s: Store, ack: Acknowledgement, readback: SnapshotReadback)
    requires TruthInv(s.truth) && VerifyMission(s, ack, readback).result.Ok?
    ensures Storable(s.truth, readback)
    ensures var o := VerifyMission(s, ack, readback);
      var key := (readback.body.missionId, readback.body.missionRevision);
      && key in o.store.truth.snapshots && o.store.truth.snapshots[key] == readback
      && o.result.value == VerificationFor(ack, s.claims.packets[ack.base.packetId].body.predicateKey,
                                           ReadbackOf(readback.body.predicates,
                                             s.claims.packets[ack.base.packetId].body.predicateKey)
                                           .value.truth, readback)
      && (o.store == s || o.store == s.(truth := StoreReadback(s.truth, readback, o.result.value)))
  {
    hide NextOf, ReadbackOf, SameKeys, MissionWellFormed;
    var v := VerificationFor(ack, s.claims.packets[ack.base.packetId].body.predicateKey,
                             ReadbackOf(readback.body.predicates,
                               s.claims.packets[ack.base.packetId].body.predicateKey).value.truth,
                             readback);
    if v.id in s.truth.verifications {
      assert VerificationCovered(s.truth, s.truth.verifications[v.id]);
    }
  }

  lemma MissionsOf(t: MissionLedger)
    requires TruthInv(t)
    ensures MissionsFit(t)
  {
  }
}
