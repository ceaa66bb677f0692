/** The store's states in plain terms, read off its maps, and the internal checks that decide them. */
module LedgerLaws {
  import opened Records
  import opened StoreSpec
  import opened StoreInvariant
  import opened Frames

  // ---------------------------------------------------------------- claims

  /** `p` was claimed under `l` and has no receipt yet. */
  predicate Open(s: Store, p: TaskPacket, l: Lease) {
    && p.id in s.claims.packets && s.claims.packets[p.id] == p
    && p.id in s.claims.leases && s.claims.leases[p.id] == l
    && p.id !in s.work.receiptOf
  }

  /** In a reachable state the lease check passes exactly for the claimed packet under its own lease,
      until its receipt. */
  lemma HeldIffOpen(s: Store, p: TaskPacket, l: Lease)
    requires Inv(s)
    ensures HoldsLease(s.claims, p, l) <==> Open(s, p, l)
  {
    hide Inv, TruthInv, StepsInv, RecoveryInv, RecoveryStepsInv, CallbacksInv, PacketsHaveMissions,
         ReceiptsFit, ReceiptsIndexed, AttemptsFit, FailuresFit, StartedFit, Fenced, ActiveDisjoint,
         ActiveCurrent;
    InvParts(s);
  }

  function CurrentVersion(c: ClaimLedger, item: string): int {
    if item in c.versions then c.versions[item] else 0
  }

  // ---------------------------------------------------------------- steps

  /** A persisted step of the packet was recorded with an unsettled effect nobody has reconciled. */
  ghost predicate HasOpenStep(s: Store, pid: PacketId) {
    exists id :: && id in s.steps.steps && s.steps.steps[id].body.packetId == pid
                 && s.steps.steps[id].body.effectState == Unsettled && id !in s.steps.reconciled
  }

  lemma UnsettledIffOpen(s: Store, pid: PacketId)
    requires Inv(s)
    ensures HasUnsettledStep(s.steps, pid) <==> HasOpenStep(s, pid)
  {
    hide Inv, TruthInv, ClaimsInv, WorkInv, RecoveryInv, RecoveryStepsInv, CallbacksInv,
         PacketsHaveMissions, TerminalSettled, StepRecordsFit, StepReconciliationsFit, LedgersFit;
    InvParts(s);
    if HasUnsettledStep(s.steps, pid) {
      var id :| id in StepsOf(s.steps, pid) && EffectiveState(s.steps, id) == Unsettled;
      ListedStep(s, pid, id);
    }
    if HasOpenStep(s, pid) {
      var id :| && id in s.steps.steps && s.steps.steps[id].body.packetId == pid
                && s.steps.steps[id].body.effectState == Unsettled && id !in s.steps.reconciled;
      PersistedStep(s, id);
    }
  }

  lemma ListedStep(s: Store, pid: PacketId, id: StepId)
    requires LedgersFit(s.steps) && StepReconciliationsFit(s.steps) && id in StepsOf(s.steps, pid)
    ensures id in s.steps.steps && s.steps.steps[id].body.packetId == pid
    ensures id in s.steps.reconciled ==> s.steps.reconciled[id].body.effectState != Unsettled
  {
    assert LedgerFits(s.steps, pid);
    assert id in s.steps.reconciled ==> StepReconciliationFits(s.steps, id);
  }

  lemma PersistedStep(s: Store, id: StepId)
    requires StepRecordsFit(s.claims, s.work, s.steps) && id in s.steps.steps
    ensures id in StepsOf(s.steps, s.steps.steps[id].body.packetId)
  {
    assert StepFits(s.claims, s.work, s.steps, id);
  }

  // ---------------------------------------------------------------- truth

  /** What the ledger holds of a mission's predicate: the parent's latest readback, else what the
      mission declares. */
  function TruthAt(t: MissionLedger, m: Mission, i: nat): Truth
    requires i < |m.predicates|
  {
    var key := (m.missionId, m.revision);
    if key in t.snapshots && i < |t.snapshots[key].body.predicates|
    then t.snapshots[key].body.predicates[i].truth
    else if m.predicates[i].satisfied then Satisfied
    else Unsatisfied
  }

  predicate SomeIndeterminate(t: MissionLedger, m: Mission) {
    exists i: nat :: i < |m.predicates| && TruthAt(t, m, i) == Indeterminate
  }

  /** The predicate at `k` is false, all before it hold, and none of the mission is in doubt. */
  predicate FirstFalseAt(t: MissionLedger, m: Mission, k: nat) {
    && k < |m.predicates| && !SomeIndeterminate(t, m) && TruthAt(t, m, k) == Unsatisfied
    && forall j: nat :: j < k ==> TruthAt(t, m, j) == Satisfied
  }

  lemma TruthsAreThese(t: MissionLedger, m: Mission)
    requires TruthInv(t) && m.missionId in t.missions && t.missions[m.missionId] == m
    ensures |Truths(t, m)| == |m.predicates|
    ensures forall i: nat :: i < |m.predicates| ==> Truths(t, m)[i] == TruthAt(t, m, i)
  {
    hide MissionWellFormed;
    var key := (m.missionId, m.revision);
    if key in t.snapshots { assert SnapshotFits(t, key); }
  }

  /** `first_false` of a registered mission: in doubt when some predicate is, naming the first such;
      otherwise the first false predicate, or none when all hold. */
  lemma ScanIsExact(t: MissionLedger, m: Mission)
    requires TruthInv(t) && m.missionId in t.missions && t.missions[m.missionId] == m
    ensures var r := FirstFalse(t, m);
      && !r.Raised?
      && (r.Rejected? <==> SomeIndeterminate(t, m))
      && (r.Rejected? ==> r.code == MissionReadbackIndeterminate)
      && (forall i: nat | r.Rejected? && i < |m.predicates| && TruthAt(t, m, i) == Indeterminate
            && (forall j: nat :: j < i ==> TruthAt(t, m, j) != Indeterminate) ::
            r.detail == PredicateIndeterminate(m.predicates[i].key))
      && (r == Ok(None) <==> forall i: nat :: i < |m.predicates| ==> TruthAt(t, m, i) == Satisfied)
      && (forall k: nat | FirstFalseAt(t, m, k) :: r == Ok(Some(m.predicates[k])))
      && (r.Ok? && r.value.Some? ==>
            exists k: nat :: FirstFalseAt(t, m, k) && m.predicates[k] == r.value.value)
  {
    hide MissionWellFormed, TruthAt, Truths, TruthInv;
    TruthsAreThese(t, m);
    var ts := Truths(t, m);
    assert ts[..|ts|] == ts;
    var i, k := FirstIndex(ts, Indeterminate), FirstIndex(ts, Unsatisfied);
    if i < |ts| {
      assert TruthAt(t, m, i) == Indeterminate;
    } else {
      assert forall j: nat :: j < |ts| ==> TruthAt(t, m, j) != Indeterminate;
      if k < |ts| {
        assert forall j: nat :: j < k ==> TruthAt(t, m, j) == Satisfied;
        assert FirstFalseAt(t, m, k);
      }
    }
  }
}
