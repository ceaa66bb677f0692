/** The joint invariant of the store, one predicate for each group of fields that bind each other. */
module StoreInvariant {
  import opened Records
  import opened StoreSpec

  // ---------------------------------------------------------------- missions and snapshots

  ghost predicate SnapshotFits(t: MissionLedger, key: SnapshotKey)
    requires key in t.snapshots
  {
    var b := t.snapshots[key].body;
    && t.snapshots[key].Authentic() && b.sequence >= 0
    && key == (b.missionId, b.missionRevision)
    && b.missionId in t.missions
    && b.missionRevision <= t.missions[b.missionId].revision
    && (b.missionRevision == t.missions[b.missionId].revision
        ==> SameKeys(t.missions[b.missionId], b.predicates))
  }

  /** A recorded verification is never ahead of the stored snapshot of its mission revision. */
  ghost predicate VerificationCovered(t: MissionLedger, v: MissionVerification) {
    var key := (v.body.missionId, v.body.missionRevision);
    key in t.snapshots && v.body.sequence <= t.snapshots[key].body.sequence
  }

  ghost predicate MissionsFit(t: MissionLedger) {
    forall id :: id in t.missions ==>
      t.missions[id].missionId == id && MissionWellFormed(t.missions[id])
  }

  ghost predicate SnapshotsFit(t: MissionLedger) {
    forall key :: key in t.snapshots ==> SnapshotFits(t, key)
  }

  ghost predicate VerificationsFit(t: MissionLedger) {
    forall id :: id in t.verifications ==>
      && t.verifications[id].id == id && t.verifications[id].Authentic()
      && VerificationCovered(t, t.verifications[id])
  }

  ghost predicate TruthInv(t: MissionLedger) {
    MissionsFit(t) && SnapshotsFit(t) && VerificationsFit(t)
  }

  // ---------------------------------------------------------------- leases and fencing

  /** A claimed packet is authentic and holds exactly the lease its own versions fix. */
  ghost predicate ClaimedPacket(c: ClaimLedger, pid: PacketId)
    requires pid in c.packets
  {
    var p := c.packets[pid];
    && pid in c.leases
    && p.id == pid && p.Authentic()
    && c.leases[pid] == LeaseFor(p)
    && |p.body.scope| > 0 && p.body.recoveryBudget >= 0
    && |p.body.scopeVersions| == |p.body.scope|
    && forall i :: 0 <= i < |p.body.scope| ==> p.body.scopeVersions[i].0 == p.body.scope[i]
  }

  /** The claim of `pid` raised `item` to version `v`. */
  ghost predicate Granted(c: ClaimLedger, pid: PacketId, item: string, v: int) {
    pid in c.leases && (item, v) in c.leases[pid].scopeVersions
  }

  ghost predicate Fenced(c: ClaimLedger) {
    && (forall p, item, v :: Granted(c, p, item, v) ==> v <= Version(c.versions, item))
    && (forall p, q, item, v :: Granted(c, p, item, v) && Granted(c, q, item, v) ==> p == q)
  }

  ghost predicate ActiveDisjoint(c: ClaimLedger) {
    forall a, b :: a in c.active && b in c.active && a != b ==>
      !Overlaps(c.active[a].scope, c.active[b].scope)
  }

  ghost predicate ActiveCurrent(c: ClaimLedger) {
    forall a, item, v :: a in c.active && (item, v) in c.active[a].scopeVersions ==>
      v == Version(c.versions, item)
  }

  ghost predicate PacketsFit(c: ClaimLedger) {
    && c.leases.Keys == c.packets.Keys
    && forall pid :: pid in c.packets ==> ClaimedPacket(c, pid)
  }

  ghost predicate ActiveFit(c: ClaimLedger) {
    forall k :: k in c.active ==>
      && c.active[k].leaseId == k
      && c.active[k].packetId in c.leases
      && c.leases[c.active[k].packetId] == c.active[k]
  }

  ghost predicate ClaimsInv(c: ClaimLedger) {
    PacketsFit(c) && ActiveFit(c) && Fenced(c) && ActiveDisjoint(c) && ActiveCurrent(c)
  }

  // ---------------------------------------------------------------- attempts and receipts

  ghost predicate IsActive(c: ClaimLedger, pid: PacketId) {
    pid in c.leases && c.leases[pid].leaseId in c.active
  }

  /** The receipt of a packet carries that packet's identities, and BLOCKED means never started. */
  ghost predicate ReceiptFits(c: ClaimLedger, w: WorkLedger, pid: PacketId)
    requires pid in w.receiptOf
  {
    var b := w.receiptOf[pid].body;
    && w.receiptOf[pid].Authentic()
    && pid in c.packets && pid in c.leases
    && b.packetId == pid && b.leaseId == c.leases[pid].leaseId
    && b.missionId == c.packets[pid].body.missionId
    && b.missionRevision == c.packets[pid].body.missionRevision
    && b.executorId == c.packets[pid].body.executorId
    && (b.status == Blocked <==> pid !in w.started)
    && (b.effectId.Some? <==> b.effectState == Settled)
    && (b.effectId.None? <==> b.effectState == NoEffect)
    && (b.effectId.Some? ==> b.effectId.value in w.owner && w.owner[b.effectId.value] == pid)
    && w.receiptOf[pid].id in w.receipts && w.receipts[w.receiptOf[pid].id] == w.receiptOf[pid]
  }

  ghost predicate AttemptNamesPacket(c: ClaimLedger, w: WorkLedger, pid: PacketId)
    requires pid in w.attempts
  {
    var a := w.attempts[pid];
    && pid in w.started && pid in c.packets && pid in c.leases
    && a.packetId == pid && a.leaseId == c.leases[pid].leaseId
    && a.executorId == c.packets[pid].body.executorId
    && NonBlank(a.effectId)
  }

  /** An attempt names its packet; until the receipt it is unsettled and owns its effect. */
  ghost predicate AttemptFits(c: ClaimLedger, w: WorkLedger, pid: PacketId)
    requires pid in w.attempts
  {
    var a := w.attempts[pid];
    && AttemptNamesPacket(c, w, pid)
    && (pid !in w.receiptOf ==>
          a.effectState == Unsettled && a.effectId in w.owner && w.owner[a.effectId] == pid)
  }

  ghost predicate FailureFits(c: ClaimLedger, w: WorkLedger, pid: PacketId)
    requires pid in w.failures
  {
    var f := w.failures[pid];
    && pid in w.started && pid in c.packets && pid in c.leases
    && f.Authentic() && f.body.packetId == pid && f.body.leaseId == c.leases[pid].leaseId
    && FailureCodeAllowed(f.body.code, f.body.origin)
  }

  /** Claimed packets are the disjoint union of the leased ones and the terminal ones. */
  ghost predicate Partitioned(c: ClaimLedger, w: WorkLedger) {
    && w.receiptOf.Keys <= c.packets.Keys
    && forall pid :: pid in c.packets ==> (IsActive(c, pid) <==> pid !in w.receiptOf)
  }

  ghost predicate ReceiptsFit(c: ClaimLedger, w: WorkLedger) {
    forall pid :: pid in w.receiptOf ==> ReceiptFits(c, w, pid)
  }

  ghost predicate ReceiptsIndexed(w: WorkLedger) {
    forall id :: id in w.receipts ==>
      && w.receipts[id].id == id && w.receipts[id].Authentic()
      && w.receipts[id].body.packetId in w.receiptOf
      && w.receiptOf[w.receipts[id].body.packetId] == w.receipts[id]
  }

  ghost predicate AttemptsFit(c: ClaimLedger, w: WorkLedger) {
    forall pid :: pid in w.attempts ==> AttemptFits(c, w, pid)
  }

  ghost predicate FailuresFit(c: ClaimLedger, w: WorkLedger) {
    forall pid :: pid in w.failures ==> FailureFits(c, w, pid)
  }

  ghost predicate StartedFit(c: ClaimLedger, w: WorkLedger) {
    && w.started <= c.packets.Keys
    && forall e :: e in w.owner ==> w.owner[e] in w.started
  }

  ghost predicate WorkInv(c: ClaimLedger, w: WorkLedger) {
    && Partitioned(c, w) && ReceiptsFit(c, w) && ReceiptsIndexed(w)
    && AttemptsFit(c, w) && FailuresFit(c, w) && StartedFit(c, w)
  }

  // ---------------------------------------------------------------- steps

  ghost predicate StepFits(c: ClaimLedger, w: WorkLedger, st: StepLedger, id: StepId)
    requires id in st.steps
  {
    var b := st.steps[id].body;
    && st.steps[id].id == id && st.steps[id].Authentic() && StepWellFormed(b)
    && b.packetId in w.started && b.packetId in c.leases
    && b.leaseId == c.leases[b.packetId].leaseId
    && id in StepsOf(st, b.packetId)
    && (b.effectId.Some? ==>
          b.effectId.value in st.effectOwner && st.effectOwner[b.effectId.value] == id)
  }

  ghost predicate StepReconciliationFits(st: StepLedger, id: StepId)
    requires id in st.reconciled
  {
    && id in st.steps && st.steps[id].body.effectState == Unsettled
    && st.reconciled[id].body.stepId == id
    && st.reconciled[id].body.effectState != Unsettled
    && st.steps[id].body.effectId == Some(st.reconciled[id].body.effectId)
  }

  /** Each packet's ledger lists its own persisted steps once each, parents before children. */
  ghost predicate LedgerFits(st: StepLedger, pid: PacketId) {
    var ids := StepsOf(st, pid);
    && (forall i :: 0 <= i < |ids| ==> ids[i] in st.steps && st.steps[ids[i]].body.packetId == pid)
    && (forall i, j :: 0 <= i < j < |ids| ==> ids[i] != ids[j])
    && (forall i :: 0 <= i < |ids| && st.steps[ids[i]].body.recovery.Some? ==>
          st.steps[ids[i]].body.recovery.value.parent in ids[..i])
  }

  ghost predicate StepRecordsFit(c: ClaimLedger, w: WorkLedger, st: StepLedger) {
    forall id :: id in st.steps ==> StepFits(c, w, st, id)
  }

  ghost predicate StepReconciliationsFit(st: StepLedger) {
    forall id :: id in st.reconciled ==> StepReconciliationFits(st, id)
  }

  ghost predicate LedgersFit(st: StepLedger) { forall pid :: LedgerFits(st, pid) }

  /** No packet with a receipt has a step whose effect is still open. */
  ghost predicate TerminalSettled(w: WorkLedger, st: StepLedger) {
    forall pid :: pid in w.receiptOf ==> !HasUnsettledStep(st, pid)
  }

  ghost predicate StepsInv(c: ClaimLedger, w: WorkLedger, st: StepLedger) {
    && StepRecordsFit(c, w, st) && StepReconciliationsFit(st)
    && LedgersFit(st) && TerminalSettled(w, st)
  }

  // ---------------------------------------------------------------- recovery

  /** What admission has checked of a proposal against its packet. */
  ghost predicate InsideEnvelope(p: PacketBody, q: ProposalBody) {
    && Within(q.requiredScope, p.scope) && q.authorityDelta == 0
    && q.verificationPlan != [] && q.actions != [] && q.budget > 0
    && q.predicateKey == p.predicateKey && q.expectedDelta == p.expectedDelta
    && q.destination == p.destination
    && forall a :: a in q.actions ==>
         Within(a.body.scope, p.scope) && a.body.effectClass in {ReadOnly, ReversibleLocal}
  }

  ghost predicate AdmissionFits(c: ClaimLedger, r: RecoveryLedger, id: ProposalId)
    requires id in r.admissions
  {
    var a := r.admissions[id];
    && a.Authentic() && a.body.proposalId == id
    && id in r.proposals && r.proposals[id].id == id && ProposalAuthentic(r.proposals[id])
    && r.proposals[id].body.blockerId == a.body.blockerId
    && r.proposals[id].body.packetId == a.body.packetId
    && r.proposals[id].body.leaseId == a.body.leaseId
    && a.body.packetId in c.packets && a.body.packetId in c.leases
    && a.body.leaseId == c.leases[a.body.packetId].leaseId
    && a.id in r.admissionById && r.admissionById[a.id] == a
    && (a.body.state == Admitted ==>
          && a.body.fingerprint in r.fingerprints
          && InsideEnvelope(c.packets[a.body.packetId].body, r.proposals[id].body))
  }

  ghost predicate IsAdmitted(r: RecoveryLedger, id: ProposalId) {
    id in r.admissions && r.admissions[id].body.state == Admitted
  }

  ghost function AdmittedFor(r: RecoveryLedger, pid: PacketId): set<ProposalId> {
    set id | id in r.admissions && IsAdmitted(r, id) && r.admissions[id].body.packetId == pid
  }

  /** The budgets of a set of proposals, added up. */
  ghost function BudgetSum(r: RecoveryLedger, ids: set<ProposalId>): int
    requires ids <= r.proposals.Keys
  {
    if ids == {} then 0
    else var id :| id in ids; r.proposals[id].body.budget + BudgetSum(r, ids - {id})
  }

  ghost predicate BudgetExact(c: ClaimLedger, r: RecoveryLedger, pid: PacketId) {
    && AdmittedFor(r, pid) <= r.proposals.Keys
    && Consumed(r, pid) == BudgetSum(r, AdmittedFor(r, pid))
    && (pid in c.packets ==> 0 <= Consumed(r, pid) <= c.packets[pid].body.recoveryBudget)
    && (pid !in c.packets ==> Consumed(r, pid) == 0)
  }

  ghost predicate AdmissionsFit(c: ClaimLedger, r: RecoveryLedger) {
    && r.proposals.Keys == r.admissions.Keys
    && forall id :: id in r.admissions ==> AdmissionFits(c, r, id)
  }

  ghost predicate AdmissionsIndexed(r: RecoveryLedger) {
    forall id :: id in r.admissionById ==>
      && r.admissionById[id].id == id && r.admissionById[id].Authentic()
      && r.admissionById[id].body.proposalId in r.admissions
      && r.admissions[r.admissionById[id].body.proposalId] == r.admissionById[id]
  }

  /** A fingerprint is admitted at most once, ever. */
  ghost predicate FingerprintsOnce(r: RecoveryLedger) {
    forall a, b :: IsAdmitted(r, a) && IsAdmitted(r, b)
                   && r.admissions[a].body.fingerprint == r.admissions[b].body.fingerprint
      ==> a == b
  }

  ghost predicate BudgetsExact(c: ClaimLedger, r: RecoveryLedger) {
    forall pid :: BudgetExact(c, r, pid)
  }

  ghost predicate BlockersFit(r: RecoveryLedger) {
    forall id :: id in r.blockers ==> r.blockers[id].id == id && r.blockers[id].Authentic()
  }

  ghost predicate RecoveryInv(c: ClaimLedger, r: RecoveryLedger) {
    && BlockersFit(r) && AdmissionsFit(c, r) && AdmissionsIndexed(r)
    && FingerprintsOnce(r) && BudgetsExact(c, r)
  }

  /** Every recovery step stands on an ADMITTED action of its own packet. */
  ghost predicate RecoveryStepsInv(st: StepLedger, r: RecoveryLedger) {
    forall id :: id in st.steps && st.steps[id].body.recovery.Some? ==>
      AdmittedAction(r, st.steps[id].body.packetId, st.steps[id].body.leaseId, st.steps[id].body,
                     st.steps[id].body.recovery.value)
  }

  // ---------------------------------------------------------------- continuations

  /** A continuation's identity is fixed by its receipt and its packet's destination. */
  ghost predicate ContinuationFits(c: ClaimLedger, w: WorkLedger, k: CallbackLedger,
                                   id: ContinuationId)
    requires id in k.continuations
  {
    var n := k.continuations[id];
    && n.continuationId == id
    && n.receiptId in w.receipts
    && w.receipts[n.receiptId].body.packetId in c.packets
    && n == ContinuationFor(n.receiptId,
                            c.packets[w.receipts[n.receiptId].body.packetId].body.destination)
            .(state := n.state)
    && n.receiptId in k.byReceipt && k.byReceipt[n.receiptId] == id
  }

  /** The acknowledgement of a packet names its receipt and its acknowledged continuation. */
  ghost predicate AckFits(w: WorkLedger, k: CallbackLedger, pid: PacketId)
    requires pid in k.ackOf
  {
    var a := k.ackOf[pid];
    && a.Authentic() && a.base.packetId == pid
    && pid in w.receiptOf && a.base.receiptId == w.receiptOf[pid].id
    && a.base.receiptId in k.byReceipt && k.byReceipt[a.base.receiptId] == a.base.continuationId
    && a.base.continuationId in k.continuations
    && k.continuations[a.base.continuationId].state == Acknowledged
    && a.acknowledgementId in k.acks && k.acks[a.acknowledgementId] == a
  }

  ghost predicate ContinuationsFit(c: ClaimLedger, w: WorkLedger, k: CallbackLedger) {
    forall id :: id in k.continuations ==> ContinuationFits(c, w, k, id)
  }

  ghost predicate ByReceiptFit(k: CallbackLedger) {
    forall id :: id in k.byReceipt ==>
      k.byReceipt[id] in k.continuations && k.continuations[k.byReceipt[id]].receiptId == id
  }

  ghost predicate AcksFit(w: WorkLedger, k: CallbackLedger) {
    forall pid :: pid in k.ackOf ==> AckFits(w, k, pid)
  }

  ghost predicate AcksIndexed(k: CallbackLedger) {
    forall id :: id in k.acks ==>
      && k.acks[id].acknowledgementId == id
      && k.acks[id].base.packetId in k.ackOf
      && k.ackOf[k.acks[id].base.packetId] == k.acks[id]
  }

  ghost predicate CallbacksInv(c: ClaimLedger, w: WorkLedger, k: CallbackLedger) {
    ContinuationsFit(c, w, k) && ByReceiptFit(k)
  }

  ghost predicate AckStates(w: WorkLedger, k: CallbackLedger) {
    forall id :: id in k.continuations && k.continuations[id].receiptId in w.receipts ==>
      (k.continuations[id].state == Acknowledged
       <==> w.receipts[k.continuations[id].receiptId].body.packetId in k.ackOf)
  }

  /** Acknowledged continuations, acknowledgements and acknowledged packets correspond one to one.
      Not part of `Inv`: `acknowledge_after_convergence` does not check that its receipt is the
      stored one. */
  ghost predicate AcksInv(w: WorkLedger, k: CallbackLedger) {
    AckStates(w, k) && AcksFit(w, k) && AcksIndexed(k)
  }

  /** A claimed packet's mission stays registered, at no older revision. */
  ghost predicate PacketsHaveMissions(t: MissionLedger, c: ClaimLedger) {
    forall pid :: pid in c.packets ==>
      && c.packets[pid].body.missionId in t.missions
      && c.packets[pid].body.missionRevision <= t.missions[c.packets[pid].body.missionId].revision
      && (c.packets[pid].body.missionRevision == t.missions[c.packets[pid].body.missionId].revision
          ==> exists i :: 0 <= i < |t.missions[c.packets[pid].body.missionId].predicates|
                && t.missions[c.packets[pid].body.missionId].predicates[i].key
                   == c.packets[pid].body.predicateKey)
  }

  ghost predicate Inv(s: Store) {
    && TruthInv(s.truth)
    && ClaimsInv(s.claims)
    && WorkInv(s.claims, s.work)
    && StepsInv(s.claims, s.work, s.steps)
    && RecoveryInv(s.claims, s.recovery)
    && RecoveryStepsInv(s.steps, s.recovery)
    && CallbacksInv(s.claims, s.work, s.callbacks)
    && PacketsHaveMissions(s.truth, s.claims)
  }
}
