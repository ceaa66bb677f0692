/** The way out: when, and in how many calls, a leased packet can still reach its receipt. */
module Closing {
  import opened Records
  import opened StoreSpec
  import opened StoreInvariant
  import opened StoreSafety
  import opened Frames

  // ---------------------------------------------------------------- the measure

  /** How many of the listed steps have an open effect. */
  function CountUnsettled(st: StepLedger, ids: seq<StepId>): nat {
    if |ids| == 0 then 0
    else CountUnsettled(st, ids[1..]) + if EffectiveState(st, ids[0]) == Unsettled then 1 else 0
  }

  function Unresolved(st: StepLedger, pid: PacketId): nat { CountUnsettled(st, StepsOf(st, pid)) }

  lemma {:induction false} CountIsZeroIff(st: StepLedger, ids: seq<StepId>)
    ensures CountUnsettled(st, ids) == 0 <==> forall id :: id in ids ==> EffectiveState(st, id) != Unsettled
  {
    if |ids| > 0 {
      CountIsZeroIff(st, ids[1..]);
      assert forall id :: id in ids <==> id == ids[0] || id in ids[1..];
    }
  }

  lemma UnresolvedIsZeroIff(st: StepLedger, pid: PacketId)
    ensures Unresolved(st, pid) == 0 <==> !HasUnsettledStep(st, pid)
  {
    CountIsZeroIff(st, StepsOf(st, pid));
  }

  /** Settling one listed step once takes one off the count. */
  lemma {:induction false} SettlingCounts(st: StepLedger, ids: seq<StepId>, id: StepId,
                                          r: StepReconciliation)
    requires forall i, j :: 0 <= i < j < |ids| ==> ids[i] != ids[j]
    requires EffectiveState(st, id) == Unsettled && r.body.effectState != Unsettled
    ensures var x := st.(reconciled := st.reconciled[id := r]);
      CountUnsettled(x, ids) == CountUnsettled(st, ids) - if id in ids then 1 else 0
  {
    if |ids| > 0 {
      SettlingCounts(st, ids[1..], id, r);
      assert forall other :: other in ids <==> other == ids[0] || other in ids[1..];
    }
  }

  // ---------------------------------------------------------------- one call nearer

  /** The packet holds its lease. */
  ghost predicate Leased(s: Store, pid: PacketId) {
    pid in s.claims.packets && pid in s.claims.leases && IsActive(s.claims, pid)
  }

  lemma LeaseIsHeld(s: Store, pid: PacketId)
    requires Inv(s) && Leased(s, pid)
    ensures HoldsLease(s.claims, s.claims.packets[pid], s.claims.leases[pid])
    ensures pid !in s.work.receiptOf && s.claims.packets[pid].id == pid
    ensures s.claims.leases[pid].packetId == pid && pid.Of? && s.claims.leases[pid].leaseId.Of?
  {
    hide Inv, Fenced, ActiveDisjoint, ActiveCurrent, ReceiptsFit, ReceiptsIndexed, AttemptsFit,
         FailuresFit, StartedFit, TruthInv, StepsInv, RecoveryInv, CallbacksInv,
         PacketsHaveMissions, RecoveryStepsInv;
    InvParts(s);
    assert ClaimedPacket(s.claims, pid);
    LeasedIsOpen(s, pid);
    var other := s.claims.active[s.claims.leases[pid].leaseId].packetId;
    assert ClaimedPacket(s.claims, other);
  }

  /** Texts that stand for whatever the parent's evidence says. */
  const PROOF := "proof"
  const OUTPUT := "output"

  lemma EvidenceIsText()
    ensures NonBlank(PROOF) && NonBlank(OUTPUT)
  {
    assert PROOF[0] == 'p' && !IsSpace('p');
    assert OUTPUT[0] == 'o' && !IsSpace('o');
  }

  /** The proof that settles step `id` of packet `pid`. */
  function SettleStep(s: Store, pid: PacketId, id: StepId): Call
    requires pid in s.claims.packets && pid in s.claims.leases && id in s.steps.steps
  {
    var effect := s.steps.steps[id].body.effectId;
    DoReconcileStep(s.claims.packets[pid], s.claims.leases[pid],
                    Seal(StepReconciliationBody(pid, s.claims.leases[pid].leaseId, id,
                                                if effect.Some? then effect.value else "", Settled,
                                                PROOF)))
  }

  lemma UnsettledIsPersisted(s: Store, pid: PacketId, id: StepId)
    requires StepsInv(s.claims, s.work, s.steps) && id in StepsOf(s.steps, pid)
    requires EffectiveState(s.steps, id) == Unsettled
    ensures id in s.steps.steps && id !in s.steps.reconciled
    ensures s.steps.steps[id].body.packetId == pid && s.steps.steps[id].body.effectState == Unsettled
    ensures pid in s.claims.leases
    ensures s.steps.steps[id].body.leaseId == s.claims.leases[pid].leaseId
    ensures s.steps.steps[id].body.effectId.Some? && pid in s.work.started && id.Of?
    ensures NonBlank(s.steps.steps[id].body.effectId.value)
  {
    hide StepReconciliationsFit, NonBlank;
    assert LedgerFits(s.steps, pid);
    assert StepFits(s.claims, s.work, s.steps, id);
    ReconciledIsSettled(s.steps, id);
  }

  lemma ReconciledIsSettled(st: StepLedger, id: StepId)
    ensures StepReconciliationsFit(st) && id in st.reconciled ==> EffectiveState(st, id) != Unsettled
  {
  }

  /** While the packet validates, settling an open step is accepted and lowers the measure by one. */
  lemma SettleStepLowers(s: Store, pid: PacketId, id: StepId)
    requires Inv(s) && Leased(s, pid) && ValidatePacket(s.truth, s.claims.packets[pid]).Ok?
    requires id in StepsOf(s.steps, pid) && EffectiveState(s.steps, id) == Unsettled
    ensures id in s.steps.steps && WellFormed(SettleStep(s, pid, id))
    ensures var t := Apply(s, SettleStep(s, pid, id));
      && t.claims == s.claims && t.truth == s.truth && t.work == s.work
      && Reconciles(SettleStep(s, pid, id))
      && Unresolved(t.steps, pid) == Unresolved(s.steps, pid) - 1
  {
    hide Inv, ValidatePacket, HoldsLease, TruthInv, ClaimsInv, WorkInv, StepsInv, RecoveryInv,
         RecoveryStepsInv, CallbacksInv, PacketsHaveMissions, Apply;
    LeaseIsHeld(s, pid);
    InvParts(s);
    UnsettledIsPersisted(s, pid, id);
    var c := SettleStep(s, pid, id);
    SettleStepAccepted(s, pid, id);
    assert LedgerFits(s.steps, pid) by { OwnLedger(s, pid); }
    SettlingCounts(s.steps, StepsOf(s.steps, pid), id, c.stepProof);
  }

  lemma OwnLedger(s: Store, pid: PacketId)
    requires StepsInv(s.claims, s.work, s.steps)
    ensures LedgerFits(s.steps, pid)
  {
  }

  lemma SettleStepAccepted(s: Store, pid: PacketId, id: StepId)
    requires pid in s.claims.packets && pid in s.claims.leases && s.claims.packets[pid].id == pid
    requires HoldsLease(s.claims, s.claims.packets[pid], s.claims.leases[pid])
    requires ValidatePacket(s.truth, s.claims.packets[pid]).Ok?
    requires id in s.steps.steps && id !in s.steps.reconciled
    requires s.steps.steps[id].body.packetId == pid
    requires s.steps.steps[id].body.leaseId == s.claims.leases[pid].leaseId
    requires s.steps.steps[id].body.effectState == Unsettled
    requires s.steps.steps[id].body.effectId.Some?
    requires NonBlank(s.steps.steps[id].body.effectId.value)
    requires pid.Of? && id.Of? && s.claims.leases[pid].leaseId.Of?
    ensures var c := SettleStep(s, pid, id);
      && WellFormed(c) && c.stepProof.body.effectState == Settled
      && Apply(s, c) == s.(steps := s.steps.(reconciled := s.steps.reconciled[id := c.stepProof]))
  {
    hide ValidatePacket, HoldsLease, NonBlank, PROOF;
    EvidenceIsText();
  }

  // ---------------------------------------------------------------- the last calls

  /** Without open steps: BLOCKED if never started; else settle the attempt; else reconcile the
      failure, recording one first when there is none. */
  function LastCalls(s: Store, pid: PacketId): (r: seq<Call>)
    requires pid in s.claims.packets && pid in s.claims.leases
    ensures 1 <= |r| <= 2
  {
    var p, l := s.claims.packets[pid], s.claims.leases[pid];
    if pid !in s.work.started then [DoBlock(p, l, StaleIdentity, NoActiveLease)]
    else if pid in s.work.attempts then
      [DoReconcileEffect(p, l, EffectReconciliation(pid, l.leaseId, s.work.attempts[pid].effectId,
                                                    Settled, Given(PROOF)))]
    else if pid in s.work.failures then [NoEffectProof(p, l, s.work.failures[pid].body.code)]
    else [DoFail(p, l, ExecutorError, Given(OUTPUT), None, ExecutorOrigin),
          NoEffectProof(p, l, ExecutorError)]
  }

  function NoEffectProof(p: TaskPacket, l: Lease, code: FailureCode): Call {
    DoReconcileFailure(p, l, FailureReconciliation(p.id, l.leaseId, code, NoEffect, None,
                                                   Given(PROOF), Given(OUTPUT)))
  }

  /** The work of a packet that can be closed: a recorded attempt is unsettled, a recorded failure
      has a code that reconciles. */
  ghost predicate WorkOpen(w: WorkLedger, pid: PacketId) {
    && pid !in w.receiptOf
    && (pid in w.attempts ==>
          w.attempts[pid].effectState == Unsettled && NonBlank(w.attempts[pid].effectId))
    && (pid in w.failures ==> ReconcilableCode(w.failures[pid].body.code))
  }

  lemma WorkIsOpen(c: ClaimLedger, w: WorkLedger, pid: PacketId)
    requires WorkInv(c, w) && pid !in w.receiptOf
    ensures WorkOpen(w, pid)
  {
  }

  lemma NoEffectProofCloses(s: Store, p: TaskPacket, l: Lease)
    requires HoldsLease(s.claims, p, l) && !HasUnsettledStep(s.steps, p.id)
    requires p.id in s.work.failures && WorkOpen(s.work, p.id) && p.id.Of? && l.leaseId.Of?
    ensures var c := NoEffectProof(p, l, s.work.failures[p.id].body.code);
      WellFormed(c) && p.id in Apply(s, c).work.receiptOf
  {
    hide HasUnsettledStep, HoldsLease, NonBlank, PROOF, OUTPUT;
    EvidenceIsText();
  }

  lemma BlockCloses(s: Store, p: TaskPacket, l: Lease)
    requires HoldsLease(s.claims, p, l) && !HasUnsettledStep(s.steps, p.id)
    requires p.id !in s.work.started && WorkOpen(s.work, p.id)
    ensures p.id in Apply(s, DoBlock(p, l, StaleIdentity, NoActiveLease)).work.receiptOf
  {
    hide HasUnsettledStep, HoldsLease;
  }

  lemma EffectCloses(s: Store, p: TaskPacket, l: Lease)
    requires HoldsLease(s.claims, p, l) && !HasUnsettledStep(s.steps, p.id)
    requires p.id in s.work.attempts && WorkOpen(s.work, p.id)
    ensures p.id in Apply(s, DoReconcileEffect(p, l,
              EffectReconciliation(p.id, l.leaseId, s.work.attempts[p.id].effectId, Settled,
                                   Given(PROOF)))).work.receiptOf
  {
    hide HasUnsettledStep, HoldsLease;
  }

  lemma FailOpensProof(s: Store, p: TaskPacket, l: Lease)
    requires HoldsLease(s.claims, p, l) && WorkOpen(s.work, p.id)
    requires p.id in s.work.started && p.id !in s.work.failures
    ensures var c := DoFail(p, l, ExecutorError, Given(OUTPUT), None, ExecutorOrigin);
            var t := Apply(s, c);
      && t.claims == s.claims && t.steps == s.steps && WorkOpen(t.work, p.id)
      && p.id in t.work.failures && t.work.failures[p.id].body.code == ExecutorError
  {
    hide HoldsLease, NonBlank, OUTPUT;
    EvidenceIsText();
  }

  lemma LastCallsClose(s: Store, pid: PacketId)
    requires Inv(s) && Leased(s, pid) && !HasUnsettledStep(s.steps, pid)
    ensures AllWellFormed(LastCalls(s, pid))
    ensures pid in Run(s, LastCalls(s, pid)).work.receiptOf
  {
    hide Inv, HasUnsettledStep, HoldsLease, Apply, WellFormed, NoEffectProof, WorkOpen, ClaimsInv,
         TruthInv, WorkInv, StepsInv, RecoveryInv, CallbacksInv, RecoveryStepsInv,
         PacketsHaveMissions, WorkOpen;
    LeaseIsHeld(s, pid);
    InvParts(s);
    WorkIsOpen(s.claims, s.work, pid);
    var p, l := s.claims.packets[pid], s.claims.leases[pid];
    var more := LastCalls(s, pid);
    RunOne(s, more[0]);
    if pid !in s.work.started {
      BlockCloses(s, p, l);
    } else if pid in s.work.attempts {
      EffectCloses(s, p, l);
    } else if pid in s.work.failures {
      NoEffectProofCloses(s, p, l);
    } else {
      FailOpensProof(s, p, l);
      NoEffectProofCloses(Apply(s, more[0]), p, l);
      RunTwo(s, more[0], more[1]);
    }
    LastCallsWellFormed(s, pid);
  }

  lemma LastCallsWellFormed(s: Store, pid: PacketId)
    requires pid in s.claims.packets && pid in s.claims.leases && WorkOpen(s.work, pid)
    requires pid.Of? && s.claims.leases[pid].leaseId.Of? && s.claims.packets[pid].id == pid
    ensures AllWellFormed(LastCalls(s, pid))
  {
    hide NonBlank, PROOF, OUTPUT;
    EvidenceIsText();
  }

  lemma RunOne(s: Store, a: Call)
    ensures Run(s, [a]) == Apply(s, a)
  {
    assert [a][..0] == [];
  }

  lemma RunTwo(s: Store, a: Call, b: Call)
    ensures Run(s, [a, b]) == Apply(Apply(s, a), b)
  {
    assert [a, b][..1] == [a];
    RunOne(s, a);
  }

  lemma {:induction false} RunJoins(s: Store, a: seq<Call>, b: seq<Call>)
    ensures Run(s, a + b) == Run(Run(s, a), b)
    decreases |b|
  {
    hide Apply;
    if |b| == 0 {
      assert a + b == a;
    } else {
      assert (a + b)[..|a + b| - 1] == a + b[..|b| - 1];
      RunJoins(s, a, b[..|b| - 1]);
    }
  }

  // ---------------------------------------------------------------- the whole path

  /** A call by which the parent reconciles; the harness forwards all of them. */
  predicate Reconciles(c: Call) {
    c.DoReconcileStep? || c.DoReconcileFailure? || c.DoReconcileEffect? || c.DoVerify?
  }

  predicate AllReconcile(calls: seq<Call>) {
    forall i :: 0 <= i < |calls| ==> Reconciles(calls[i])
  }

  /** The executor's outcome is on record. */
  predicate HasOutcome(w: WorkLedger, pid: PacketId) { pid in w.attempts || pid in w.failures }

  lemma LastCallsReconcile(s: Store, pid: PacketId)
    requires WorkInv(s.claims, s.work) && pid in s.claims.packets && pid in s.claims.leases
    requires HasOutcome(s.work, pid)
    ensures AllReconcile(LastCalls(s, pid))
  {
    hide Partitioned, ReceiptsFit, ReceiptsIndexed, StartedFit;
    assert pid in s.work.attempts ==> AttemptFits(s.claims, s.work, pid);
    assert pid in s.work.failures ==> FailureFits(s.claims, s.work, pid);
  }

  /** Settle the open steps one by one, then the last calls. */
  lemma {:induction false} ClosingPath(s: Store, pid: PacketId) returns (more: seq<Call>)
    requires Inv(s) && Leased(s, pid)
    requires HasUnsettledStep(s.steps, pid) ==> ValidatePacket(s.truth, s.claims.packets[pid]).Ok?
    ensures AllWellFormed(more) && pid in Run(s, more).work.receiptOf
    ensures |more| <= Unresolved(s.steps, pid) + 2
    ensures HasOutcome(s.work, pid) ==> AllReconcile(more)
    decreases Unresolved(s.steps, pid)
  {
    hide Inv, ValidatePacket, Apply, WellFormed, SettleStep, LastCalls, Run, Unresolved, IsActive,
         EffectiveState, TruthInv, ClaimsInv, WorkInv, StepsInv, RecoveryInv, CallbacksInv,
         RecoveryStepsInv, PacketsHaveMissions;
    if id :| id in StepsOf(s.steps, pid) && EffectiveState(s.steps, id) == Unsettled {
      SettleStepLowers(s, pid, id);
      var c := SettleStep(s, pid, id);
      ApplyKeepsInv(s, c);
      var rest := ClosingPath(Apply(s, c), pid);
      more := [c] + rest;
      RunOne(s, c);
      RunJoins(s, [c], rest);
    } else {
      LastCallsClose(s, pid);
      InvParts(s);
      if HasOutcome(s.work, pid) { LastCallsReconcile(s, pid); }
      more := LastCalls(s, pid);
    }
  }
}
