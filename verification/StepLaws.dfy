/** Starting, steps, blockers and the evidence a parent records: what is accepted, field by field, and
    what it leaves. */
module StepLaws {
  import opened Records
  import opened StoreSpec
  import opened StoreInvariant
  import opened Frames
  import opened LedgerLaws
  import opened RouteLaws

  // ---------------------------------------------------------------- standing claims

  /** The claim is open and its packet still asks for the first false predicate by its route. */
  ghost predicate Stands(s: Store, p: TaskPacket, l: Lease) { Acceptable(s.truth, p) && Open(s, p, l) }

  lemma ClaimStandsIff(s: Store, p: TaskPacket, l: Lease)
    requires Inv(s)
    ensures var r := ValidateClaim(s, p, l);
      && (r.Ok? <==> Stands(s, p, l)) && !r.Raised?
      && (Acceptable(s.truth, p) && !Open(s, p, l) ==> r.Rejected? && r.code == StaleIdentity)
      && (r.Rejected? && r.code == ReplayIdentityConflict <==> p.id != Of(p.body))
  {
    hide Inv, TruthInv, ClaimsInv, WorkInv, StepsInv, RecoveryInv, RecoveryStepsInv, CallbacksInv,
         PacketsHaveMissions, Acceptable, ValidatePacket, HoldsLease;
    InvParts(s);
    PacketAcceptedIff(s.truth, p);
    AcceptableIsAuthentic(s.truth, p);
    HeldIffOpen(s, p, l);
  }

  lemma AcceptableIsAuthentic(t: MissionLedger, p: TaskPacket)
    ensures Acceptable(t, p) ==> p.id == Of(p.body)
  {
  }

  /** A packet starts once, under its standing claim. */
  lemma StartAnsweredIff(s: Store, p: TaskPacket, l: Lease)
    requires Inv(s)
    ensures var o := BeginExecution(s, p, l);
      && (o.result.Ok? <==> Stands(s, p, l) && p.id !in s.work.started)
      && (o.result.Rejected? && o.result.code == DuplicateOrReplay
          <==> p.id in s.work.started || p.id in s.work.receiptOf)
      && o.store == (if o.result.Ok?
                     then s.(work := s.work.(started := s.work.started + {p.id})) else s)
  {
    hide Inv, ValidateClaim, Acceptable;
    ClaimStandsIff(s, p, l);
    ClaimCode(s, p, l);
  }

  lemma ClaimCode(s: Store, p: TaskPacket, l: Lease)
    requires Inv(s)
    ensures var r := ValidateClaim(s, p, l);
      r.Rejected? ==> r.code in {ReplayIdentityConflict, MissionReadbackIndeterminate, StaleIdentity}
  {
    hide Inv, TruthInv, ClaimsInv, WorkInv, StepsInv, RecoveryInv, RecoveryStepsInv, CallbacksInv,
         PacketsHaveMissions, Acceptable, ValidatePacket, HoldsLease;
    InvParts(s);
    PacketAcceptedIff(s.truth, p);
  }

  // ---------------------------------------------------------------- steps

  /** The action is one of a proposal ADMITTED for this packet and lease. */
  ghost predicate Admits(r: RecoveryLedger, b: StepBody, x: RecoveryBinding) {
    && x.admissionId in r.admissionById
    && var a := r.admissionById[x.admissionId].body;
    && a.state == Admitted && a.packetId == b.packetId && a.leaseId == b.leaseId
    && a.proposalId in r.proposals
    && exists action :: && action in r.proposals[a.proposalId].body.actions
                        && action.id == x.actionId
                        && action.body.operationDigest == b.operationDigest
                        && action.body.effectClass == b.effectClass
  }

  lemma AdmittedIff(s: Store, b: StepBody, x: RecoveryBinding)
    requires Inv(s)
    ensures AdmittedAction(s.recovery, b.packetId, b.leaseId, b, x) <==> Admits(s.recovery, b, x)
  {
    hide Inv, TruthInv, ClaimsInv, WorkInv, StepsInv, RecoveryStepsInv, CallbacksInv,
         PacketsHaveMissions, BudgetsExact, FingerprintsOnce, InsideEnvelope;
    InvParts(s);
    if x.admissionId in s.recovery.admissionById {
      var a := s.recovery.admissionById[x.admissionId].body;
      if a.proposalId in s.recovery.proposals {
        assert AdmissionFits(s.claims, s.recovery, a.proposalId);
        ActionsAreUnique(s.recovery.proposals[a.proposalId], x.actionId);
      }
    }
  }

  /** An authentic proposal's actions differ in their ids. */
  lemma ActionsAreUnique(q: RecoveryProposal, id: ActionId)
    requires ProposalAuthentic(q)
    ensures forall a :: a in q.body.actions && a.id == id ==> ActionById(q.body.actions, id) == Some(a)
  {
  }

  predicate RecoversOwnStep(s: Store, b: StepBody) {
    b.recovery.Some? ==>
      && b.recovery.value.parent in s.steps.steps
      && s.steps.steps[b.recovery.value.parent].body.packetId == b.packetId
  }

  /** No other step holds the effect. */
  predicate EffectIsFree(s: Store, step: StepAttempt) {
    step.body.effectId.Some? && step.body.effectId.value in s.steps.effectOwner ==>
      s.steps.effectOwner[step.body.effectId.value] == step.id
  }

  lemma StepAnsweredIff(s: Store, p: TaskPacket, l: Lease, step: StepAttempt)
    requires Inv(s)
    ensures var o, b := RecordStepAttempt(s, p, l, step), step.body;
      && (o.result.Ok? <==>
            && Stands(s, p, l) && p.id in s.work.started
            && b.packetId == p.id && b.leaseId == l.leaseId && step.id == Of(b)
            && RecoversOwnStep(s, b)
            && (b.recovery.Some? ==> Admits(s.recovery, b, b.recovery.value))
            && (step.id in s.steps.steps || EffectIsFree(s, step)))
      && (o.result.Ok? ==> o.result.value == step)
      && (!o.result.Ok? && Stands(s, p, l) ==>
            o.result.Rejected? && o.result.code ==
              if p.id in s.work.started && b.packetId == p.id && b.leaseId == l.leaseId
                 && (step.id != Of(b) || (RecoversOwnStep(s, b)
                     && (b.recovery.Some? ==> Admits(s.recovery, b, b.recovery.value))))
              then ReplayIdentityConflict else StaleIdentity)
      && (!o.result.Ok? || step.id in s.steps.steps ==> o.store == s)
      && (o.result.Ok? && step.id !in s.steps.steps ==>
            && o.store == s.(steps := o.store.steps)
            && o.store.steps.steps == s.steps.steps[step.id := step]
            && (forall pid :: StepsOf(o.store.steps, pid)
                              == StepsOf(s.steps, pid) + if pid == p.id then [step.id] else [])
            && o.store.steps.effectOwner
               == (if b.effectId.Some? then s.steps.effectOwner[b.effectId.value := step.id]
                   else s.steps.effectOwner)
            && o.store.steps.reconciled == s.steps.reconciled)
  {
    hide Inv, ValidateClaim, Acceptable, AdmittedAction, Admits, Open;
    ClaimStandsIff(s, p, l);
    PersistedIsAuthentic(s, step.id);
    if step.body.recovery.Some? { AdmittedIff(s, step.body, step.body.recovery.value); }
  }

  lemma PersistedIsAuthentic(s: Store, id: StepId)
    requires Inv(s)
    ensures id in s.steps.steps ==>
              s.steps.steps[id].id == id && s.steps.steps[id].id == Of(s.steps.steps[id].body)
  {
    hide Inv, TruthInv, ClaimsInv, WorkInv, RecoveryInv, RecoveryStepsInv, CallbacksInv,
         PacketsHaveMissions, StepReconciliationsFit, LedgersFit, TerminalSettled;
    InvParts(s);
    assert id in s.steps.steps ==> StepFits(s.claims, s.work, s.steps, id);
  }

  /** The reconciliation is of a step of this packet and lease recorded as unsettled, and its effect. */
  predicate OfOpenStep(s: Store, p: TaskPacket, l: Lease, b: StepReconciliationBody) {
    && b.packetId == p.id && b.leaseId == l.leaseId && b.stepId in s.steps.steps
    && var step := s.steps.steps[b.stepId].body;
    && step.packetId == p.id && step.leaseId == l.leaseId && step.effectState == Unsettled
    && step.effectId == Some(b.effectId)
  }

  lemma StepReconciledIff(s: Store, p: TaskPacket, l: Lease, r: StepReconciliation)
    requires Inv(s)
    ensures var o, b := ReconcileStepEffect(s, p, l, r), r.body;
      && (o.result.Ok? <==>
            && Stands(s, p, l) && OfOpenStep(s, p, l, b) && r.id == Of(b)
            && (b.stepId in s.steps.reconciled ==> s.steps.reconciled[b.stepId] == r))
      && (o.result.Ok? ==>
            && o.result.value == r
            && o.store == s.(steps := s.steps.(reconciled := s.steps.reconciled[b.stepId := r])))
      && (!o.result.Ok? ==> o.store == s)
      && (!o.result.Ok? && Stands(s, p, l) ==>
            o.result.Rejected? && o.result.code ==
              if OfOpenStep(s, p, l, b) then ReplayIdentityConflict else StaleIdentity)
  {
    hide Inv, ValidateClaim, Acceptable, Open;
    ClaimStandsIff(s, p, l);
    if r.body.stepId in s.steps.reconciled && s.steps.reconciled[r.body.stepId] == r {
      assert s.steps.reconciled[r.body.stepId := r] == s.steps.reconciled;
    }
  }

  // ---------------------------------------------------------------- blockers

  /** The state a persisted step's effect is in by now. */
  function StateNow(s: Store, id: StepId): EffectState
    requires id in s.steps.steps
  {
    if id in s.steps.reconciled then s.steps.reconciled[id].body.effectState
    else s.steps.steps[id].body.effectState
  }

  /** A blocker without a step claims no effect; with one it reports that step's effect as it is. */
  predicate ReportsStep(s: Store, b: BlockerBody) {
    match b.stepId
    case None => b.effectState == NoEffect
    case Some(id) =>
      && id in s.steps.steps && s.steps.steps[id].body.packetId == b.packetId
      && b.effectState == StateNow(s, id)
      && b.observedEffectIds == (match s.steps.steps[id].body.effectId
                                 case None => []
                                 case Some(e) => [e])
  }

  predicate NamesClaim(p: TaskPacket, l: Lease, b: BlockerBody) {
    && b.missionId == p.body.missionId && b.missionRevision == p.body.missionRevision
    && b.packetId == p.id && b.leaseId == l.leaseId
  }

  lemma BlockerAnsweredIff(s: Store, p: TaskPacket, l: Lease, blocker: BlockerReport)
    requires Inv(s)
    ensures var o, b := RecordBlocker(s, p, l, blocker), blocker.body;
      && (o.result.Ok? <==>
            && Stands(s, p, l) && NamesClaim(p, l, b) && blocker.id == Of(b) && ReportsStep(s, b))
      && (o.result.Ok? ==>
            && o.result.value == blocker
            && o.store == s.(recovery :=
                               s.recovery.(blockers := s.recovery.blockers[blocker.id := blocker])))
      && (!o.result.Ok? ==> o.store == s)
      && (!o.result.Ok? && Stands(s, p, l) ==>
            o.result.Rejected? && o.result.code ==
              if NamesClaim(p, l, b) && blocker.id != Of(b) then ReplayIdentityConflict
              else StaleIdentity)
  {
    hide Inv, ValidateClaim, Acceptable, Open;
    ClaimStandsIff(s, p, l);
    StoredBlocker(s, blocker.id);
    if blocker.id in s.recovery.blockers && s.recovery.blockers[blocker.id] == blocker {
      assert s.recovery.blockers[blocker.id := blocker] == s.recovery.blockers;
    }
  }

  lemma StoredBlocker(s: Store, id: BlockerId)
    requires Inv(s)
    ensures id in s.recovery.blockers ==>
              s.recovery.blockers[id].id == id && id == Of(s.recovery.blockers[id].body)
  {
    hide Inv, TruthInv, ClaimsInv, WorkInv, StepsInv, RecoveryStepsInv, CallbacksInv,
         PacketsHaveMissions, AdmissionsFit, AdmissionsIndexed, FingerprintsOnce, BudgetsExact;
    InvParts(s);
  }

  // ---------------------------------------------------------------- the parent's evidence

  predicate OfRegisteredRoute(t: MissionLedger, b: DispositionBody) {
    && b.missionId in t.missions && t.missions[b.missionId].revision == b.missionRevision
    && exists r :: r in t.missions[b.missionId].routes && r.routeId == b.routeId
                   && r.predicateKey == b.predicateKey
  }

  /** A disposition is taken for a route of the registered revision, once. */
  lemma DispositionAnsweredIff(s: Store, d: RouteDisposition)
    requires TruthInv(s.truth)
    ensures var o, b := RecordRouteDisposition(s, d), d.body;
            var key := (b.missionId, b.missionRevision, b.routeId);
      && (o.result.Ok? <==>
            && OfRegisteredRoute(s.truth, b)
            && d.id == Of(b) && (key in s.truth.dispositions ==> s.truth.dispositions[key] == d))
      && (o.result.Ok? ==>
            && o.result.value == d
            && o.store == s.(truth := s.truth.(dispositions := s.truth.dispositions[key := d])))
      && (!o.result.Ok? ==>
            && o.store == s && o.result.Rejected?
            && o.result.code == if OfRegisteredRoute(s.truth, b) then ReplayIdentityConflict
                                else StaleIdentity)
  {
    hide MissionWellFormed, SnapshotsFit, VerificationsFit;
    var b := d.body;
    var key := (b.missionId, b.missionRevision, b.routeId);
    if b.missionId in s.truth.missions { RouteIsUnique(s.truth.missions[b.missionId], b.routeId); }
    if key in s.truth.dispositions && s.truth.dispositions[key] == d {
      assert s.truth.dispositions[key := d] == s.truth.dispositions;
    }
  }

  /** The supersession names a stored acknowledgement of a packet of the superseded revision, with its
      stored receipt, under the registered revision. */
  predicate BindsEvidence(s: Store, b: SupersessionBody) {
    && b.missionId in s.truth.missions
    && s.truth.missions[b.missionId].revision == b.supersedingRevision
    && b.acknowledgementId in s.callbacks.acks && b.receiptId in s.work.receipts
    && var a := s.callbacks.acks[b.acknowledgementId];
    && a.base.receiptId == b.receiptId && a.base.packetId in s.claims.packets
    && s.claims.packets[a.base.packetId].body.missionId == b.missionId
    && s.claims.packets[a.base.packetId].body.missionRevision == b.supersededRevision
  }

  /** A supersession is taken for authentic evidence of the superseded revision, under the registered
      one, once. */
  lemma SupersessionAnsweredIff(s: Store, d: Supersession)
    requires Inv(s)
    ensures var o, b := RecordMissionSupersession(s, d), d.body;
            var key := (b.missionId, b.supersededRevision, b.supersedingRevision, b.acknowledgementId);
      && (o.result.Ok? <==>
            && BindsEvidence(s, b) && d.id == Of(b)
            && var a := s.callbacks.acks[b.acknowledgementId];
            && a.acknowledgementId == Of(a.base) && a.callbackAckId == Of(a.base)
            && a.receiptAckId == Of(a.base) && a.continuationAckId == Of(a.base)
            && (key in s.truth.supersessions ==> s.truth.supersessions[key] == d))
      && (o.result.Ok? ==>
            && o.result.value == d
            && o.store == s.(truth := s.truth.(supersessions := s.truth.supersessions[key := d])))
      && (!o.result.Ok? ==>
            && o.store == s && o.result.Rejected?
            && o.result.code == if BindsEvidence(s, b) then ReplayIdentityConflict else StaleIdentity)
  {
    hide Inv;
    var b := d.body;
    var key := (b.missionId, b.supersededRevision, b.supersedingRevision, b.acknowledgementId);
    StoredReceipt(s, b.receiptId);
    if key in s.truth.supersessions && s.truth.supersessions[key] == d {
      assert s.truth.supersessions[key := d] == s.truth.supersessions;
    }
  }

  lemma StoredReceipt(s: Store, id: ReceiptId)
    requires Inv(s)
    ensures id in s.work.receipts ==>
              s.work.receipts[id].id == id && id == Of(s.work.receipts[id].body)
  {
    hide Inv, TruthInv, ClaimsInv, StepsInv, RecoveryInv, RecoveryStepsInv, CallbacksInv,
         PacketsHaveMissions, AttemptsFit, FailuresFit, StartedFit, Partitioned, ReceiptsFit;
    InvParts(s);
  }
}
