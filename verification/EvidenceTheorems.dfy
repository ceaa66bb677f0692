/** Recorded evidence over whole runs: blockers, route dispositions and supersessions. */
module EvidenceTheorems {
  import opened Records
  import opened StoreSpec
  import opened StoreInvariant
  import opened TruthSafety
  import opened StoreSafety
  import opened Frames
  import opened Planning
  import opened Stranding
  import opened Histories

  // ---------------------------------------------------------------- blockers

  function EffectsSeen(b: StepBody): seq<string> {
    if b.effectId.Some? then [b.effectId.value] else []
  }

  /** Without a step a blocker claims no effect; with one it names a step of its own packet, exactly
      that step's effect, and a state that effect has or had. */
  ghost predicate BlockerGrounded(st: StepLedger, b: BlockerBody) {
    match b.stepId
    case None => b.effectState == NoEffect
    case Some(id) =>
      && id in st.steps && st.steps[id].body.packetId == b.packetId
      && b.observedEffectIds == EffectsSeen(st.steps[id].body)
      && (b.effectState == st.steps[id].body.effectState || st.steps[id].body.effectState == Unsettled)
  }

  ghost predicate BlockersGrounded(st: StepLedger, r: RecoveryLedger) {
    forall id :: id in r.blockers ==> BlockerGrounded(st, r.blockers[id].body)
  }

  ghost predicate StepsKept(st: StepLedger, x: StepLedger) {
    forall id :: id in st.steps ==> id in x.steps && x.steps[id] == st.steps[id]
  }

  lemma StepCallsKeep(s: Store, c: Call)
    ensures StepsKept(s.steps, Apply(s, c).steps)
  {
    if TouchesSteps(c) {
      hide ValidateClaim, AdmittedAction;
    } else {
      hide Apply;
      ApplyFrame(s, c);
    }
  }

  lemma EffectiveIsOwnOrSettled(st: StepLedger, id: StepId)
    requires StepReconciliationsFit(st) && id in st.steps
    ensures EffectiveState(st, id) == st.steps[id].body.effectState
            || st.steps[id].body.effectState == Unsettled
  {
    assert id in st.reconciled ==> StepReconciliationFits(st, id);
  }

  lemma RecordedBlockerIsGrounded(s: Store, p: TaskPacket, l: Lease, blocker: BlockerReport)
    requires StepReconciliationsFit(s.steps)
    ensures var o := RecordBlocker(s, p, l, blocker);
      && (o.result.Ok? ==> BlockerGrounded(s.steps, blocker.body))
      && (o.store.recovery.blockers == s.recovery.blockers
          || (o.result.Ok? && o.store.recovery.blockers == s.recovery.blockers[blocker.id := blocker]))
  {
    hide ValidateClaim, EffectiveState, StepReconciliationsFit;
    var id := blocker.body.stepId;
    if id.Some? && id.value in s.steps.steps { EffectiveIsOwnOrSettled(s.steps, id.value); }
  }

  lemma CallKeepsGrounded(s: Store, c: Call)
    requires Inv(s) && BlockersGrounded(s.steps, s.recovery)
    ensures BlockersGrounded(Apply(s, c).steps, Apply(s, c).recovery)
  {
    hide Inv, Apply, BlockerGrounded, StepRecordsFit, LedgersFit, TerminalSettled, TruthInv, ClaimsInv,
         WorkInv, RecoveryInv, CallbacksInv, StepReconciliationsFit;
    InvParts(s);
    StepCallsKeep(s, c);
    BlockerCallGrounds(s, c);
    var t := Apply(s, c);
    forall id | id in t.recovery.blockers ensures BlockerGrounded(t.steps, t.recovery.blockers[id].body) {
      GroundStays(s.steps, t.steps, t.recovery.blockers[id].body);
    }
  }

  lemma GroundStays(st: StepLedger, x: StepLedger, b: BlockerBody)
    requires StepsKept(st, x) && BlockerGrounded(st, b)
    ensures BlockerGrounded(x, b)
  {
  }

  /** Whatever the call, every blocker after it is grounded in the steps before it. */
  lemma BlockerCallGrounds(s: Store, c: Call)
    requires StepReconciliationsFit(s.steps) && BlockersGrounded(s.steps, s.recovery)
    ensures BlockersGrounded(s.steps, Apply(s, c).recovery)
  {
    hide BlockerGrounded, StepReconciliationsFit, RecordBlocker, ValidateClaim, AdmissionFor,
         ProposalAuthentic;
    if c.DoBlocker? {
      RecordedBlockerIsGrounded(s, c.packet, c.lease, c.blocker);
    } else if c.DoAdmit? {
    } else {
      hide Apply;
      ApplyFrame(s, c);
    }
  }

  /** Every blocker of every run is grounded in a persisted step of its own packet. */
  lemma {:induction false} BlockersNameTheirSteps(calls: seq<Call>)
    requires AllWellFormed(calls)
    ensures BlockersGrounded(Run(EMPTY, calls).steps, Run(EMPTY, calls).recovery)
  {
    hide Apply, WellFormed, Inv, BlockerGrounded;
    if |calls| > 0 {
      var front := calls[..|calls| - 1];
      BlockersNameTheirSteps(front);
      ReachableKeepsInv(front);
      CallKeepsGrounded(Run(EMPTY, front), calls[|calls| - 1]);
    }
  }

  // ---------------------------------------------------------------- dispositions

  ghost predicate DispositionsKept(t: MissionLedger, u: MissionLedger) {
    forall key :: key in t.dispositions ==>
      key in u.dispositions && u.dispositions[key] == t.dispositions[key]
  }

  lemma CallKeepsDispositions(s: Store, c: Call)
    ensures DispositionsKept(s.truth, Apply(s, c).truth)
  {
    if TouchesTruth(c) {
      hide FindRoute, SameKeys, ReadbackOf, VerificationFor;
    } else {
      hide Apply;
      ApplyFrame(s, c);
    }
  }

  lemma {:induction false} HistoryKeepsDispositions(h: seq<Store>, calls: seq<Call>, early: nat,
                                                    n: nat)
    requires IsHistory(h, calls) && early <= n <= |calls|
    ensures DispositionsKept(h[early].truth, h[n].truth)
    decreases n
  {
    hide Apply, WellFormed;
    if early < n {
      HistoryKeepsDispositions(h, calls, early, n - 1);
      CallKeepsDispositions(h[n - 1], calls[n - 1]);
    }
  }

  /** A disposition is final: it is never replaced, no packet of its route is accepted again, and no
      plan at its revision takes its route. */
  lemma DisposedRoutesStayClosed(h: seq<Store>, calls: seq<Call>, early: nat, n: nat, p: TaskPacket,
                                 m: Mission, context: Option<ContextBinding>)
    requires IsHistory(h, calls) && early <= n <= |calls|
    requires !Undisposed(h[early].truth, p.body)
    ensures var key := (p.body.missionId, p.body.missionRevision, p.body.routeId);
      && key in h[n].truth.dispositions
      && h[n].truth.dispositions[key] == h[early].truth.dispositions[key]
    ensures !Claim(h[n], p).result.Ok?
    ensures var o := Plan(h[n], m, context);
      o.result.Ok? && m.missionId == p.body.missionId && m.revision == p.body.missionRevision ==>
        o.result.value.body.routeId != p.body.routeId
  {
    hide Apply, WellFormed, Inv, TruthInv, ClaimsInv, WorkInv, StepsInv, RecoveryInv,
         RecoveryStepsInv, CallbacksInv, PacketsHaveMissions, Claim, Plan, MissionsFit;
    HistoryKeepsDispositions(h, calls, early, n);
    HistoryKeepsInv(h, calls, n);
    var s := h[n];
    InvParts(s);
    MissionsOf(s.truth);
    DriftedNeverValidates(s.truth, p);
    if Claim(s, p).result.Ok? { AcceptedPacketMatches(s, p); }
    if Plan(s, m, context).result.Ok? { PlanAvoidsDisposed(s, m, context); }
  }

  lemma PlanAvoidsDisposed(s: Store, m: Mission, context: Option<ContextBinding>)
    requires Plan(s, m, context).result.Ok?
    ensures var p := Plan(s, m, context).result.value.body;
      (m.missionId, m.revision, p.routeId) !in s.truth.dispositions
  {
    PlanShape(s, m, context);
    PlanRegisters(s, m, context);
    CallKeepsDispositions(s, DoRegister(m));
    hide Plan, Apply, FirstFalse, EligibleRoutes, Least;
    var t, p := Plan(s, m, context).store, Plan(s, m, context).result.value;
    var q, r :| Picks(t, m, context, p, q, r);
  }

  // ---------------------------------------------------------------- supersession

  /** A recorded supersession binds a recorded acknowledgement, of a packet of a strictly older
      revision of its mission, to that acknowledgement's receipt. */
  ghost predicate SupersessionBinds(s: Store, d: Supersession) {
    var b := d.body;
    && d.Authentic() && b.supersededRevision < b.supersedingRevision
    && b.acknowledgementId in s.callbacks.acks && b.receiptId in s.work.receipts
    && var ack := s.callbacks.acks[b.acknowledgementId];
    && ack.Authentic() && ack.base.receiptId == b.receiptId
    && ack.base.packetId in s.claims.packets
    && s.claims.packets[ack.base.packetId].body.missionId == b.missionId
    && s.claims.packets[ack.base.packetId].body.missionRevision == b.supersededRevision
  }

  ghost predicate SupersessionsBind(s: Store) {
    forall key :: key in s.truth.supersessions ==> SupersessionBinds(s, s.truth.supersessions[key])
  }

  lemma BindingStays(s: Store, t: Store, d: Supersession)
    requires SupersessionBinds(s, d) && Grows(s, t) && AcksGrow(s.callbacks, t.callbacks)
    ensures SupersessionBinds(t, d)
  {
  }

  lemma RecordedSupersessionBinds(s: Store, d: Supersession)
    requires ReceiptsIndexed(s.work) && d.body.supersededRevision < d.body.supersedingRevision
    ensures var o := RecordMissionSupersession(s, d);
      forall key :: key in o.store.truth.supersessions ==>
        || (key in s.truth.supersessions && o.store.truth.supersessions[key] == s.truth.supersessions[key])
        || (o.store.truth.supersessions[key] == d && SupersessionBinds(s, d))
  {
  }

  lemma OtherCallsKeepSupersessions(s: Store, c: Call)
    requires !c.DoSupersede?
    ensures Apply(s, c).truth.supersessions == s.truth.supersessions
  {
    if TouchesTruth(c) {
      hide FindRoute, SameKeys, ReadbackOf, VerificationFor;
    } else {
      hide Apply;
      ApplyFrame(s, c);
    }
  }

  lemma CallKeepsBindings(s: Store, c: Call)
    requires Inv(s) && WellFormed(c) && AcksAuthentic(s.callbacks) && SupersessionsBind(s)
    ensures SupersessionsBind(Apply(s, c))
  {
    hide Inv, Apply, SupersessionBinds, AcksAuthentic, Grows, AcksGrow, TruthInv, ClaimsInv, StepsInv,
         RecoveryInv, CallbacksInv, ReceiptsFit, AttemptsFit, FailuresFit, Partitioned, StartedFit,
         ReceiptsIndexed, PacketsHaveMissions, RecoveryStepsInv;
    InvParts(s);
    AcksOnlyGrow(s, c);
    ApplyGrows(s, c);
    var t := Apply(s, c);
    if c.DoSupersede? { SupersedeCall(s, c); } else { OtherCallsKeepSupersessions(s, c); }
    forall key | key in t.truth.supersessions ensures SupersessionBinds(t, t.truth.supersessions[key]) {
      BindingStays(s, t, t.truth.supersessions[key]);
    }
  }

  lemma SupersedeCall(s: Store, c: Call)
    requires ReceiptsIndexed(s.work) && WellFormed(c) && c.DoSupersede?
    ensures forall key :: key in Apply(s, c).truth.supersessions ==>
      || (key in s.truth.supersessions
          && Apply(s, c).truth.supersessions[key] == s.truth.supersessions[key])
      || SupersessionBinds(s, Apply(s, c).truth.supersessions[key])
  {
    hide RecordMissionSupersession, SupersessionBinds;
    RecordedSupersessionBinds(s, c.supersession);
  }

  /** Every supersession of every run classifies evidence of an older revision, and only that. */
  lemma {:induction false} SupersessionsBindOldEvidence(calls: seq<Call>)
    requires AllWellFormed(calls)
    ensures SupersessionsBind(Run(EMPTY, calls))
  {
    hide Apply, WellFormed, Inv, SupersessionBinds, AcksAuthentic, PacketsOnRoute, SnapshotsReadable;
    if |calls| > 0 {
      var front := calls[..|calls| - 1];
      SupersessionsBindOldEvidence(front);
      ReachableKeepsInv(front);
      ReachableIsReopenable(front);
      CallKeepsBindings(Run(EMPTY, front), calls[|calls| - 1]);
    }
  }
}
