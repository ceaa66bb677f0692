/** `InMemoryStore`: the fields the program updates in place, and its public methods, each proved to
    carry out its transition on them. */
module InMemoryStore {
  import opened Records
  import opened StoreSpec
  import opened StoreInvariant
  import opened StoreSafety
  import opened Delivery
  import opened DeliveryLaws
  import opened EffectLaws
  import opened RouteLaws
  import opened VerdictLaws

  class InMemoryStore {
    var missions: map<string, Mission>
    var scopeVersions: map<string, int>
    var activeLeases: map<LeaseId, Lease>
    var leasesByPacket: map<PacketId, Lease>
    var packets: map<PacketId, TaskPacket>
    var executionStarted: set<PacketId>
    var attempts: map<PacketId, ExecutionResult>
    var executionFailures: map<PacketId, ExecutionFailure>
    var effectOwner: map<string, PacketId>
    var receipts: map<ReceiptId, TerminalReceipt>
    var receiptByPacket: map<PacketId, TerminalReceipt>
    var continuations: map<ContinuationId, Continuation>
    var continuationByReceipt: map<ReceiptId, ContinuationId>
    var acknowledgements: map<AckId, Acknowledgement>
    var ackByPacket: map<PacketId, Acknowledgement>
    var verifications: map<Digest<VerificationBody>, MissionVerification>
    var missionSnapshots: map<SnapshotKey, SnapshotReadback>
    var routeDispositions: map<RouteKey, RouteDisposition>
    var missionSupersessions: map<SupersessionKey, Supersession>
    var stepAttempts: map<StepId, StepAttempt>
    var stepsByPacket: map<PacketId, seq<StepId>>
    var stepEffectOwner: map<string, StepId>
    var stepReconciliations: map<StepId, StepReconciliation>
    var blockers: map<BlockerId, BlockerReport>
    var recoveryProposals: map<ProposalId, RecoveryProposal>
    var recoveryAdmissions: map<ProposalId, RecoveryAdmission>
    var recoveryAdmissionById: map<AdmissionId, RecoveryAdmission>
    var recoveryFingerprints: set<Fingerprint>
    var recoveryBudgetConsumed: map<PacketId, int>

    function Truth(): MissionLedger
      reads this`missions, this`missionSnapshots, this`routeDispositions, this`verifications,
            this`missionSupersessions
    {
      MissionLedger(missions, missionSnapshots, routeDispositions, verifications,
                    missionSupersessions)
    }

    function Claims(): ClaimLedger
      reads this`scopeVersions, this`activeLeases, this`leasesByPacket, this`packets
    {
      ClaimLedger(scopeVersions, activeLeases, leasesByPacket, packets)
    }

    function Work(): WorkLedger
      reads this`executionStarted, this`attempts, this`executionFailures, this`effectOwner,
            this`receipts, this`receiptByPacket
    {
      WorkLedger(executionStarted, attempts, executionFailures, effectOwner, receipts,
                 receiptByPacket)
    }

    function Steps(): StepLedger
      reads this`stepAttempts, this`stepsByPacket, this`stepEffectOwner,
            this`stepReconciliations
    {
      StepLedger(stepAttempts, stepsByPacket, stepEffectOwner, stepReconciliations)
    }

    function Recovery(): RecoveryLedger
      reads this`blockers, this`recoveryProposals, this`recoveryAdmissions,
            this`recoveryAdmissionById, this`recoveryFingerprints, this`recoveryBudgetConsumed
    {
      RecoveryLedger(blockers, recoveryProposals, recoveryAdmissions, recoveryAdmissionById,
                     recoveryFingerprints, recoveryBudgetConsumed)
    }

    function Callbacks(): CallbackLedger
      reads this`continuations, this`continuationByReceipt, this`acknowledgements,
            this`ackByPacket
    {
      CallbackLedger(continuations, continuationByReceipt, acknowledgements, ackByPacket)
    }

    /** The state the fields stand for. */
    function State(): Store
      reads this
    {
      Store(Truth(), Claims(), Work(), Steps(), Recovery(), Callbacks())
    }

    ghost predicate Valid()
      reads this
    {
      Inv(State())
    }

    constructor ()
      ensures State() == EMPTY && Valid()
    {
      missions, scopeVersions, activeLeases, leasesByPacket, packets := map[], map[], map[], map[], map[];
      executionStarted, attempts, executionFailures, effectOwner := {}, map[], map[], map[];
      receipts, receiptByPacket, continuations, continuationByReceipt := map[], map[], map[], map[];
      acknowledgements, ackByPacket, verifications := map[], map[], map[];
      missionSnapshots, routeDispositions, missionSupersessions := map[], map[], map[];
      stepAttempts, stepsByPacket, stepEffectOwner, stepReconciliations := map[], map[], map[], map[];
      blockers, recoveryProposals, recoveryAdmissions, recoveryAdmissionById := map[], map[], map[], map[];
      recoveryFingerprints, recoveryBudgetConsumed := {}, map[];
      new;
      EmptyHoldsInv();
    }

    // -------------------------------------------------------------- reading

    /** The first route with an id. */
    method SearchRoute(routes: seq<Route>, id: string) returns (r: Option<Route>)
      ensures r == FindRoute(routes, id)
    {
      var i := 0;
      while i < |routes|
        invariant i <= |routes| && FindRoute(routes, id) == FindRoute(routes[i..], id)
      {
        if routes[i].routeId == id { return Some(routes[i]); }
        assert routes[i..][1..] == routes[i + 1..];
        i := i + 1;
      }
      r := None;
    }

    /** The first position of a truth, or the length. */
    method Search(ts: seq<Truth>, x: Truth) returns (i: nat)
      ensures i == FirstIndex(ts, x)
    {
      i := 0;
      while i < |ts| && ts[i] != x
        invariant i <= |ts| && FirstIndex(ts, x) == i + FirstIndex(ts[i..], x)
      {
        assert ts[i..][1..] == ts[i + 1..];
        i := i + 1;
      }
    }

    /** `first_false`. */
    method FirstFalsePredicate(m: Mission) returns (r: Result<Option<ExitPredicate>>)
      ensures r == FirstFalse(State().truth, m)
    {
      var ts := Truths(Truth(), m);
      var n := Min(|ts|, |m.predicates|);
      var i := Search(ts[..n], Indeterminate);
      if i < n {
        return Rejected(MissionReadbackIndeterminate, PredicateIndeterminate(m.predicates[i].key));
      }
      if |ts| != |m.predicates| { return Raised; }
      var k := Search(ts, Unsatisfied);
      r := Ok(if k < |ts| then Some(m.predicates[k]) else None);
    }

    /** `_validate_packet`. */
    method CheckPacket(p: TaskPacket) returns (r: Result<Mission>)
      ensures r == ValidatePacket(Truth(), p)
      ensures Valid() ==> (r.Ok? <==> Acceptable(Truth(), p))
    {
      hide Inv, FirstFalse, FindRoute, RouteMatches, Acceptable;
      if Inv(State()) { StoreAcceptsIff(State(), p); }
      var b := p.body;
      if !p.Authentic() { return Rejected(ReplayIdentityConflict, PacketTampered); }
      if b.missionId !in missions || missions[b.missionId].revision != b.missionRevision {
        return Rejected(StaleIdentity, MissionRevisionDiffers);
      }
      var m := missions[b.missionId];
      var scan := FirstFalsePredicate(m);
      if !scan.Ok? { return Fail(scan); }
      if scan.value.None? || scan.value.value.key != b.predicateKey {
        return Rejected(StaleIdentity, NotFirstFalse);
      }
      var route := SearchRoute(m.routes, b.routeId);
      if route.Some? && (m.missionId, m.revision, b.routeId) in routeDispositions {
        return Rejected(StaleIdentity, RouteDisposed);
      }
      if !RouteMatches(b, m, route) { return Rejected(StaleIdentity, PacketFieldsDiffer); }
      r := Ok(m);
    }

    /** `_validate_active_claim`. */
    method CheckClaim(p: TaskPacket, l: Lease) returns (r: Result<()>)
      ensures r == ValidateClaim(State(), p, l)
    {
      hide ValidatePacket, HoldsLease;
      var valid := CheckPacket(p);
      if !valid.Ok? { return Fail(valid); }
      r := ValidateLease(Claims(), p, l);
    }

    /** Whether an active lease shares an item with the scope. */
    method FindOverlap(scope: seq<string>) returns (found: bool)
      ensures found <==> exists k :: k in activeLeases && Overlaps(scope, activeLeases[k].scope)
    {
      hide Overlaps;
      var pending := activeLeases.Keys;
      found := false;
      while pending != {}
        invariant pending <= activeLeases.Keys
        invariant found <==> exists k :: k in activeLeases && k !in pending
                                         && Overlaps(scope, activeLeases[k].scope)
        decreases |pending|
      {
        var k :| k in pending;
        var shared := Share(scope, activeLeases[k].scope);
        if shared { found := true; }
        pending := pending - {k};
      }
    }

    method Share(a: seq<string>, b: seq<string>) returns (shared: bool)
      ensures shared <==> Overlaps(a, b)
    {
      var i := 0;
      while i < |a|
        invariant i <= |a| && forall x :: x in a[..i] ==> x !in b
      {
        if a[i] in b { return true; }
        assert a[..i + 1] == a[..i] + [a[i]];
        i := i + 1;
      }
      assert a[..|a|] == a;
      shared := false;
    }

    /** `any(... is UNSETTLED for step_id in steps)`. */
    method FindUnsettled(pid: PacketId) returns (found: bool)
      ensures found <==> HasUnsettledStep(Steps(), pid)
    {
      var ids := StepsOf(Steps(), pid);
      var i := 0;
      while i < |ids|
        invariant i <= |ids|
        invariant forall id :: id in ids[..i] ==> EffectiveState(Steps(), id) != Unsettled
      {
        if EffectiveState(Steps(), ids[i]) == Unsettled { return true; }
        assert ids[..i + 1] == ids[..i] + [ids[i]];
        i := i + 1;
      }
      assert ids[..|ids|] == ids;
      found := false;
    }

    // -------------------------------------------------------------- missions

    method RegisterMissionRecord(m: Mission) returns (r: Result<()>)
      modifies this
      ensures State() == RegisterMission(old(State()), m).store
      ensures r == RegisterMission(old(State()), m).result
      ensures old(Valid()) && MissionWellFormed(m) ==> Valid()
    {
      hide Inv, MissionWellFormed;
      ghost var s := State();
      if Inv(s) && MissionWellFormed(m) { RegisterKeepsInv(s, m); }
      if m.missionId in missions {
        if m == missions[m.missionId] { return Ok(()); }
        if m.revision <= missions[m.missionId].revision {
          return Rejected(StaleIdentity, MissionNotNewer);
        }
      }
      missions := missions[m.missionId := m];
      r := Ok(());
    }

    method DisposeRoute(d: RouteDisposition) returns (r: Result<RouteDisposition>)
      modifies this
      ensures State() == RecordRouteDisposition(old(State()), d).store
      ensures r == RecordRouteDisposition(old(State()), d).result
      ensures old(Valid()) ==> Valid()
    {
      hide Inv, FindRoute;
      ghost var s := State();
      if Inv(s) { DisposeKeepsInv(s, d); }
      var b := d.body;
      var route := None;
      if b.missionId in missions && missions[b.missionId].revision == b.missionRevision {
        route := SearchRoute(missions[b.missionId].routes, b.routeId);
      }
      if route.None? || route.value.predicateKey != b.predicateKey {
        return Rejected(StaleIdentity, DispositionNotBound);
      }
      if !d.Authentic() { return Rejected(ReplayIdentityConflict, DispositionTampered); }
      var key := (b.missionId, b.missionRevision, b.routeId);
      if key in routeDispositions {
        return if routeDispositions[key] == d then Ok(d)
               else Rejected(ReplayIdentityConflict, DispositionConflict);
      }
      routeDispositions := routeDispositions[key := d];
      r := Ok(d);
    }

    method SupersedeMission(d: Supersession) returns (r: Result<Supersession>)
      modifies this
      ensures State() == RecordMissionSupersession(old(State()), d).store
      ensures r == RecordMissionSupersession(old(State()), d).result
      ensures old(Valid()) ==> Valid()
    {
      hide Inv;
      ghost var s := State();
      if Inv(s) { SupersedeKeepsInv(s, d); }
      var b := d.body;
      if || b.missionId !in missions || missions[b.missionId].revision != b.supersedingRevision
         || b.acknowledgementId !in acknowledgements || b.receiptId !in receipts
      {
        return Rejected(StaleIdentity, SupersessionNotBound);
      }
      var ack, receipt := acknowledgements[b.acknowledgementId], receipts[b.receiptId];
      if || ack.base.packetId !in packets || ack.base.receiptId != receipt.id
         || packets[ack.base.packetId].body.missionId != b.missionId
         || packets[ack.base.packetId].body.missionRevision != b.supersededRevision
      {
        return Rejected(StaleIdentity, SupersessionNotBound);
      }
      if !d.Authentic() || !ack.Authentic() || !receipt.Authentic() {
        return Rejected(ReplayIdentityConflict, SupersessionTampered);
      }
      var key := (b.missionId, b.supersededRevision, b.supersedingRevision, b.acknowledgementId);
      if key in missionSupersessions {
        return if missionSupersessions[key] == d then Ok(d)
               else Rejected(ReplayIdentityConflict, SupersessionConflict);
      }
      missionSupersessions := missionSupersessions[key := d];
      r := Ok(d);
    }

    // -------------------------------------------------------------- claims

    /** Raise every item of the scope by one version. */
    method BumpVersions(claimed: seq<(string, int)>, scope: seq<string>)
      requires claimed == Following(ScopeSnapshot(scopeVersions, scope))
      modifies this`scopeVersions
      ensures scopeVersions == BumpScope(old(scopeVersions), scope)
    {
      var i := 0;
      while i < |claimed|
        invariant i <= |claimed| == |scope|
        invariant scopeVersions.Keys == old(scopeVersions).Keys + (set x | x in scope[..i])
        invariant forall x :: x in scopeVersions ==>
          scopeVersions[x] == if x in scope[..i] then Version(old(scopeVersions), x) + 1
                              else old(scopeVersions)[x]
      {
        scopeVersions := scopeVersions[claimed[i].0 := claimed[i].1];
        assert scope[..i + 1] == scope[..i] + [scope[i]];
        i := i + 1;
      }
      assert scope[..|scope|] == scope;
    }

    method ClaimPacket(p: TaskPacket) returns (r: Result<Lease>)
      modifies this
      ensures State() == Claim(old(State()), p).store && r == Claim(old(State()), p).result
      ensures old(Valid()) ==>
                (r.Ok? <==> Acceptable(old(Truth()), p) && p.id !in old(packets)
                            && !ScopeIsTaken(old(Claims()), p.body.scope)
                            && VersionsAreCurrent(old(Claims()), p.body))
      ensures old(Valid()) ==> Valid()
    {
      hide Inv, Acceptable, ScopeIsTaken, VersionsAreCurrent, ValidatePacket, Overlaps, ScopeSnapshot,
           LeaseFor, BumpScope, Work, Steps, Recovery, Callbacks, Truth;
      ghost var s := State();
      if Inv(s) {
        ClaimKeepsInv(s, p);
        ClaimAnsweredIff(s, p);
      }
      var valid := CheckPacket(p);
      if !valid.Ok? { return Fail(valid); }
      if p.id in leasesByPacket { return Rejected(DuplicateOrReplay, AlreadyClaimed); }
      var overlap := FindOverlap(p.body.scope);
      if overlap { return Rejected(LeaseConflict, ScopeLeased); }
      var current := ScopeSnapshot(scopeVersions, p.body.scope);
      if current != p.body.scopeVersions { return Rejected(CasMismatch, VersionChanged); }
      var lease := IssueLease(p);
      r := Ok(lease);
    }

    /** Grant the next version of every item of the scope to the packet. */
    method IssueLease(p: TaskPacket) returns (lease: Lease)
      requires p.body.scopeVersions == ScopeSnapshot(scopeVersions, p.body.scope)
      modifies this`scopeVersions, this`activeLeases, this`leasesByPacket, this`packets
      ensures lease == LeaseFor(p) && scopeVersions == BumpScope(old(scopeVersions), p.body.scope)
      ensures activeLeases == old(activeLeases)[lease.leaseId := lease]
      ensures leasesByPacket == old(leasesByPacket)[p.id := lease]
      ensures packets == old(packets)[p.id := p]
    {
      hide ScopeSnapshot, BumpScope;
      hide ScopeSnapshot, Following, BumpScope;
      var claimed := Following(p.body.scopeVersions);
      BumpVersions(claimed, p.body.scope);
      lease := Lease(Of(LeaseKey(p.id, claimed)), p.id, p.body.scope, claimed);
      packets := packets[p.id := p];
      activeLeases := activeLeases[lease.leaseId := lease];
      leasesByPacket := leasesByPacket[p.id := lease];
    }

    method BeginPacket(p: TaskPacket, l: Lease) returns (r: Result<()>)
      modifies this
      ensures State() == BeginExecution(old(State()), p, l).store
      ensures r == BeginExecution(old(State()), p, l).result
      ensures old(Valid()) ==> Valid()
    {
      hide Inv, ValidateClaim;
      ghost var s := State();
      if Inv(s) { BeginKeepsInv(s, p, l); }
      if p.id in executionStarted || p.id in receiptByPacket {
        return Rejected(DuplicateOrReplay, AlreadyStarted);
      }
      var valid := CheckClaim(p, l);
      if !valid.Ok? { return valid; }
      executionStarted := executionStarted + {p.id};
      r := Ok(());
    }

    // -------------------------------------------------------------- steps

    method RecordStep(p: TaskPacket, l: Lease, step: StepAttempt) returns (r: Result<StepAttempt>)
      modifies this
      ensures State() == RecordStepAttempt(old(State()), p, l, step).store
      ensures r == RecordStepAttempt(old(State()), p, l, step).result
      ensures old(Valid()) && StepWellFormed(step.body) ==> Valid()
    {
      hide Inv, ValidateClaim, AdmittedAction, StepWellFormed, Truth, Claims, Recovery,
           Callbacks;
      ghost var s := State();
      if Inv(s) && StepWellFormed(step.body) { RecordStepKeepsInv(s, p, l, step); }
      var b := step.body;
      var valid := CheckClaim(p, l);
      if !valid.Ok? { return Fail(valid); }
      if p.id !in executionStarted { return Rejected(StaleIdentity, NeverStarted); }
      if b.packetId != p.id || b.leaseId != l.leaseId { return Rejected(StaleIdentity, StepNotBound); }
      if !step.Authentic() { return Rejected(ReplayIdentityConflict, StepTampered); }
      if b.recovery.Some? {
        var parent := b.recovery.value.parent;
        if parent !in stepAttempts || stepAttempts[parent].body.packetId != p.id {
          return Rejected(StaleIdentity, ParentNotBound);
        }
        var admitted := CheckAdmitted(p.id, l.leaseId, b, b.recovery.value);
        if !admitted { return Rejected(StaleIdentity, ActionNotAdmitted); }
      }
      if step.id in stepAttempts {
        return if stepAttempts[step.id] == step then Ok(step)
               else Rejected(ReplayIdentityConflict, StepConflict);
      }
      if b.effectId.Some? && b.effectId.value in stepEffectOwner
         && stepEffectOwner[b.effectId.value] != step.id
      {
        return Rejected(ReplayIdentityConflict, EffectOwnedByOtherStep);
      }
      PutStep(step);
      r := Ok(step);
    }

    /** Persist the step, its place in its packet's ledger, and its effect. */
    method PutStep(step: StepAttempt)
      modifies this`stepAttempts, this`stepsByPacket, this`stepEffectOwner
      ensures stepAttempts == old(stepAttempts)[step.id := step]
      ensures stepsByPacket == old(stepsByPacket)[
                step.body.packetId := StepsOf(old(Steps()), step.body.packetId) + [step.id]]
      ensures stepEffectOwner == if step.body.effectId.Some?
                                 then old(stepEffectOwner)[step.body.effectId.value := step.id]
                                 else old(stepEffectOwner)
    {
      var b := step.body;
      if b.effectId.Some? { stepEffectOwner := stepEffectOwner[b.effectId.value := step.id]; }
      stepAttempts := stepAttempts[step.id := step];
      stepsByPacket := stepsByPacket[b.packetId := StepsOf(Steps(), b.packetId) + [step.id]];
    }

    /** Whether a recovery step binds an admitted action of this packet and lease. */
    method CheckAdmitted(pid: PacketId, lid: LeaseId, step: StepBody, b: RecoveryBinding)
      returns (ok: bool)
      ensures ok <==> AdmittedAction(Recovery(), pid, lid, step, b)
    {
      if b.admissionId !in recoveryAdmissionById { return false; }
      var a := recoveryAdmissionById[b.admissionId].body;
      if a.state != Admitted || a.packetId != pid || a.leaseId != lid { return false; }
      if a.proposalId !in recoveryProposals { return false; }
      var proposal := recoveryProposals[a.proposalId];
      if proposal.body.blockerId != a.blockerId { return false; }
      var action := SearchAction(proposal.body.actions, b.actionId);
      ok := && action.Some? && action.value.body.operationDigest == step.operationDigest
            && action.value.body.effectClass == step.effectClass;
    }

    method SearchAction(actions: seq<RecoveryAction>, id: ActionId) returns (r: Option<RecoveryAction>)
      ensures r == ActionById(actions, id)
    {
      var i := 0;
      while i < |actions|
        invariant i <= |actions| && ActionById(actions, id) == ActionById(actions[i..], id)
      {
        if actions[i].id == id { return Some(actions[i]); }
        assert actions[i..][1..] == actions[i + 1..];
        i := i + 1;
      }
      r := None;
    }

    method ReconcileStep(p: TaskPacket, l: Lease, c: StepReconciliation)
      returns (r: Result<StepReconciliation>)
      modifies this
      ensures State() == ReconcileStepEffect(old(State()), p, l, c).store
      ensures r == ReconcileStepEffect(old(State()), p, l, c).result
      ensures old(Valid()) && c.body.effectState != Unsettled ==> Valid()
    {
      hide Inv, ValidateClaim;
      ghost var s := State();
      if Inv(s) && c.body.effectState != Unsettled { ReconcileStepKeepsInv(s, p, l, c); }
      var b := c.body;
      var valid := CheckClaim(p, l);
      if !valid.Ok? { return Fail(valid); }
      if b.stepId !in stepAttempts { return Rejected(StaleIdentity, StepReconciliationNotBound); }
      var step := stepAttempts[b.stepId].body;
      if || step.packetId != p.id || step.leaseId != l.leaseId || b.packetId != p.id
         || b.leaseId != l.leaseId || step.effectState != Unsettled || Some(b.effectId) != step.effectId
      {
        return Rejected(StaleIdentity, StepReconciliationNotBound);
      }
      if !c.Authentic() { return Rejected(ReplayIdentityConflict, StepReconciliationTampered); }
      if b.stepId in stepReconciliations {
        return if stepReconciliations[b.stepId] == c then Ok(c)
               else Rejected(ReplayIdentityConflict, StepReconciledDifferently);
      }
      stepReconciliations := stepReconciliations[b.stepId := c];
      r := Ok(c);
    }

    // -------------------------------------------------------------- recovery

    method ReportBlocker(p: TaskPacket, l: Lease, blocker: BlockerReport)
      returns (r: Result<BlockerReport>)
      modifies this
      ensures State() == RecordBlocker(old(State()), p, l, blocker).store
      ensures r == RecordBlocker(old(State()), p, l, blocker).result
      ensures old(Valid()) ==> Valid()
    {
      hide Inv, ValidateClaim, EffectiveState;
      ghost var s := State();
      if Inv(s) { BlockerKeepsInv(s, p, l, blocker); }
      var b := blocker.body;
      var valid := CheckClaim(p, l);
      if !valid.Ok? { return Fail(valid); }
      if || b.missionId != p.body.missionId || b.missionRevision != p.body.missionRevision
         || b.packetId != p.id || b.leaseId != l.leaseId
      {
        return Rejected(StaleIdentity, BlockerNotBound);
      }
      if !blocker.Authentic() { return Rejected(ReplayIdentityConflict, BlockerTampered); }
      if b.stepId.None? {
        if b.effectState != NoEffect { return Rejected(StaleIdentity, BlockerNeedsStep); }
      } else {
        if || b.stepId.value !in stepAttempts || stepAttempts[b.stepId.value].body.packetId != p.id
           || b.effectState != EffectiveState(Steps(), b.stepId.value)
        {
          return Rejected(StaleIdentity, BlockerStepDiffers);
        }
        var effect := stepAttempts[b.stepId.value].body.effectId;
        if b.observedEffectIds != (if effect.None? then [] else [effect.value]) {
          return Rejected(StaleIdentity, BlockerEffectsDiffer);
        }
      }
      if blocker.id in blockers {
        return if blockers[blocker.id] == blocker then Ok(blocker)
               else Rejected(ReplayIdentityConflict, BlockerConflict);
      }
      blockers := blockers[blocker.id := blocker];
      r := Ok(blocker);
    }

    /** The objections to a proposal, check by check. */
    method Objections(p: PacketBody, pid: PacketId, blocker: BlockerBody, q: ProposalBody)
      returns (reasons: seq<Reason>)
      ensures reasons == Failing(RecoveryChecks(State(), p, pid, blocker, q))
    {
      hide RecoveryChecks;
      reasons := Collect(RecoveryChecks(State(), p, pid, blocker, q));
    }

    method Collect(checks: seq<(bool, Reason)>) returns (reasons: seq<Reason>)
      ensures reasons == Failing(checks)
    {
      var i := 0;
      reasons := [];
      while i < |checks|
        invariant i <= |checks| && Failing(checks) == reasons + Failing(checks[i..])
      {
        if checks[i].0 { reasons := reasons + [checks[i].1]; }
        assert checks[i..][1..] == checks[i + 1..];
        i := i + 1;
      }
    }

    method AdmitProposal(p: TaskPacket, l: Lease, blocker: BlockerReport, q: RecoveryProposal)
      returns (r: Result<RecoveryAdmission>)
      modifies this
      ensures State() == AdmitRecovery(old(State()), p, l, blocker, q).store
      ensures r == AdmitRecovery(old(State()), p, l, blocker, q).result
      ensures old(Valid()) ==> Valid()
    {
      hide Inv, ValidateClaim, ProposalAuthentic, AdmissionFor, Truth, Claims, Work, Steps,
           Callbacks;
      ghost var s := State();
      if Inv(s) { AdmitKeepsInv(s, p, l, blocker, q); }
      var valid := CheckClaim(p, l);
      if !valid.Ok? { return Fail(valid); }
      if blocker.id !in blockers || blockers[blocker.id] != blocker {
        return Rejected(StaleIdentity, BlockerNotPersisted);
      }
      if q.body.blockerId != blocker.id || q.body.packetId != p.id || q.body.leaseId != l.leaseId {
        return Rejected(StaleIdentity, ProposalNotBound);
      }
      if !ProposalAuthentic(q) { return Rejected(ReplayIdentityConflict, ProposalTampered); }
      if q.id in recoveryAdmissions { return Ok(recoveryAdmissions[q.id]); }
      var a := Admit(p, l, blocker, q);
      r := Ok(a);
    }

    /** Decide, charge an admitted proposal, and record the decision. */
    method Admit(p: TaskPacket, l: Lease, blocker: BlockerReport, q: RecoveryProposal)
      returns (a: RecoveryAdmission)
      modifies this`recoveryFingerprints, this`recoveryBudgetConsumed, this`recoveryProposals,
               this`recoveryAdmissions, this`recoveryAdmissionById
      ensures a == AdmissionFor(old(State()), p, l, blocker, q)
      ensures Recovery() == AddAdmission(old(Recovery()), q, a)
      ensures Truth() == old(Truth()) && Claims() == old(Claims()) && Work() == old(Work())
      ensures Steps() == old(Steps()) && Callbacks() == old(Callbacks())
    {
      hide RecoveryChecks, Failing, Truth, Claims, Work, Steps, Callbacks;
      var reasons := Objections(p.body, p.id, blocker.body, q.body);
      var fingerprint := FingerprintOf(blocker, q);
      var state := Admitted;
      if fingerprint in recoveryFingerprints {
        state, reasons := Duplicate, [DuplicateFingerprint];
      } else if reasons != [] {
        state := Escalated;
      }
      a := Seal(AdmissionBody(q.id, blocker.id, p.id, l.leaseId, state, reasons, fingerprint));
      PutAdmission(q, a);
    }

    method PutAdmission(q: RecoveryProposal, a: RecoveryAdmission)
      modifies this`recoveryFingerprints, this`recoveryBudgetConsumed, this`recoveryProposals,
               this`recoveryAdmissions, this`recoveryAdmissionById
      ensures recoveryProposals == old(recoveryProposals)[q.id := q]
      ensures recoveryAdmissions == old(recoveryAdmissions)[q.id := a]
      ensures recoveryAdmissionById == old(recoveryAdmissionById)[a.id := a]
      ensures recoveryFingerprints == AddAdmission(old(Recovery()), q, a).fingerprints
      ensures recoveryBudgetConsumed == AddAdmission(old(Recovery()), q, a).consumed
    {
      if a.body.state == Admitted {
        recoveryFingerprints := recoveryFingerprints + {a.body.fingerprint};
        var consumed := if a.body.packetId in recoveryBudgetConsumed
                        then recoveryBudgetConsumed[a.body.packetId] else 0;
        recoveryBudgetConsumed := recoveryBudgetConsumed[a.body.packetId := consumed + q.body.budget];
      }
      recoveryProposals := recoveryProposals[q.id := q];
      recoveryAdmissions := recoveryAdmissions[q.id := a];
      recoveryAdmissionById := recoveryAdmissionById[a.id := a];
    }

    // -------------------------------------------------------------- terminal receipts

    /** `_persist_terminal`. */
    method Terminalize(p: TaskPacket, l: Lease, status: TerminalStatus, effectId: Option<string>,
                       effectState: EffectState, output: Evidence, proof: Option<Evidence>,
                       satisfied: bool, code: Option<FailureCode>, origin: Option<FailureOrigin>)
      returns (r: Result<TerminalReceipt>)
      modifies this`receipts, this`receiptByPacket, this`activeLeases
      ensures State() == PersistTerminal(old(State()), p, l, status, effectId, effectState, output,
                                         proof, satisfied, code, origin).store
      ensures r == PersistTerminal(old(State()), p, l, status, effectId, effectState, output, proof,
                                   satisfied, code, origin).result
    {
      hide HoldsLease, HasUnsettledStep, Truth, Recovery, Callbacks, Steps;
      if p.id in receiptByPacket { return Rejected(DuplicateOrReplay, ReceiptExists); }
      if !HoldsLease(Claims(), p, l) { return Rejected(StaleIdentity, NoActiveLease); }
      var unsettled := FindUnsettled(p.id);
      if unsettled { return Rejected(UnsettledEffect, StepsUnresolved); }
      var receipt := Seal(ReceiptBody(p.body.missionId, p.body.missionRevision, p.id, l.leaseId,
                                      p.body.executorId, status, effectId, effectState, output,
                                      proof, satisfied, code, origin));
      PutReceipt(receipt, l.leaseId);
      r := Ok(receipt);
    }

    /** Write the receipt and release the lease. */
    method PutReceipt(receipt: TerminalReceipt, id: LeaseId)
      modifies this`receipts, this`receiptByPacket, this`activeLeases
      ensures receipts == old(receipts)[receipt.id := receipt]
      ensures receiptByPacket == old(receiptByPacket)[receipt.body.packetId := receipt]
      ensures activeLeases == old(activeLeases) - {id}
    {
      receipts := receipts[receipt.id := receipt];
      receiptByPacket := receiptByPacket[receipt.body.packetId := receipt];
      activeLeases := activeLeases - {id};
    }

    method BlockPacket(p: TaskPacket, l: Lease, code: FailureCode, detail: Detail)
      returns (r: Result<TerminalReceipt>)
      modifies this
      ensures State() == TerminalizePreExecution(old(State()), p, l, code, detail).store
      ensures r == TerminalizePreExecution(old(State()), p, l, code, detail).result
      ensures old(Valid()) ==> Valid()
    {
      hide Inv, HoldsLease, PersistTerminal;
      ghost var s := State();
      if Inv(s) { BlockKeepsInv(s, p, l, code, detail); }
      if p.id in executionStarted { return Rejected(DuplicateOrReplay, StartedBeforeBlock); }
      if !HoldsLease(Claims(), p, l) { return Rejected(StaleIdentity, NoActiveLease); }
      r := Terminalize(p, l, Blocked, None, NoEffect, PreExecutionBlock(code, detail), None, false,
                       Some(code), Some(HarnessOrigin));
    }

    method RecordFailure(p: TaskPacket, l: Lease, code: FailureCode, detail: Evidence,
                         observed: Option<string>, origin: FailureOrigin)
      returns (r: Result<ExecutionFailure>)
      modifies this`executionFailures, this`effectOwner
      ensures State() == RecordExecutionFailure(old(State()), p, l, code, detail, observed, origin).store
      ensures r == RecordExecutionFailure(old(State()), p, l, code, detail, observed, origin).result
      ensures r.Ok? ==>
                && FailureAdded(old(Work()), Work(), r.value)
                && r.value.body == FailureBody(p.id, l.leaseId, code, detail, observed, origin)
      ensures old(Valid()) ==> Valid()
    {
      hide Inv, HoldsLease, EvidenceText, FailureCodeAllowed, Truth, Steps, Recovery, Callbacks,
           FailureAdded;
      ghost var s := State();
      if Inv(s) { FailKeepsInv(s, p, l, code, detail, observed, origin); }
      if RecordExecutionFailure(s, p, l, code, detail, observed, origin).result.Ok? {
        FailureIsAdded(s, p, l, code, detail, observed, origin);
      }
      if !HoldsLease(Claims(), p, l) { return Rejected(StaleIdentity, NoActiveLease); }
      if p.id !in executionStarted { return Rejected(StaleIdentity, NeverStarted); }
      if p.id in executionFailures || p.id in receiptByPacket {
        return Rejected(DuplicateOrReplay, FailureRecorded);
      }
      if !EvidenceText(detail) { return Raised; }
      if !FailureCodeAllowed(code, origin) { return Rejected(InvalidFailureCode, FailureCodeRejected); }
      var failure := Seal(FailureBody(p.id, l.leaseId, code, detail, observed, origin));
      PutFailure(failure);
      r := Ok(failure);
    }

    /** Record the failure; its observed effect goes to the packet unless another owns it. */
    method PutFailure(failure: ExecutionFailure)
      modifies this`executionFailures, this`effectOwner
      ensures executionFailures == old(executionFailures)[failure.body.packetId := failure]
      ensures effectOwner == AddFailure(old(Work()), failure).owner
    {
      var f := failure.body;
      executionFailures := executionFailures[f.packetId := failure];
      if f.observedEffectId.Some? && f.observedEffectId.value !in effectOwner {
        effectOwner := effectOwner[f.observedEffectId.value := f.packetId];
      }
    }

    method SettleFailure(p: TaskPacket, l: Lease, c: FailureReconciliation)
      returns (r: Result<TerminalReceipt>)
      modifies this
      ensures State() == ReconcileFailure(old(State()), p, l, c).store
      ensures r == ReconcileFailure(old(State()), p, l, c).result
      ensures old(Valid()) && FailureReconciliationWellFormed(c) ==> Valid()
    {
      hide Inv, HoldsLease, HasUnsettledStep, PersistTerminal, FailureReconciliationWellFormed;
      ghost var s := State();
      if Inv(s) && FailureReconciliationWellFormed(c) { ReconcileFailureKeepsInv(s, p, l, c); }
      if p.id !in executionFailures || p.id in receiptByPacket {
        return Rejected(DuplicateOrReplay, NoUnresolvedFailure);
      }
      if !HoldsLease(Claims(), p, l) { return Rejected(StaleIdentity, NoActiveLease); }
      var unsettled := FindUnsettled(p.id);
      if unsettled { return Rejected(UnsettledEffect, StepsUnresolved); }
      var f := executionFailures[p.id].body;
      if c.packetId != p.id || c.leaseId != l.leaseId || c.code != f.code {
        return Rejected(StaleIdentity, FailureReconciliationNotBound);
      }
      if c.effectState == Settled {
        if f.observedEffectId.Some? && c.effectId != f.observedEffectId {
          return Rejected(StaleIdentity, SettledEffectDiffers);
        }
        var effect := if c.effectId.Some? then c.effectId.value else "";
        if effect in effectOwner && effectOwner[effect] != p.id {
          return Rejected(DuplicateOrReplay, EffectOwned);
        }
        effectOwner := effectOwner[effect := p.id];
      } else if f.observedEffectId.Some? && f.observedEffectId.value in effectOwner
                && effectOwner[f.observedEffectId.value] == p.id {
        effectOwner := effectOwner - {f.observedEffectId.value};
      }
      r := Terminalize(p, l, Failed, c.effectId, c.effectState, c.outputDigest, Some(c.proofDigest),
                       false, Some(f.code), Some(f.origin));
    }

    method RecordResult(p: TaskPacket, l: Lease, result: ExecutionResult)
      returns (r: Result<TerminalReceipt>)
      modifies this
      ensures State() == RecordExecution(old(State()), p, l, result).store
      ensures r == RecordExecution(old(State()), p, l, result).result
      ensures old(Valid()) && ResultWellFormed(result) ==> Valid()
    {
      hide Inv, HoldsLease, HasUnsettledStep, PersistTerminal, RecordExecutionFailure,
           ResultWellFormed, Truth, Steps, Recovery, Callbacks, Claims;
      ghost var s := State();
      if Inv(s) && ResultWellFormed(result) { RecordExecutionKeepsInv(s, p, l, result); }
      if !HoldsLease(Claims(), p, l) { return Rejected(StaleIdentity, NoActiveLease); }
      var unsettled := FindUnsettled(p.id);
      if unsettled { return Rejected(UnsettledEffect, StepsUnresolved); }
      if p.id !in executionStarted { return Rejected(StaleIdentity, NeverStarted); }
      if p.id in attempts { return Rejected(DuplicateOrReplay, ResultExists); }
      if || result.executorId != p.body.executorId || result.packetId != p.id
         || result.leaseId != l.leaseId
      {
        var failed := RecordFailure(p, l, StaleIdentity, ResultMismatch(p.id, l.leaseId),
                                    Some(result.effectId), HarnessOrigin);
        return if failed.Ok? then Rejected(StaleIdentity, ResultIdentityDiffers) else Fail(failed);
      }
      if result.effectId in effectOwner {
        var failed := RecordFailure(p, l, DuplicateOrReplay,
                                    DuplicateEffect(result.effectId, effectOwner[result.effectId]),
                                    Some(result.effectId), HarnessOrigin);
        return if failed.Ok? then Rejected(DuplicateOrReplay, EffectOwned) else Fail(failed);
      }
      PutAttempt(p.id, result);
      if result.effectState != Settled { return Rejected(UnsettledEffect, EffectHasNoProof); }
      r := Terminalize(p, l, Succeeded, Some(result.effectId), result.effectState,
                       result.outputDigest, Some(result.outputDigest), result.predicateSatisfied,
                       None, None);
    }

    /** Record the result and give its effect to the packet. */
    method PutAttempt(pid: PacketId, result: ExecutionResult)
      modifies this`attempts, this`effectOwner
      ensures attempts == old(attempts)[pid := result]
      ensures effectOwner == old(effectOwner)[result.effectId := pid]
    {
      attempts := attempts[pid := result];
      effectOwner := effectOwner[result.effectId := pid];
    }

    method SettleEffect(p: TaskPacket, l: Lease, c: EffectReconciliation)
      returns (r: Result<TerminalReceipt>)
      modifies this
      ensures State() == ReconcileEffect(old(State()), p, l, c).store
      ensures r == ReconcileEffect(old(State()), p, l, c).result
      ensures old(Valid()) ==> Valid()
    {
      hide Inv, HoldsLease, HasUnsettledStep, PersistTerminal;
      ghost var s := State();
      if Inv(s) { ReconcileEffectKeepsInv(s, p, l, c); }
      if p.id !in attempts || attempts[p.id].effectState != Unsettled {
        return Rejected(DuplicateOrReplay, NothingToReconcile);
      }
      if !HoldsLease(Claims(), p, l) { return Rejected(StaleIdentity, NoActiveLease); }
      var unsettled := FindUnsettled(p.id);
      if unsettled { return Rejected(UnsettledEffect, StepsUnresolved); }
      if c.packetId != p.id || c.leaseId != l.leaseId || c.effectId != attempts[p.id].effectId {
        return Rejected(StaleIdentity, EffectReconciliationNotBound);
      }
      if c.effectState != Settled { return Rejected(UnsettledEffect, EffectRemainsUnsettled); }
      var settled := attempts[p.id].(effectState := Settled);
      attempts := attempts[p.id := settled];
      r := Terminalize(p, l, Succeeded, Some(settled.effectId), settled.effectState,
                       settled.outputDigest, Some(c.proofDigest), settled.predicateSatisfied, None,
                       None);
    }

    // -------------------------------------------------------------- continuations

    method Prepare(receipt: TerminalReceipt) returns (r: Result<Continuation>)
      modifies this
      ensures State() == PrepareContinuation(old(State()), receipt).store
      ensures r == PrepareContinuation(old(State()), receipt).result
      ensures old(Valid()) ==> Valid()
    {
      hide Inv, Truth, Steps, Recovery;
      ghost var s := State();
      if Inv(s) { PrepareKeepsInv(s, receipt); }
      if receipt.id !in receipts || receipts[receipt.id] != receipt {
        return Rejected(StaleIdentity, ReceiptNotAuthoritative);
      }
      if receipt.id in continuationByReceipt {
        if continuationByReceipt[receipt.id] !in continuations { return Raised; }
        var existing := continuations[continuationByReceipt[receipt.id]];
        if existing.state == Prepared { return Ok(existing); }
        if existing.state == DeliveryUnsettled {
          return Rejected(CallbackDeliveryUnsettled, DeliveryNeedsReconciliation);
        }
        return Rejected(DuplicateOrReplay, ContinuationStarted);
      }
      if receipt.body.packetId !in packets { return Raised; }
      var destination := packets[receipt.body.packetId].body.destination;
      var id := Of(ContinuationKey(receipt.id, destination));
      var turn := Of(TurnKey(id, receipt.id, destination));
      var continuation := Continuation(id, receipt.id, destination, turn, Prepared);
      continuations := continuations[id := continuation];
      continuationByReceipt := continuationByReceipt[receipt.id := id];
      r := Ok(continuation);
    }

    /** `validate_prepared_continuation`. */
    method CheckPrepared(c: Continuation, receipt: TerminalReceipt) returns (r: Result<()>)
      ensures r == ValidatePreparedContinuation(State(), c, receipt)
      ensures r.Ok? <==> && IsCurrent(State().callbacks, c) && c.state == Prepared
                         && c.receiptId == receipt.id && Authoritative(State().work, receipt)
      ensures Valid() ==> (r.Ok? <==> PrepareContinuation(State(), receipt) == Outcome(State(), Ok(c)))
      ensures r.Ok? <==> BeginDelivery(State(), c, receipt).result.Ok?
    {
      hide Inv;
      ghost var s := State();
      if Inv(s) { PreparedIsPrepared(s, c, receipt); }
      if c.continuationId !in continuations {
        return Rejected(ReplayIdentityConflict, PreparedIdentityChanged);
      }
      var current := continuations[c.continuationId];
      if current.state == DeliveryUnsettled {
        return Rejected(CallbackDeliveryUnsettled, DeliveryNeedsReconciliation);
      }
      if || current != c || current.state != Prepared || c.receiptId != receipt.id
         || receipt.id !in receipts || receipts[receipt.id] != receipt
      {
        return Rejected(ReplayIdentityConflict, PreparedIdentityChanged);
      }
      r := Ok(());
    }

    /** `validate_resume`. */
    method CheckResume(c: Continuation, proof: ResumeProof) returns (r: Result<Continuation>)
      ensures r == ValidateResume(State(), c, proof)
      ensures r.Ok? <==> && IsCurrent(State().callbacks, c) && c.state == Prepared
                         && proof.continuationId == c.continuationId
                         && proof.destination == c.destination && NonBlank(proof.resumeToken)
      ensures r.Ok? ==> r.value == c
      ensures Valid() && r.Ok? ==>
                && c.receiptId in State().work.receipts
                && BeginDelivery(State(), c, State().work.receipts[c.receiptId]).result.Ok?
    {
      hide Inv;
      ghost var s := State();
      if Inv(s) && ValidateResume(s, c, proof).Ok? { ResumedCanBegin(s, c, proof); }
      hide NonBlank;
      if || c.continuationId !in continuations || continuations[c.continuationId] != c
         || c.state != Prepared
      {
        return Rejected(DuplicateOrReplay, NotPrepared);
      }
      if proof.continuationId != c.continuationId || proof.destination != c.destination {
        return Rejected(CallbackTargetMismatch, ResumeTargetDiffers);
      }
      if !NonBlank(proof.resumeToken) { return Raised; }
      r := Ok(c);
    }

    /** `replay_acknowledged`. */
    method Replay(c: Continuation) returns (r: Result<PacketId>)
      ensures r == ReplayAcknowledged(State(), c)
      ensures r.Ok? <==> && IsCurrent(State().callbacks, c) && c.state == Acknowledged
                         && c.receiptId in State().work.receipts
                         && State().work.receipts[c.receiptId].body.packetId in State().callbacks.ackOf
      ensures r.Ok? ==> r.value == State().work.receipts[c.receiptId].body.packetId
      ensures Valid() && AcksInv(State().work, State().callbacks) ==>
                && (r.Ok? <==> IsCurrent(State().callbacks, c) && c.state == Acknowledged)
                && (r.Ok? ==> State().callbacks.ackOf[r.value].base.continuationId == c.continuationId)
    {
      hide Inv, AcksInv;
      ghost var s := State();
      if Inv(s) && AcksInv(s.work, s.callbacks) { ReplayNamesItsPacket(s, c); }
      if c.continuationId !in continuations || continuations[c.continuationId] != c {
        return Rejected(ReplayIdentityConflict, ReplayTargetChanged);
      }
      if c.state != Acknowledged { return Rejected(DuplicateOrReplay, ReplayNotAcknowledged); }
      if c.receiptId !in receipts { return Raised; }
      var pid := receipts[c.receiptId].body.packetId;
      if pid !in ackByPacket { return Rejected(ReplayIdentityConflict, ReplayNotBound); }
      r := Ok(pid);
    }

    method StartDelivery(c: Continuation, receipt: TerminalReceipt) returns (r: Result<Continuation>)
      modifies this
      ensures State() == BeginDelivery(old(State()), c, receipt).store
      ensures r == BeginDelivery(old(State()), c, receipt).result
      ensures old(Valid()) ==> Valid()
    {
      hide Inv;
      ghost var s := State();
      if Inv(s) { DeliverKeepsInv(s, c, receipt); }
      if || c.continuationId !in continuations || continuations[c.continuationId] != c
         || c.state != Prepared || c.receiptId != receipt.id
         || receipt.id !in receipts || receipts[receipt.id] != receipt
      {
        return Rejected(ReplayIdentityConflict, DeliveryIdentityChanged);
      }
      var started := c.(state := DeliveryStarted);
      continuations := continuations[c.continuationId := started];
      r := Ok(started);
    }

    method MarkUnsettled(c: Continuation, receipt: TerminalReceipt) returns (r: Result<Continuation>)
      modifies this
      ensures State() == MarkDeliveryUnsettled(old(State()), c, receipt).store
      ensures r == MarkDeliveryUnsettled(old(State()), c, receipt).result
      ensures old(Valid()) ==> Valid()
    {
      hide Inv;
      ghost var s := State();
      if Inv(s) { UnsettleKeepsInv(s, c, receipt); }
      if || c.continuationId !in continuations || continuations[c.continuationId] != c
         || c.state != DeliveryStarted || c.receiptId != receipt.id
      {
        return Rejected(ReplayIdentityConflict, NotStartedDelivery);
      }
      var unsettled := c.(state := DeliveryUnsettled);
      continuations := continuations[c.continuationId := unsettled];
      r := Ok(unsettled);
    }

    /** `_acknowledge_delivery`. */
    method Acknowledge(c: Continuation, receipt: TerminalReceipt, proof: ConvergenceProof,
                       expected: ContinuationState)
      returns (r: Result<(Continuation, Acknowledgement)>)
      modifies this`continuations, this`acknowledgements, this`ackByPacket
      ensures State() == AcknowledgeDelivery(old(State()), c, receipt, proof, expected).store
      ensures r == AcknowledgeDelivery(old(State()), c, receipt, proof, expected).result
      ensures old(Valid()) ==> Valid()
    {
      hide Inv, NonBlank, AckFor, Truth, Claims, Work, Steps, Recovery;
      ghost var s := State();
      if Inv(s) { AcknowledgeKeepsInv(s, c, receipt, proof, expected); }
      var b := proof.body;
      if c.continuationId !in continuations || continuations[c.continuationId] != c || c.state != expected {
        return Rejected(DuplicateOrReplay, NotExpectedState);
      }
      if || c.receiptId != receipt.id || b.continuationId != c.continuationId
         || b.receiptId != receipt.id || b.destination != c.destination
         || b.turnRequestId != c.turnRequestId
      {
        return Rejected(CallbackTargetMismatch, TurnNotBound);
      }
      if !b.completed || !NonBlank(b.completedTurnId) {
        return Rejected(ConvergenceNotProven, TurnNotCompleted);
      }
      if !proof.Authentic() { return Rejected(ReplayIdentityConflict, ConvergenceTampered); }
      var ack := PutAck(c, receipt, proof);
      r := Ok((c.(state := Acknowledged), ack));
    }

    /** Acknowledge the continuation and index its acknowledgement. */
    method PutAck(c: Continuation, receipt: TerminalReceipt, proof: ConvergenceProof)
      returns (ack: Acknowledgement)
      modifies this`continuations, this`acknowledgements, this`ackByPacket
      ensures ack == AckFor(c, receipt, proof)
      ensures continuations == old(continuations)[c.continuationId := c.(state := Acknowledged)]
      ensures acknowledgements == old(acknowledgements)[ack.acknowledgementId := ack]
      ensures ackByPacket == old(ackByPacket)[ack.base.packetId := ack]
    {
      var base := AckBase(receipt.body.packetId, receipt.id, c.continuationId, proof.id);
      ack := Acknowledgement(Of(base), base, Of(base), Of(base), Of(base));
      continuations := continuations[c.continuationId := c.(state := Acknowledged)];
      acknowledgements := acknowledgements[ack.acknowledgementId := ack];
      ackByPacket := ackByPacket[receipt.body.packetId := ack];
    }

    method SettleContinuation(receipt: TerminalReceipt, c: ContinuationReconciliation,
                              proof: Option<DeliveryProof>)
      returns (r: Result<(Continuation, Option<Acknowledgement>)>)
      modifies this
      ensures State() == ReconcileContinuation(old(State()), receipt, c, proof).store
      ensures r == ReconcileContinuation(old(State()), receipt, c, proof).result
      ensures old(Valid()) && OfUnsettled(old(State()), receipt, c) && c.state == NotCommitted ==>
                (r.Ok? <==> proof.Some? && proof.value.Absent?
                            && ProvesTurnAbsent(old(continuations)[c.continuationId], c,
                                                proof.value.absence))
      ensures old(Valid()) ==> Valid()
    {
      hide Inv, AbsenceExact, AcknowledgeDelivery, ProvesTurnAbsent, OfUnsettled;
      ghost var s := State();
      if Inv(s) {
        ReconcileContinuationKeepsInv(s, receipt, c, proof);
        if OfUnsettled(s, receipt, c) && c.state == NotCommitted {
          AbsenceAcceptedIff(s, receipt, c, proof);
        }
      }
      if || c.continuationId !in continuations
         || continuations[c.continuationId].state != DeliveryUnsettled
         || receipt.id !in receipts || receipts[receipt.id] != receipt
      {
        return Rejected(DuplicateOrReplay, NotUnsettledDelivery);
      }
      var current := continuations[c.continuationId];
      if || c.receiptId != receipt.id || current.receiptId != receipt.id
         || c.turnRequestId != current.turnRequestId
      {
        return Rejected(StaleIdentity, ReconciliationNotBound);
      }
      if c.state == NotCommitted {
        if !AbsenceExact(current, receipt, c, proof) {
          return Rejected(ConvergenceNotProven, AbsenceNotProven);
        }
        var prepared := current.(state := Prepared);
        continuations := continuations[current.continuationId := prepared];
        return Ok((prepared, None));
      }
      if proof.None? || !proof.value.Converged? || c.proofDigest != Of(proof.value) {
        return Rejected(ConvergenceNotProven, ConvergenceNotExact);
      }
      var acked := Acknowledge(current, receipt, proof.value.proof, DeliveryUnsettled);
      r := if acked.Ok? then Ok((acked.value.0, Some(acked.value.1))) else Fail(acked);
    }

    // -------------------------------------------------------------- verification

    method SearchReadback(ps: seq<PredicateReadback>, key: string)
      returns (r: Option<PredicateReadback>)
      ensures r == ReadbackOf(ps, key)
    {
      var i := 0;
      while i < |ps|
        invariant i <= |ps| && ReadbackOf(ps, key) == ReadbackOf(ps[i..], key)
      {
        if ps[i].key == key { return Some(ps[i]); }
        assert ps[i..][1..] == ps[i + 1..];
        i := i + 1;
      }
      r := None;
    }

    /** The next action and predicate, scanned from the readback. */
    method ScanReadback(ps: seq<PredicateReadback>) returns (action: NextAction, key: Option<string>)
      ensures (action, key) == NextOf(ps)
    {
      var ts := ReadbackTruths(ps);
      var i := Search(ts, Indeterminate);
      if i < |ps| { return ReadbackRecheck, Some(ps[i].key); }
      var k := Search(ts, Unsatisfied);
      if k < |ps| { return RouteSelection, Some(ps[k].key); }
      return MissionComplete, None;
    }

    method Judge(ack: Acknowledgement, key: string, truth: Truth, readback: SnapshotReadback)
      returns (v: MissionVerification)
      ensures v == VerificationFor(ack, key, truth, readback)
    {
      hide NextOf;
      var b := readback.body;
      var action, next := ScanReadback(b.predicates);
      v := Seal(VerificationBody(b.missionId, b.missionRevision, b.stateRevision, b.sequence, key,
                                 truth, next, action, ack.acknowledgementId, readback.id,
                                 b.evidenceDigest));
    }

    method Verify(ack: Acknowledgement, readback: SnapshotReadback)
      returns (r: Result<MissionVerification>)
      modifies this
      ensures State() == VerifyMission(old(State()), ack, readback).store
      ensures r == VerifyMission(old(State()), ack, readback).result
      ensures old(Valid()) && r.Ok? ==>
                && SaysOf(readback.body, r.value.body.predicateKey, r.value.body.predicateTruth)
                && AsksNext(readback.body.predicates, r.value.body.nextAction, r.value.body.nextKey)
      ensures old(Valid()) && readback.body.sequence >= 0 ==> Valid()
    {
      hide Inv, SaysOf, AsksNext, SameKeys, VerificationFor, ReadbackOf, Work, Steps, Recovery;
      ghost var s := State();
      if Inv(s) && readback.body.sequence >= 0 { VerifyKeepsInv(s, ack, readback); }
      if Inv(s) && VerifyMission(s, ack, readback).result.Ok? { VerdictIsTheReadbacks(s, ack, readback); }
      var b := readback.body;
      if ack.acknowledgementId !in acknowledgements || acknowledgements[ack.acknowledgementId] != ack {
        return Rejected(StaleIdentity, AckNotAuthoritative);
      }
      if !ack.Authentic() || !readback.Authentic() {
        return Rejected(ReplayIdentityConflict, ReadbackTampered);
      }
      if ack.base.packetId !in packets { return Raised; }
      var p := packets[ack.base.packetId].body;
      if p.missionId !in missions { return Raised; }
      var m := missions[p.missionId];
      if || m.revision != p.missionRevision || b.missionId != p.missionId
         || b.missionRevision != p.missionRevision
      {
        return Rejected(StaleIdentity, ReadbackRevisionDiffers);
      }
      if !SameKeys(m, b.predicates) { return Rejected(StaleIdentity, ReadbackKeysDiffer); }
      var key := (m.missionId, m.revision);
      if key in missionSnapshots {
        var previous := missionSnapshots[key];
        if b.sequence < previous.body.sequence { return Rejected(StaleIdentity, SequenceOlder); }
        if b.sequence == previous.body.sequence && previous != readback {
          return Rejected(ReplayIdentityConflict, SequenceReused);
        }
      }
      var current := SearchReadback(b.predicates, p.predicateKey);
      if current.None? { return Raised; }
      var v := Judge(ack, p.predicateKey, current.value.truth, readback);
      if v.id in verifications { return Ok(verifications[v.id]); }
      PutReadback(key, readback, v);
      r := Ok(v);
    }

    method PutReadback(key: SnapshotKey, readback: SnapshotReadback, v: MissionVerification)
      modifies this`missionSnapshots, this`verifications
      ensures missionSnapshots == old(missionSnapshots)[key := readback]
      ensures verifications == old(verifications)[v.id := v]
    {
      missionSnapshots := missionSnapshots[key := readback];
      verifications := verifications[v.id := v];
    }
  }
}
