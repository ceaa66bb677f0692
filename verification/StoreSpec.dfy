/** The state of `InMemoryStore` and one pure transition per public method.  A transition lists the
    method's guards in source order and gives the state and the result it leaves. */
module StoreSpec {
  import opened Records

  // ---------------------------------------------------------------- state

  type SnapshotKey = (string, int)
  type RouteKey = (string, int, string)
  type SupersessionKey = (string, int, int, AckId)

  datatype MissionLedger =
    MissionLedger(missions: map<string, Mission>,
                  snapshots: map<SnapshotKey, SnapshotReadback>,
                  dispositions: map<RouteKey, RouteDisposition>,
                  verifications: map<Digest<VerificationBody>, MissionVerification>,
                  supersessions: map<SupersessionKey, Supersession>)

  datatype ClaimLedger =
    ClaimLedger(versions: map<string, int>, active: map<LeaseId, Lease>,
                leases: map<PacketId, Lease>, packets: map<PacketId, TaskPacket>)

  datatype WorkLedger =
    WorkLedger(started: set<PacketId>, attempts: map<PacketId, ExecutionResult>,
               failures: map<PacketId, ExecutionFailure>, owner: map<string, PacketId>,
               receipts: map<ReceiptId, TerminalReceipt>,
               receiptOf: map<PacketId, TerminalReceipt>)

  datatype StepLedger =
    StepLedger(steps: map<StepId, StepAttempt>, byPacket: map<PacketId, seq<StepId>>,
               effectOwner: map<string, StepId>, reconciled: map<StepId, StepReconciliation>)

  datatype RecoveryLedger =
    RecoveryLedger(blockers: map<BlockerId, BlockerReport>,
                   proposals: map<ProposalId, RecoveryProposal>,
                   admissions: map<ProposalId, RecoveryAdmission>,
                   admissionById: map<AdmissionId, RecoveryAdmission>,
                   fingerprints: set<Fingerprint>, consumed: map<PacketId, int>)

  datatype CallbackLedger =
    CallbackLedger(continuations: map<ContinuationId, Continuation>,
                   byReceipt: map<ReceiptId, ContinuationId>,
                   acks: map<AckId, Acknowledgement>, ackOf: map<PacketId, Acknowledgement>)

  datatype Store = Store(truth: MissionLedger, claims: ClaimLedger, work: WorkLedger,
                         steps: StepLedger, recovery: RecoveryLedger, callbacks: CallbackLedger)

  const EMPTY: Store :=
    Store(MissionLedger(map[], map[], map[], map[], map[]),
          ClaimLedger(map[], map[], map[], map[]),
          WorkLedger({}, map[], map[], map[], map[], map[]),
          StepLedger(map[], map[], map[], map[]),
          RecoveryLedger(map[], map[], map[], map[], {}, map[]),
          CallbackLedger(map[], map[], map[], map[]))

  /** A returned value, a `HarnessViolation`, or any other Python error leaving the method. */
  datatype Result<+T> = Ok(value: T) | Rejected(code: FailureCode, detail: Detail) | Raised

  datatype Outcome<+T> = Outcome(store: Store, result: Result<T>)

  /** The receiver's error, as a result of another type. */
  function Fail<T, U>(r: Result<T>): (f: Result<U>)
    requires !r.Ok?
    ensures !f.Ok?
  {
    match r
    case Rejected(code, detail) => Rejected(code, detail)
    case Raised => Raised
  }

  // ---------------------------------------------------------------- mission truth

  function RegisterMission(s: Store, m: Mission): (o: Outcome<()>) {
    var ms := s.truth.missions;
    var put := s.(truth := s.truth.(missions := ms[m.missionId := m]));
    if m.missionId !in ms then Outcome(put, Ok(()))
    else if m == ms[m.missionId] then Outcome(s, Ok(()))
    else if m.revision <= ms[m.missionId].revision then
      Outcome(s, Rejected(StaleIdentity, MissionNotNewer))
    else Outcome(put, Ok(()))
  }

  /** `next(route for route in routes if route.route_id == id)`. */
  function FindRoute(routes: seq<Route>, id: string): (r: Option<Route>)
    ensures r.Some? ==> r.value in routes && r.value.routeId == id
    ensures r.None? ==> forall i :: 0 <= i < |routes| ==> routes[i].routeId != id
  {
    if |routes| == 0 then None
    else if routes[0].routeId == id then Some(routes[0])
    else FindRoute(routes[1..], id)
  }

  function RecordRouteDisposition(s: Store, d: RouteDisposition): (o: Outcome<RouteDisposition>) {
    var b := d.body;
    var t := s.truth;
    var route :=
      if b.missionId in t.missions && t.missions[b.missionId].revision == b.missionRevision
      then FindRoute(t.missions[b.missionId].routes, b.routeId) else None;
    var key := (b.missionId, b.missionRevision, b.routeId);
    if route.None? || route.value.predicateKey != b.predicateKey then
      Outcome(s, Rejected(StaleIdentity, DispositionNotBound))
    else if !d.Authentic() then Outcome(s, Rejected(ReplayIdentityConflict, DispositionTampered))
    else if key in t.dispositions then
      Outcome(s, if t.dispositions[key] == d then Ok(d)
                 else Rejected(ReplayIdentityConflict, DispositionConflict))
    else Outcome(s.(truth := t.(dispositions := t.dispositions[key := d])), Ok(d))
  }

  function RecordMissionSupersession(s: Store, d: Supersession): (o: Outcome<Supersession>) {
    var b := d.body;
    var t := s.truth;
    var acks := s.callbacks.acks;
    if || b.missionId !in t.missions
       || t.missions[b.missionId].revision != b.supersedingRevision
       || b.acknowledgementId !in acks
       || b.receiptId !in s.work.receipts
       || acks[b.acknowledgementId].base.packetId !in s.claims.packets
       || acks[b.acknowledgementId].base.receiptId != s.work.receipts[b.receiptId].id
       || s.claims.packets[acks[b.acknowledgementId].base.packetId].body.missionId != b.missionId
       || s.claims.packets[acks[b.acknowledgementId].base.packetId].body.missionRevision
          != b.supersededRevision
    then Outcome(s, Rejected(StaleIdentity, SupersessionNotBound))
    else if || !d.Authentic() || !acks[b.acknowledgementId].Authentic()
            || !s.work.receipts[b.receiptId].Authentic()
    then Outcome(s, Rejected(ReplayIdentityConflict, SupersessionTampered))
    else
      var key := (b.missionId, b.supersededRevision, b.supersedingRevision, b.acknowledgementId);
      if key in t.supersessions then
        Outcome(s, if t.supersessions[key] == d then Ok(d)
                   else Rejected(ReplayIdentityConflict, SupersessionConflict))
      else Outcome(s.(truth := t.(supersessions := t.supersessions[key := d])), Ok(d))
  }

  /** Index of the first `x`, or the length when there is none. */
  function FirstIndex(ts: seq<Truth>, x: Truth): (i: nat)
    ensures i <= |ts|
    ensures i < |ts| ==> ts[i] == x
    ensures forall j :: 0 <= j < i ==> ts[j] != x
  {
    if |ts| == 0 || ts[0] == x then 0 else 1 + FirstIndex(ts[1..], x)
  }

  function ReadbackTruths(ps: seq<PredicateReadback>): (ts: seq<Truth>)
    ensures |ts| == |ps| && forall i :: 0 <= i < |ps| ==> ts[i] == ps[i].truth
  {
    seq(|ps|, i requires 0 <= i < |ps| => ps[i].truth)
  }

  function DeclaredTruths(ps: seq<ExitPredicate>): (ts: seq<Truth>)
    ensures |ts| == |ps|
    ensures forall i :: 0 <= i < |ps| ==> ts[i] == if ps[i].satisfied then Satisfied else Unsatisfied
  {
    seq(|ps|, i requires 0 <= i < |ps| => if ps[i].satisfied then Satisfied else Unsatisfied)
  }

  function Truths(t: MissionLedger, m: Mission): seq<Truth> {
    if (m.missionId, m.revision) in t.snapshots
    then ReadbackTruths(t.snapshots[(m.missionId, m.revision)].body.predicates)
    else DeclaredTruths(m.predicates)
  }

  function Min(a: nat, b: nat): nat { if a < b then a else b }

  /** The first unsatisfied predicate, `None` when all hold.  A strict `zip` of unequal lengths
      raises once the shorter side is exhausted without an indeterminate truth. */
  function FirstFalse(t: MissionLedger, m: Mission): (r: Result<Option<ExitPredicate>>) {
    var ts := Truths(t, m);
    var n := Min(|ts|, |m.predicates|);
    var i := FirstIndex(ts[..n], Indeterminate);
    if i < n then
      Rejected(MissionReadbackIndeterminate, PredicateIndeterminate(m.predicates[i].key))
    else if |ts| != |m.predicates| then Raised
    else
      var k := FirstIndex(ts, Unsatisfied);
      Ok(if k < |ts| then Some(m.predicates[k]) else None)
  }

  predicate RouteMatches(p: PacketBody, m: Mission, r: Option<Route>) {
    && p.missionMode == m.mode && p.destination == m.destination && r.Some?
    && r.value.predicateKey == p.predicateKey && r.value.executorId == p.executorId
    && r.value.scope == p.scope && r.value.expectedDelta == p.expectedDelta
    && r.value.abandonIf == p.abandonIf && r.value.recoveryBudget == p.recoveryBudget
  }

  function ValidatePacket(t: MissionLedger, p: TaskPacket): (r: Result<Mission>) {
    var b := p.body;
    if !p.Authentic() then Rejected(ReplayIdentityConflict, PacketTampered)
    else if b.missionId !in t.missions || t.missions[b.missionId].revision != b.missionRevision
    then Rejected(StaleIdentity, MissionRevisionDiffers)
    else
      var m := t.missions[b.missionId];
      var scan := FirstFalse(t, m);
      if !scan.Ok? then Fail(scan)
      else if scan.value.None? || scan.value.value.key != b.predicateKey
      then Rejected(StaleIdentity, NotFirstFalse)
      else
        var route := FindRoute(m.routes, b.routeId);
        if route.Some? && (m.missionId, m.revision, b.routeId) in t.dispositions
        then Rejected(StaleIdentity, RouteDisposed)
        else if !RouteMatches(b, m, route) then Rejected(StaleIdentity, PacketFieldsDiffer)
        else Ok(m)
  }

  // ---------------------------------------------------------------- claims

  function Version(versions: map<string, int>, item: string): int {
    if item in versions then versions[item] else 0
  }

  function ScopeSnapshot(versions: map<string, int>, scope: seq<string>): (r: seq<(string, int)>)
    ensures |r| == |scope|
    ensures forall i :: 0 <= i < |scope| ==> r[i] == (scope[i], Version(versions, scope[i]))
  {
    seq(|scope|, i requires 0 <= i < |scope| => (scope[i], Version(versions, scope[i])))
  }

  function Following(versions: seq<(string, int)>): (r: seq<(string, int)>)
    ensures |r| == |versions|
    ensures forall i :: 0 <= i < |r| ==> r[i] == (versions[i].0, versions[i].1 + 1)
  {
    seq(|versions|, i requires 0 <= i < |versions| => (versions[i].0, versions[i].1 + 1))
  }

  /** The only lease a claim of this packet can issue. */
  function LeaseFor(p: TaskPacket): Lease {
    var v := Following(p.body.scopeVersions);
    Lease(Of(LeaseKey(p.id, v)), p.id, p.body.scope, v)
  }

  predicate Overlaps(a: seq<string>, b: seq<string>) { exists x :: x in a && x in b }

  function BumpScope(versions: map<string, int>, scope: seq<string>): map<string, int> {
    map x | x in versions.Keys + (set y | y in scope) ::
      if x in scope then Version(versions, x) + 1 else versions[x]
  }

  function Issue(c: ClaimLedger, p: TaskPacket): ClaimLedger {
    ClaimLedger(BumpScope(c.versions, p.body.scope), c.active[LeaseFor(p).leaseId := LeaseFor(p)],
                c.leases[p.id := LeaseFor(p)], c.packets[p.id := p])
  }

  function Claim(s: Store, p: TaskPacket): (o: Outcome<Lease>) {
    var valid := ValidatePacket(s.truth, p);
    var c := s.claims;
    if !valid.Ok? then Outcome(s, Fail(valid))
    else if p.id in c.leases then Outcome(s, Rejected(DuplicateOrReplay, AlreadyClaimed))
    else if exists k :: k in c.active && Overlaps(p.body.scope, c.active[k].scope)
    then Outcome(s, Rejected(LeaseConflict, ScopeLeased))
    else if ScopeSnapshot(c.versions, p.body.scope) != p.body.scopeVersions
    then Outcome(s, Rejected(CasMismatch, VersionChanged))
    else Outcome(s.(claims := Issue(c, p)), Ok(LeaseFor(p)))
  }

  predicate HoldsLease(c: ClaimLedger, p: TaskPacket, l: Lease) {
    && l.leaseId in c.active && c.active[l.leaseId] == l
    && p.id in c.packets && c.packets[p.id] == p
    && p.id in c.leases && c.leases[p.id] == l
    && l.packetId == p.id
  }

  function ValidateLease(c: ClaimLedger, p: TaskPacket, l: Lease): (r: Result<()>) {
    if HoldsLease(c, p, l) then Ok(()) else Rejected(StaleIdentity, NoActiveLease)
  }

  /** `_validate_active_claim` with the current mission required. */
  function ValidateClaim(s: Store, p: TaskPacket, l: Lease): (r: Result<()>) {
    var valid := ValidatePacket(s.truth, p);
    if !valid.Ok? then Fail(valid) else ValidateLease(s.claims, p, l)
  }

  // ---------------------------------------------------------------- execution

  function BeginExecution(s: Store, p: TaskPacket, l: Lease): (o: Outcome<()>) {
    if p.id in s.work.started || p.id in s.work.receiptOf
    then Outcome(s, Rejected(DuplicateOrReplay, AlreadyStarted))
    else
      var valid := ValidateClaim(s, p, l);
      if !valid.Ok? then Outcome(s, valid)
      else Outcome(s.(work := s.work.(started := s.work.started + {p.id})), Ok(()))
  }

  function StepsOf(st: StepLedger, pid: PacketId): seq<StepId> {
    if pid in st.byPacket then st.byPacket[pid] else []
  }

  /** `_effective_step_state` of a persisted step. */
  function EffectiveState(st: StepLedger, id: StepId): EffectState {
    if id in st.reconciled then st.reconciled[id].body.effectState
    else if id in st.steps then st.steps[id].body.effectState
    else NoEffect
  }

  predicate HasUnsettledStep(st: StepLedger, pid: PacketId) {
    exists id :: id in StepsOf(st, pid) && EffectiveState(st, id) == Unsettled
  }

  function ActionById(actions: seq<RecoveryAction>, id: ActionId): (r: Option<RecoveryAction>)
    ensures r.Some? ==> r.value in actions && r.value.id == id
    ensures r.None? ==> forall i :: 0 <= i < |actions| ==> actions[i].id != id
  {
    if |actions| == 0 then None
    else if actions[0].id == id then Some(actions[0])
    else ActionById(actions[1..], id)
  }

  predicate AdmittedAction(r: RecoveryLedger, pid: PacketId, lid: LeaseId, step: StepBody,
                           b: RecoveryBinding) {
    && b.admissionId in r.admissionById
    && var a := r.admissionById[b.admissionId].body;
    && a.state == Admitted && a.packetId == pid && a.leaseId == lid
    && a.proposalId in r.proposals
    && r.proposals[a.proposalId].body.blockerId == a.blockerId
    && var action := ActionById(r.proposals[a.proposalId].body.actions, b.actionId);
    && action.Some?
    && action.value.body.operationDigest == step.operationDigest
    && action.value.body.effectClass == step.effectClass
  }

  function AddStep(st: StepLedger, step: StepAttempt): StepLedger {
    var b := step.body;
    st.(steps := st.steps[step.id := step],
        byPacket := st.byPacket[b.packetId := StepsOf(st, b.packetId) + [step.id]],
        effectOwner := if b.effectId.Some? then st.effectOwner[b.effectId.value := step.id]
                       else st.effectOwner)
  }

  function RecordStepAttempt(s: Store, p: TaskPacket, l: Lease, step: StepAttempt):
    (o: Outcome<StepAttempt>)
  {
    var b := step.body;
    var st := s.steps;
    var valid := ValidateClaim(s, p, l);
    if !valid.Ok? then Outcome(s, Fail(valid))
    else if p.id !in s.work.started then Outcome(s, Rejected(StaleIdentity, NeverStarted))
    else if b.packetId != p.id || b.leaseId != l.leaseId
    then Outcome(s, Rejected(StaleIdentity, StepNotBound))
    else if !step.Authentic() then Outcome(s, Rejected(ReplayIdentityConflict, StepTampered))
    else if b.recovery.Some? && (|| b.recovery.value.parent !in st.steps
                                 || st.steps[b.recovery.value.parent].body.packetId != p.id)
    then Outcome(s, Rejected(StaleIdentity, ParentNotBound))
    else if b.recovery.Some? && !AdmittedAction(s.recovery, p.id, l.leaseId, b, b.recovery.value)
    then Outcome(s, Rejected(StaleIdentity, ActionNotAdmitted))
    else if step.id in st.steps then
      Outcome(s, if st.steps[step.id] == step then Ok(step)
                 else Rejected(ReplayIdentityConflict, StepConflict))
    else if b.effectId.Some? && b.effectId.value in st.effectOwner
            && st.effectOwner[b.effectId.value] != step.id
    then Outcome(s, Rejected(ReplayIdentityConflict, EffectOwnedByOtherStep))
    else
      Outcome(s.(steps := AddStep(st, step)), Ok(step))
  }

  function ReconcileStepEffect(s: Store, p: TaskPacket, l: Lease, r: StepReconciliation):
    (o: Outcome<StepReconciliation>)
  {
    var b := r.body;
    var st := s.steps;
    var valid := ValidateClaim(s, p, l);
    if !valid.Ok? then Outcome(s, Fail(valid))
    else if || b.stepId !in st.steps
            || st.steps[b.stepId].body.packetId != p.id
            || st.steps[b.stepId].body.leaseId != l.leaseId
            || b.packetId != p.id || b.leaseId != l.leaseId
            || st.steps[b.stepId].body.effectState != Unsettled
            || Some(b.effectId) != st.steps[b.stepId].body.effectId
    then Outcome(s, Rejected(StaleIdentity, StepReconciliationNotBound))
    else if !r.Authentic()
    then Outcome(s, Rejected(ReplayIdentityConflict, StepReconciliationTampered))
    else if b.stepId in st.reconciled then
      Outcome(s, if st.reconciled[b.stepId] == r then Ok(r)
                 else Rejected(ReplayIdentityConflict, StepReconciledDifferently))
    else Outcome(s.(steps := st.(reconciled := st.reconciled[b.stepId := r])), Ok(r))
  }

  // ---------------------------------------------------------------- recovery

  function RecordBlocker(s: Store, p: TaskPacket, l: Lease, blocker: BlockerReport):
    (o: Outcome<BlockerReport>)
  {
    var b := blocker.body;
    var st := s.steps;
    var valid := ValidateClaim(s, p, l);
    if !valid.Ok? then Outcome(s, Fail(valid))
    else if || b.missionId != p.body.missionId || b.missionRevision != p.body.missionRevision
            || b.packetId != p.id || b.leaseId != l.leaseId
    then Outcome(s, Rejected(StaleIdentity, BlockerNotBound))
    else if !blocker.Authentic() then Outcome(s, Rejected(ReplayIdentityConflict, BlockerTampered))
    else if b.stepId.None? && b.effectState != NoEffect
    then Outcome(s, Rejected(StaleIdentity, BlockerNeedsStep))
    else if b.stepId.Some? && (|| b.stepId.value !in st.steps
                               || st.steps[b.stepId.value].body.packetId != p.id
                               || b.effectState != EffectiveState(st, b.stepId.value))
    then Outcome(s, Rejected(StaleIdentity, BlockerStepDiffers))
    else if b.stepId.Some? && b.observedEffectIds != (match st.steps[b.stepId.value].body.effectId
                                                      case None => []
                                                      case Some(e) => [e])
    then Outcome(s, Rejected(StaleIdentity, BlockerEffectsDiffer))
    else if blocker.id in s.recovery.blockers then
      Outcome(s, if s.recovery.blockers[blocker.id] == blocker then Ok(blocker)
                 else Rejected(ReplayIdentityConflict, BlockerConflict))
    else
      Outcome(s.(recovery := s.recovery.(blockers := s.recovery.blockers[blocker.id := blocker])),
              Ok(blocker))
  }

  predicate Within(inner: seq<string>, outer: seq<string>) { forall x :: x in inner ==> x in outer }

  function Consumed(r: RecoveryLedger, pid: PacketId): int {
    if pid in r.consumed then r.consumed[pid] else 0
  }

  /** The reasons of the checks that fail, in order. */
  function Failing(checks: seq<(bool, Reason)>): (reasons: seq<Reason>)
    ensures reasons == [] <==> forall i :: 0 <= i < |checks| ==> !checks[i].0
  {
    if |checks| == 0 then []
    else (if checks[0].0 then [checks[0].1] else []) + Failing(checks[1..])
  }

  /** The admission gate's checks: `true` marks an objection to the proposal. */
  function RecoveryChecks(s: Store, p: PacketBody, pid: PacketId, blocker: BlockerBody,
                          q: ProposalBody): seq<(bool, Reason)> {
    [(!Within(q.requiredScope, p.scope)
      || exists a :: a in q.actions && !Within(a.body.scope, p.scope), ScopeExpansion),
     (q.authorityDelta != 0, AuthorityExpansion),
     (blocker.retrySafety != SafeLocal, RetryNotSafeLocal),
     (blocker.blockerClass !in {Diagnostic, PlanGap}, BlockerRequiresParentAuthority),
     (blocker.effectState == Unsettled || HasUnsettledStep(s.steps, pid), StepEffectUnsettled),
     (q.verificationPlan == [], VerificationPlanRequired),
     (q.actions == [], ActionGraphRequired),
     (exists a :: a in q.actions && a.body.effectClass in {IrreversibleLocal, External},
      NewProtectedEffect),
     (q.predicateKey != p.predicateKey, PredicateMismatch),
     (q.expectedDelta != p.expectedDelta, ExpectedDeltaMismatch),
     (q.destination != p.destination, DestinationMismatch),
     (q.budget <= 0 || Consumed(s.recovery, pid) + q.budget > p.recoveryBudget,
      RecoveryBudgetExhausted)]
  }

  function FingerprintOf(blocker: BlockerReport, q: RecoveryProposal): Fingerprint {
    Of(FingerprintKey(blocker.id, blocker.body.stateDigest, q.body.actionFingerprint))
  }

  function AdmissionFor(s: Store, p: TaskPacket, l: Lease, blocker: BlockerReport,
                        q: RecoveryProposal): RecoveryAdmission {
    var fingerprint := FingerprintOf(blocker, q);
    var reasons := Failing(RecoveryChecks(s, p.body, p.id, blocker.body, q.body));
    var duplicate := fingerprint in s.recovery.fingerprints;
    Seal(AdmissionBody(q.id, blocker.id, p.id, l.leaseId,
                       if duplicate then Duplicate else if reasons != [] then Escalated else Admitted,
                       if duplicate then [DuplicateFingerprint] else reasons, fingerprint))
  }

  /** Only an ADMITTED proposal takes its fingerprint and its budget. */
  function AddAdmission(r: RecoveryLedger, q: RecoveryProposal, a: RecoveryAdmission):
    RecoveryLedger
  {
    var pid := a.body.packetId;
    RecoveryLedger(r.blockers, r.proposals[q.id := q], r.admissions[q.id := a],
                   r.admissionById[a.id := a],
                   if a.body.state == Admitted then r.fingerprints + {a.body.fingerprint}
                   else r.fingerprints,
                   if a.body.state == Admitted then r.consumed[pid := Consumed(r, pid) + q.body.budget]
                   else r.consumed)
  }

  function AdmitRecovery(s: Store, p: TaskPacket, l: Lease, blocker: BlockerReport,
                         q: RecoveryProposal): (o: Outcome<RecoveryAdmission>)
  {
    var r := s.recovery;
    var valid := ValidateClaim(s, p, l);
    if !valid.Ok? then Outcome(s, Fail(valid))
    else if blocker.id !in r.blockers || r.blockers[blocker.id] != blocker
    then Outcome(s, Rejected(StaleIdentity, BlockerNotPersisted))
    else if q.body.blockerId != blocker.id || q.body.packetId != p.id || q.body.leaseId != l.leaseId
    then Outcome(s, Rejected(StaleIdentity, ProposalNotBound))
    else if !ProposalAuthentic(q)
    then Outcome(s, Rejected(ReplayIdentityConflict, ProposalTampered))
    else if q.id in r.admissions then Outcome(s, Ok(r.admissions[q.id]))
    else
      var a := AdmissionFor(s, p, l, blocker, q);
      Outcome(s.(recovery := AddAdmission(r, q, a)), Ok(a))
  }

  // ---------------------------------------------------------------- terminal receipts

  function AddReceipt(w: WorkLedger, receipt: TerminalReceipt): WorkLedger {
    w.(receipts := w.receipts[receipt.id := receipt],
       receiptOf := w.receiptOf[receipt.body.packetId := receipt])
  }

  function Release(c: ClaimLedger, id: LeaseId): ClaimLedger { c.(active := c.active - {id}) }

  /** `_persist_terminal`. */
  function PersistTerminal(s: Store, p: TaskPacket, l: Lease, status: TerminalStatus,
                           effectId: Option<string>, effectState: EffectState, output: Evidence,
                           proof: Option<Evidence>, satisfied: bool, code: Option<FailureCode>,
                           origin: Option<FailureOrigin>): (o: Outcome<TerminalReceipt>)
  {
    if p.id in s.work.receiptOf then Outcome(s, Rejected(DuplicateOrReplay, ReceiptExists))
    else if !HoldsLease(s.claims, p, l) then Outcome(s, Rejected(StaleIdentity, NoActiveLease))
    else if HasUnsettledStep(s.steps, p.id)
    then Outcome(s, Rejected(UnsettledEffect, StepsUnresolved))
    else
      var receipt := Seal(ReceiptBody(p.body.missionId, p.body.missionRevision, p.id, l.leaseId,
                                      p.body.executorId, status, effectId, effectState, output,
                                      proof, satisfied, code, origin));
      Outcome(s.(work := AddReceipt(s.work, receipt), claims := Release(s.claims, l.leaseId)),
              Ok(receipt))
  }

  function TerminalizePreExecution(s: Store, p: TaskPacket, l: Lease, code: FailureCode,
                                   detail: Detail): (o: Outcome<TerminalReceipt>)
  {
    if p.id in s.work.started then Outcome(s, Rejected(DuplicateOrReplay, StartedBeforeBlock))
    else if !HoldsLease(s.claims, p, l) then Outcome(s, Rejected(StaleIdentity, NoActiveLease))
    else PersistTerminal(s, p, l, Blocked, None, NoEffect, PreExecutionBlock(code, detail), None,
                         false, Some(code), Some(HarnessOrigin))
  }

  /** The failure, and its observed effect if no packet owns that effect. */
  function AddFailure(w: WorkLedger, failure: ExecutionFailure): WorkLedger {
    var f := failure.body;
    w.(failures := w.failures[f.packetId := failure],
       owner := if f.observedEffectId.Some? && f.observedEffectId.value !in w.owner
                then w.owner[f.observedEffectId.value := f.packetId] else w.owner)
  }

  function RecordExecutionFailure(s: Store, p: TaskPacket, l: Lease, code: FailureCode,
                                  detail: Evidence, observed: Option<string>,
                                  origin: FailureOrigin): (o: Outcome<ExecutionFailure>)
  {
    var w := s.work;
    if !HoldsLease(s.claims, p, l) then Outcome(s, Rejected(StaleIdentity, NoActiveLease))
    else if p.id !in w.started then Outcome(s, Rejected(StaleIdentity, NeverStarted))
    else if p.id in w.failures || p.id in w.receiptOf
    then Outcome(s, Rejected(DuplicateOrReplay, FailureRecorded))
    else if !EvidenceText(detail) then Outcome(s, Raised)
    else if !FailureCodeAllowed(code, origin)
    then Outcome(s, Rejected(InvalidFailureCode, FailureCodeRejected))
    else
      var failure := Seal(FailureBody(p.id, l.leaseId, code, detail, observed, origin));
      Outcome(s.(work := AddFailure(w, failure)), Ok(failure))
  }

  function ReconcileFailure(s: Store, p: TaskPacket, l: Lease, r: FailureReconciliation):
    (o: Outcome<TerminalReceipt>)
  {
    var w := s.work;
    if p.id !in w.failures || p.id in w.receiptOf
    then Outcome(s, Rejected(DuplicateOrReplay, NoUnresolvedFailure))
    else if !HoldsLease(s.claims, p, l) then Outcome(s, Rejected(StaleIdentity, NoActiveLease))
    else if HasUnsettledStep(s.steps, p.id)
    then Outcome(s, Rejected(UnsettledEffect, StepsUnresolved))
    else
      var f := w.failures[p.id].body;
      var effect := if r.effectId.Some? then r.effectId.value else "";
      if r.packetId != p.id || r.leaseId != l.leaseId || r.code != f.code
      then Outcome(s, Rejected(StaleIdentity, FailureReconciliationNotBound))
      else if r.effectState == Settled && f.observedEffectId.Some?
              && r.effectId != f.observedEffectId
      then Outcome(s, Rejected(StaleIdentity, SettledEffectDiffers))
      else if r.effectState == Settled && effect in w.owner && w.owner[effect] != p.id
      then Outcome(s, Rejected(DuplicateOrReplay, EffectOwned))
      else
        var owner :=
          if r.effectState == Settled then w.owner[effect := p.id]
          else if f.observedEffectId.Some? && f.observedEffectId.value in w.owner
                  && w.owner[f.observedEffectId.value] == p.id
          then w.owner - {f.observedEffectId.value}
          else w.owner;
        PersistTerminal(s.(work := w.(owner := owner)), p, l, Failed, r.effectId, r.effectState,
                        r.outputDigest, Some(r.proofDigest), false, Some(f.code), Some(f.origin))
  }

  /** The rejection `record_execution` raises after it has recorded `failure`; an error of the
      inner call takes its place. */
  function AfterFailure<T>(inner: Outcome<ExecutionFailure>, code: FailureCode, detail: Detail):
    Outcome<T>
  {
    Outcome(inner.store, if inner.result.Ok? then Rejected(code, detail) else Fail(inner.result))
  }

  function RecordExecution(s: Store, p: TaskPacket, l: Lease, r: ExecutionResult):
    (o: Outcome<TerminalReceipt>)
  {
    var w := s.work;
    if !HoldsLease(s.claims, p, l) then Outcome(s, Rejected(StaleIdentity, NoActiveLease))
    else if HasUnsettledStep(s.steps, p.id)
    then Outcome(s, Rejected(UnsettledEffect, StepsUnresolved))
    else if p.id !in w.started then Outcome(s, Rejected(StaleIdentity, NeverStarted))
    else if p.id in w.attempts then Outcome(s, Rejected(DuplicateOrReplay, ResultExists))
    else if r.executorId != p.body.executorId || r.packetId != p.id || r.leaseId != l.leaseId then
      AfterFailure(RecordExecutionFailure(s, p, l, StaleIdentity, ResultMismatch(p.id, l.leaseId),
                                          Some(r.effectId), HarnessOrigin),
                   StaleIdentity, ResultIdentityDiffers)
    else if r.effectId in w.owner then
      AfterFailure(RecordExecutionFailure(s, p, l, DuplicateOrReplay,
                                          DuplicateEffect(r.effectId, w.owner[r.effectId]),
                                          Some(r.effectId), HarnessOrigin),
                   DuplicateOrReplay, EffectOwned)
    else
      var recorded := s.(work := w.(attempts := w.attempts[p.id := r],
                                    owner := w.owner[r.effectId := p.id]));
      if r.effectState != Settled then Outcome(recorded, Rejected(UnsettledEffect, EffectHasNoProof))
      else PersistTerminal(recorded, p, l, Succeeded, Some(r.effectId), r.effectState,
                           r.outputDigest, Some(r.outputDigest), r.predicateSatisfied, None, None)
  }

  function ReconcileEffect(s: Store, p: TaskPacket, l: Lease, r: EffectReconciliation):
    (o: Outcome<TerminalReceipt>)
  {
    var w := s.work;
    if p.id !in w.attempts || w.attempts[p.id].effectState != Unsettled
    then Outcome(s, Rejected(DuplicateOrReplay, NothingToReconcile))
    else if !HoldsLease(s.claims, p, l) then Outcome(s, Rejected(StaleIdentity, NoActiveLease))
    else if HasUnsettledStep(s.steps, p.id)
    then Outcome(s, Rejected(UnsettledEffect, StepsUnresolved))
    else if r.packetId != p.id || r.leaseId != l.leaseId || r.effectId != w.attempts[p.id].effectId
    then Outcome(s, Rejected(StaleIdentity, EffectReconciliationNotBound))
    else if r.effectState != Settled
    then Outcome(s, Rejected(UnsettledEffect, EffectRemainsUnsettled))
    else
      var settled := w.attempts[p.id].(effectState := Settled);
      PersistTerminal(s.(work := w.(attempts := w.attempts[p.id := settled])), p, l, Succeeded,
                      Some(settled.effectId), settled.effectState, settled.outputDigest,
                      Some(r.proofDigest), settled.predicateSatisfied, None, None)
  }

  // ---------------------------------------------------------------- continuations

  predicate Authoritative(w: WorkLedger, receipt: TerminalReceipt) {
    receipt.id in w.receipts && w.receipts[receipt.id] == receipt
  }

  function ContinuationFor(receiptId: ReceiptId, destination: Destination): Continuation {
    var cid := Of(ContinuationKey(receiptId, destination));
    Continuation(cid, receiptId, destination, Of(TurnKey(cid, receiptId, destination)), Prepared)
  }

  function PutContinuation(k: CallbackLedger, c: Continuation): CallbackLedger {
    k.(continuations := k.continuations[c.continuationId := c])
  }

  function AddContinuation(k: CallbackLedger, c: Continuation): CallbackLedger {
    PutContinuation(k, c).(byReceipt := k.byReceipt[c.receiptId := c.continuationId])
  }

  function PrepareContinuation(s: Store, receipt: TerminalReceipt): (o: Outcome<Continuation>) {
    var k := s.callbacks;
    if !Authoritative(s.work, receipt)
    then Outcome(s, Rejected(StaleIdentity, ReceiptNotAuthoritative))
    else if receipt.id in k.byReceipt then
      if k.byReceipt[receipt.id] !in k.continuations then Outcome(s, Raised)
      else
        var existing := k.continuations[k.byReceipt[receipt.id]];
        Outcome(s, match existing.state
                   case Prepared => Ok(existing)
                   case DeliveryUnsettled =>
                     Rejected(CallbackDeliveryUnsettled, DeliveryNeedsReconciliation)
                   case _ => Rejected(DuplicateOrReplay, ContinuationStarted))
    else if receipt.body.packetId !in s.claims.packets then Outcome(s, Raised)
    else
      var c := ContinuationFor(receipt.id, s.claims.packets[receipt.body.packetId].body.destination);
      Outcome(s.(callbacks := AddContinuation(k, c)), Ok(c))
  }

  predicate IsCurrent(k: CallbackLedger, c: Continuation) {
    c.continuationId in k.continuations && k.continuations[c.continuationId] == c
  }

  function ValidatePreparedContinuation(s: Store, c: Continuation, receipt: TerminalReceipt):
    (r: Result<()>)
  {
    var k := s.callbacks.continuations;
    if c.continuationId in k && k[c.continuationId].state == DeliveryUnsettled
    then Rejected(CallbackDeliveryUnsettled, DeliveryNeedsReconciliation)
    else if || !IsCurrent(s.callbacks, c) || c.state != Prepared || c.receiptId != receipt.id
            || !Authoritative(s.work, receipt)
    then Rejected(ReplayIdentityConflict, PreparedIdentityChanged)
    else Ok(())
  }

  function ValidateResume(s: Store, c: Continuation, proof: ResumeProof): (r: Result<Continuation>) {
    if !IsCurrent(s.callbacks, c) || c.state != Prepared
    then Rejected(DuplicateOrReplay, NotPrepared)
    else if proof.continuationId != c.continuationId || proof.destination != c.destination
    then Rejected(CallbackTargetMismatch, ResumeTargetDiffers)
    else if !NonBlank(proof.resumeToken) then Raised
    else Ok(c)
  }

  function BeginDelivery(s: Store, c: Continuation, receipt: TerminalReceipt):
    (o: Outcome<Continuation>)
  {
    if || !IsCurrent(s.callbacks, c) || c.state != Prepared || c.receiptId != receipt.id
       || !Authoritative(s.work, receipt)
    then Outcome(s, Rejected(ReplayIdentityConflict, DeliveryIdentityChanged))
    else
      var started := c.(state := DeliveryStarted);
      Outcome(s.(callbacks := PutContinuation(s.callbacks, started)), Ok(started))
  }

  function MarkDeliveryUnsettled(s: Store, c: Continuation, receipt: TerminalReceipt):
    (o: Outcome<Continuation>)
  {
    if !IsCurrent(s.callbacks, c) || c.state != DeliveryStarted || c.receiptId != receipt.id
    then Outcome(s, Rejected(ReplayIdentityConflict, NotStartedDelivery))
    else
      var unsettled := c.(state := DeliveryUnsettled);
      Outcome(s.(callbacks := PutContinuation(s.callbacks, unsettled)), Ok(unsettled))
  }

  function AckFor(c: Continuation, receipt: TerminalReceipt, proof: ConvergenceProof):
    Acknowledgement
  {
    var base := AckBase(receipt.body.packetId, receipt.id, c.continuationId, proof.id);
    Acknowledgement(Of(base), base, Of(base), Of(base), Of(base))
  }

  function AddAck(k: CallbackLedger, c: Continuation, ack: Acknowledgement): CallbackLedger {
    CallbackLedger(k.continuations[c.continuationId := c.(state := Acknowledged)], k.byReceipt,
                   k.acks[ack.acknowledgementId := ack], k.ackOf[ack.base.packetId := ack])
  }

  /** `_acknowledge_delivery`. */
  function AcknowledgeDelivery(s: Store, c: Continuation, receipt: TerminalReceipt,
                               proof: ConvergenceProof, expected: ContinuationState):
    (o: Outcome<(Continuation, Acknowledgement)>)
  {
    var b := proof.body;
    if !IsCurrent(s.callbacks, c) || c.state != expected
    then Outcome(s, Rejected(DuplicateOrReplay, NotExpectedState))
    else if || c.receiptId != receipt.id || b.continuationId != c.continuationId
            || b.receiptId != receipt.id || b.destination != c.destination
            || b.turnRequestId != c.turnRequestId
    then Outcome(s, Rejected(CallbackTargetMismatch, TurnNotBound))
    else if !b.completed || !NonBlank(b.completedTurnId)
    then Outcome(s, Rejected(ConvergenceNotProven, TurnNotCompleted))
    else if !proof.Authentic()
    then Outcome(s, Rejected(ReplayIdentityConflict, ConvergenceTampered))
    else
      var ack := AckFor(c, receipt, proof);
      Outcome(s.(callbacks := AddAck(s.callbacks, c, ack)), Ok((c.(state := Acknowledged), ack)))
  }

  function AcknowledgeAfterConvergence(s: Store, c: Continuation, receipt: TerminalReceipt,
                                       proof: ConvergenceProof):
    (o: Outcome<(Continuation, Acknowledgement)>)
  {
    AcknowledgeDelivery(s, c, receipt, proof, DeliveryStarted)
  }

  predicate AbsenceExact(current: Continuation, receipt: TerminalReceipt,
                         r: ContinuationReconciliation, proof: Option<DeliveryProof>) {
    && proof.Some? && proof.value.Absent? && r.proofDigest == Of(proof.value)
    && proof.value.absence.Authentic()
    && proof.value.absence.body.continuationId == current.continuationId
    && proof.value.absence.body.receiptId == receipt.id
    && proof.value.absence.body.destination == current.destination
    && proof.value.absence.body.turnRequestId == current.turnRequestId
  }

  function ReconcileContinuation(s: Store, receipt: TerminalReceipt, r: ContinuationReconciliation,
                                 proof: Option<DeliveryProof>):
    (o: Outcome<(Continuation, Option<Acknowledgement>)>)
  {
    var k := s.callbacks.continuations;
    if || r.continuationId !in k || k[r.continuationId].state != DeliveryUnsettled
       || !Authoritative(s.work, receipt)
    then Outcome(s, Rejected(DuplicateOrReplay, NotUnsettledDelivery))
    else
      var current := k[r.continuationId];
      if || r.receiptId != receipt.id || current.receiptId != receipt.id
         || r.turnRequestId != current.turnRequestId
      then Outcome(s, Rejected(StaleIdentity, ReconciliationNotBound))
      else if r.state == NotCommitted then
        if !AbsenceExact(current, receipt, r, proof)
        then Outcome(s, Rejected(ConvergenceNotProven, AbsenceNotProven))
        else
          var prepared := current.(state := Prepared);
          Outcome(s.(callbacks := PutContinuation(s.callbacks, prepared)), Ok((prepared, None)))
      else if proof.None? || !proof.value.Converged? || r.proofDigest != Of(proof.value)
      then Outcome(s, Rejected(ConvergenceNotProven, ConvergenceNotExact))
      else
        var acked := AcknowledgeDelivery(s, current, receipt, proof.value.proof, DeliveryUnsettled);
        Outcome(acked.store, if acked.result.Ok?
                             then Ok((acked.result.value.0, Some(acked.result.value.1)))
                             else Fail(acked.result))
  }

  // ---------------------------------------------------------------- verification

  predicate SameKeys(m: Mission, ps: seq<PredicateReadback>) {
    |ps| == |m.predicates| && forall i :: 0 <= i < |ps| ==> ps[i].key == m.predicates[i].key
  }

  /** What a truth vector asks for next, and under which predicate. */
  function NextOf(ps: seq<PredicateReadback>): (r: (NextAction, Option<string>)) {
    var ts := ReadbackTruths(ps);
    var i := FirstIndex(ts, Indeterminate);
    var k := FirstIndex(ts, Unsatisfied);
    if i < |ps| then (ReadbackRecheck, Some(ps[i].key))
    else if k < |ps| then (RouteSelection, Some(ps[k].key))
    else (MissionComplete, None)
  }

  function ReadbackOf(ps: seq<PredicateReadback>, key: string): (r: Option<PredicateReadback>)
    ensures r.Some? ==> r.value in ps && r.value.key == key
    ensures r.None? ==> forall i :: 0 <= i < |ps| ==> ps[i].key != key
  {
    if |ps| == 0 then None
    else if ps[0].key == key then Some(ps[0])
    else ReadbackOf(ps[1..], key)
  }

  function VerificationFor(ack: Acknowledgement, predicateKey: string, truth: Truth,
                           readback: SnapshotReadback): MissionVerification
  {
    var b := readback.body;
    Seal(VerificationBody(b.missionId, b.missionRevision, b.stateRevision, b.sequence, predicateKey,
                          truth, NextOf(b.predicates).1, NextOf(b.predicates).0,
                          ack.acknowledgementId, readback.id, b.evidenceDigest))
  }

  function VerifyMission(s: Store, ack: Acknowledgement, readback: SnapshotReadback):
    (o: Outcome<MissionVerification>)
  {
    var t := s.truth;
    var b := readback.body;
    var pid := ack.base.packetId;
    if ack.acknowledgementId !in s.callbacks.acks || s.callbacks.acks[ack.acknowledgementId] != ack
    then Outcome(s, Rejected(StaleIdentity, AckNotAuthoritative))
    else if !ack.Authentic() || !readback.Authentic()
    then Outcome(s, Rejected(ReplayIdentityConflict, ReadbackTampered))
    else if pid !in s.claims.packets || s.claims.packets[pid].body.missionId !in t.missions
    then Outcome(s, Raised)
    else
      var p := s.claims.packets[pid].body;
      var m := t.missions[p.missionId];
      var key := (m.missionId, m.revision);
      if || m.revision != p.missionRevision || b.missionId != p.missionId
         || b.missionRevision != p.missionRevision
      then Outcome(s, Rejected(StaleIdentity, ReadbackRevisionDiffers))
      else if !SameKeys(m, b.predicates)
      then Outcome(s, Rejected(StaleIdentity, ReadbackKeysDiffer))
      else if key in t.snapshots && b.sequence < t.snapshots[key].body.sequence
      then Outcome(s, Rejected(StaleIdentity, SequenceOlder))
      else if key in t.snapshots && b.sequence == t.snapshots[key].body.sequence
              && t.snapshots[key] != readback
      then Outcome(s, Rejected(ReplayIdentityConflict, SequenceReused))
      else if ReadbackOf(b.predicates, p.predicateKey).None? then Outcome(s, Raised)
      else
        var v := VerificationFor(ack, p.predicateKey,
                                 ReadbackOf(b.predicates, p.predicateKey).value.truth, readback);
        if v.id in t.verifications then Outcome(s, Ok(t.verifications[v.id]))
        else Outcome(s.(truth := t.(snapshots := t.snapshots[key := readback],
                                    verifications := t.verifications[v.id := v])),
                     Ok(v))
  }

  function ReplayAcknowledged(s: Store, c: Continuation): (r: Result<PacketId>) {
    if !IsCurrent(s.callbacks, c) then Rejected(ReplayIdentityConflict, ReplayTargetChanged)
    else if c.state != Acknowledged then Rejected(DuplicateOrReplay, ReplayNotAcknowledged)
    else if c.receiptId !in s.work.receipts then Raised
    else if s.work.receipts[c.receiptId].body.packetId !in s.callbacks.ackOf
    then Rejected(ReplayIdentityConflict, ReplayNotBound)
    else Ok(s.work.receipts[c.receiptId].body.packetId)
  }

  // ---------------------------------------------------------------- runs

  /** One atomic call of a mutating store method. */
  datatype Call =
    | DoRegister(mission: Mission)
    | DoDispose(disposition: RouteDisposition)
    | DoSupersede(supersession: Supersession)
    | DoClaim(packet: TaskPacket)
    | DoBegin(packet: TaskPacket, lease: Lease)
    | DoStep(packet: TaskPacket, lease: Lease, step: StepAttempt)
    | DoReconcileStep(packet: TaskPacket, lease: Lease, stepProof: StepReconciliation)
    | DoBlocker(packet: TaskPacket, lease: Lease, blocker: BlockerReport)
    | DoAdmit(packet: TaskPacket, lease: Lease, blocker: BlockerReport, proposal: RecoveryProposal)
    | DoBlock(packet: TaskPacket, lease: Lease, code: FailureCode, detail: Detail)
    | DoFail(packet: TaskPacket, lease: Lease, code: FailureCode, evidence: Evidence,
             observed: Option<string>, origin: FailureOrigin)
    | DoReconcileFailure(packet: TaskPacket, lease: Lease, failureProof: FailureReconciliation)
    | DoResult(packet: TaskPacket, lease: Lease, outcome: ExecutionResult)
    | DoReconcileEffect(packet: TaskPacket, lease: Lease, effectProof: EffectReconciliation)
    | DoPrepare(receipt: TerminalReceipt)
    | DoDeliver(continuation: Continuation, receipt: TerminalReceipt)
    | DoUnsettle(continuation: Continuation, receipt: TerminalReceipt)
    | DoAcknowledge(continuation: Continuation, receipt: TerminalReceipt, turn: ConvergenceProof)
    | DoReconcileContinuation(receipt: TerminalReceipt, reconciliation: ContinuationReconciliation,
                              proof: Option<DeliveryProof>)
    | DoVerify(ack: Acknowledgement, readback: SnapshotReadback)

  /** The arguments are records their constructors accept. */
  predicate WellFormed(c: Call) {
    match c
    case DoRegister(m) => MissionWellFormed(m)
    case DoDispose(d) => DispositionWellFormed(d.body)
    case DoSupersede(d) => SupersessionWellFormed(d.body)
    case DoStep(_, _, step) => StepWellFormed(step.body)
    case DoReconcileStep(_, _, r) => StepReconciliationWellFormed(r.body)
    case DoBlocker(_, _, b) => BlockerWellFormed(b.body)
    case DoAdmit(_, _, b, q) => BlockerWellFormed(b.body) && ProposalWellFormed(q.body)
    case DoReconcileFailure(_, _, r) => FailureReconciliationWellFormed(r)
    case DoResult(_, _, r) => ResultWellFormed(r)
    case DoReconcileEffect(_, _, r) => EffectReconciliationWellFormed(r)
    case DoAcknowledge(_, _, turn) => ConvergenceWellFormed(turn.body)
    case DoReconcileContinuation(_, r, proof) => ReconciliationWellFormed(r, proof)
    case DoVerify(_, readback) => ReadbackWellFormed(readback.body)
    case _ => true
  }

  function Apply(s: Store, c: Call): Store {
    match c
    case DoRegister(m) => RegisterMission(s, m).store
    case DoDispose(d) => RecordRouteDisposition(s, d).store
    case DoSupersede(d) => RecordMissionSupersession(s, d).store
    case DoClaim(p) => Claim(s, p).store
    case DoBegin(p, l) => BeginExecution(s, p, l).store
    case DoStep(p, l, step) => RecordStepAttempt(s, p, l, step).store
    case DoReconcileStep(p, l, r) => ReconcileStepEffect(s, p, l, r).store
    case DoBlocker(p, l, b) => RecordBlocker(s, p, l, b).store
    case DoAdmit(p, l, b, q) => AdmitRecovery(s, p, l, b, q).store
    case DoBlock(p, l, code, d) => TerminalizePreExecution(s, p, l, code, d).store
    case DoFail(p, l, code, e, seen, origin) =>
      RecordExecutionFailure(s, p, l, code, e, seen, origin).store
    case DoReconcileFailure(p, l, r) => ReconcileFailure(s, p, l, r).store
    case DoResult(p, l, r) => RecordExecution(s, p, l, r).store
    case DoReconcileEffect(p, l, r) => ReconcileEffect(s, p, l, r).store
    case DoPrepare(r) => PrepareContinuation(s, r).store
    case DoDeliver(k, r) => BeginDelivery(s, k, r).store
    case DoUnsettle(k, r) => MarkDeliveryUnsettled(s, k, r).store
    case DoAcknowledge(k, r, proof) => AcknowledgeAfterConvergence(s, k, r, proof).store
    case DoReconcileContinuation(r, c, proof) => ReconcileContinuation(s, r, c, proof).store
    case DoVerify(ack, readback) => VerifyMission(s, ack, readback).store
  }

  /** The state after the calls of a run, one after the other from state `s`. */
  function Run(s: Store, calls: seq<Call>): Store {
    if |calls| == 0 then s else Apply(Run(s, calls[..|calls| - 1]), calls[|calls| - 1])
  }

  predicate AllWellFormed(calls: seq<Call>) {
    forall i :: 0 <= i < |calls| ==> WellFormed(calls[i])
  }
}
