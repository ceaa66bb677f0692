/** Inverting what workers claim is a symmetry of the store.  A worker's `predicate_satisfied` flag
    travels into its receipt, hence into every identity derived from that receipt; nothing the
    parent decides from differs. */
module WorkerSymmetry {
  import opened Records
  import opened StoreSpec
  import opened Frames

  // ---------------------------------------------------------------- inverting claims

  /** The packets whose workers' claims are inverted. */
  type Liars = set<PacketId>

  function FlipResult(f: Liars, r: ExecutionResult): ExecutionResult {
    r.(predicateSatisfied := r.predicateSatisfied != (r.packetId in f))
  }

  function FlipReceiptBody(f: Liars, b: ReceiptBody): ReceiptBody {
    if b.status == Succeeded then b.(predicateSatisfied := b.predicateSatisfied != (b.packetId in f))
    else b
  }

  function FlipReceiptId(f: Liars, id: ReceiptId): ReceiptId {
    match id case Of(b) => Of(FlipReceiptBody(f, b)) case Raw(t) => Raw(t)
  }

  function FlipReceipt(f: Liars, r: TerminalReceipt): TerminalReceipt {
    Sealed(FlipReceiptBody(f, r.body), FlipReceiptId(f, r.id))
  }

  function FlipContinuationId(f: Liars, id: ContinuationId): ContinuationId {
    match id
    case Of(k) => Of(k.(receiptId := FlipReceiptId(f, k.receiptId)))
    case Raw(t) => Raw(t)
  }

  function FlipTurnId(f: Liars, id: TurnId): TurnId {
    match id
    case Of(k) => Of(k.(continuationId := FlipContinuationId(f, k.continuationId),
                        receiptId := FlipReceiptId(f, k.receiptId)))
    case Raw(t) => Raw(t)
  }

  function FlipContinuation(f: Liars, n: Continuation): Continuation {
    n.(continuationId := FlipContinuationId(f, n.continuationId),
       receiptId := FlipReceiptId(f, n.receiptId), turnRequestId := FlipTurnId(f, n.turnRequestId))
  }

  function FlipConvergenceBody(f: Liars, b: ConvergenceBody): ConvergenceBody {
    b.(continuationId := FlipContinuationId(f, b.continuationId),
       receiptId := FlipReceiptId(f, b.receiptId), turnRequestId := FlipTurnId(f, b.turnRequestId))
  }

  function FlipConvergenceId(f: Liars, id: Digest<ConvergenceBody>): Digest<ConvergenceBody> {
    match id case Of(b) => Of(FlipConvergenceBody(f, b)) case Raw(t) => Raw(t)
  }

  function FlipConvergence(f: Liars, p: ConvergenceProof): ConvergenceProof {
    Sealed(FlipConvergenceBody(f, p.body), FlipConvergenceId(f, p.id))
  }

  function FlipAbsenceBody(f: Liars, b: AbsenceBody): AbsenceBody {
    b.(continuationId := FlipContinuationId(f, b.continuationId),
       receiptId := FlipReceiptId(f, b.receiptId), turnRequestId := FlipTurnId(f, b.turnRequestId))
  }

  function FlipAbsenceId(f: Liars, id: Digest<AbsenceBody>): Digest<AbsenceBody> {
    match id case Of(b) => Of(FlipAbsenceBody(f, b)) case Raw(t) => Raw(t)
  }

  function FlipAbsence(f: Liars, p: AbsenceProof): AbsenceProof {
    Sealed(FlipAbsenceBody(f, p.body), FlipAbsenceId(f, p.id))
  }

  function FlipDelivery(f: Liars, p: DeliveryProof): DeliveryProof {
    match p
    case Converged(q) => Converged(FlipConvergence(f, q))
    case Absent(a) => Absent(FlipAbsence(f, a))
  }

  function FlipDeliveryId(f: Liars, id: Digest<DeliveryProof>): Digest<DeliveryProof> {
    match id case Of(p) => Of(FlipDelivery(f, p)) case Raw(t) => Raw(t)
  }

  function FlipReconciliation(f: Liars, r: ContinuationReconciliation): ContinuationReconciliation {
    r.(continuationId := FlipContinuationId(f, r.continuationId),
       receiptId := FlipReceiptId(f, r.receiptId), turnRequestId := FlipTurnId(f, r.turnRequestId),
       proofDigest := FlipDeliveryId(f, r.proofDigest))
  }

  function FlipProof(f: Liars, p: Option<DeliveryProof>): Option<DeliveryProof> {
    match p case Some(q) => Some(FlipDelivery(f, q)) case None => None
  }

  function FlipAckBase(f: Liars, b: AckBase): AckBase {
    b.(receiptId := FlipReceiptId(f, b.receiptId),
       continuationId := FlipContinuationId(f, b.continuationId),
       proofId := FlipConvergenceId(f, b.proofId))
  }

  function FlipAckId(f: Liars, id: AckId): AckId {
    match id case Of(b) => Of(FlipAckBase(f, b)) case Raw(t) => Raw(t)
  }

  function FlipAck(f: Liars, a: Acknowledgement): Acknowledgement {
    Acknowledgement(FlipAckId(f, a.acknowledgementId), FlipAckBase(f, a.base),
                    FlipAckId(f, a.callbackAckId), FlipAckId(f, a.receiptAckId),
                    FlipAckId(f, a.continuationAckId))
  }

  function FlipVerificationBody(f: Liars, b: VerificationBody): VerificationBody {
    b.(acknowledgementId := FlipAckId(f, b.acknowledgementId))
  }

  function FlipVerificationId(f: Liars, id: Digest<VerificationBody>): Digest<VerificationBody> {
    match id case Of(b) => Of(FlipVerificationBody(f, b)) case Raw(t) => Raw(t)
  }

  function FlipVerification(f: Liars, v: MissionVerification): MissionVerification {
    Sealed(FlipVerificationBody(f, v.body), FlipVerificationId(f, v.id))
  }

  function FlipSupersessionBody(f: Liars, b: SupersessionBody): SupersessionBody {
    b.(acknowledgementId := FlipAckId(f, b.acknowledgementId),
       receiptId := FlipReceiptId(f, b.receiptId))
  }

  function FlipSupersession(f: Liars, d: Supersession): Supersession {
    Sealed(FlipSupersessionBody(f, d.body),
           match d.id case Of(b) => Of(FlipSupersessionBody(f, b)) case Raw(t) => Raw(t))
  }

  function FlipSupersessionKey(f: Liars, k: SupersessionKey): SupersessionKey {
    (k.0, k.1, k.2, FlipAckId(f, k.3))
  }

  /** The same call in the world where the workers of `f` claim the opposite. */
  function FlipCall(f: Liars, c: Call): Call {
    match c
    case DoResult(p, l, r) => DoResult(p, l, FlipResult(f, r))
    case DoSupersede(d) => DoSupersede(FlipSupersession(f, d))
    case DoPrepare(r) => DoPrepare(FlipReceipt(f, r))
    case DoDeliver(n, r) => DoDeliver(FlipContinuation(f, n), FlipReceipt(f, r))
    case DoUnsettle(n, r) => DoUnsettle(FlipContinuation(f, n), FlipReceipt(f, r))
    case DoAcknowledge(n, r, p) =>
      DoAcknowledge(FlipContinuation(f, n), FlipReceipt(f, r), FlipConvergence(f, p))
    case DoReconcileContinuation(r, n, p) =>
      DoReconcileContinuation(FlipReceipt(f, r), FlipReconciliation(f, n), FlipProof(f, p))
    case DoVerify(a, b) => DoVerify(FlipAck(f, a), b)
    case _ => c
  }

  // ---------------------------------------------------------------- inverting twice

  lemma FlipReceiptIdTwice(f: Liars, id: ReceiptId)
    ensures FlipReceiptId(f, FlipReceiptId(f, id)) == id
  {
  }

  lemma FlipReceiptTwice(f: Liars, r: TerminalReceipt)
    ensures FlipReceipt(f, FlipReceipt(f, r)) == r
  {
  }

  lemma FlipContinuationIdTwice(f: Liars, id: ContinuationId)
    ensures FlipContinuationId(f, FlipContinuationId(f, id)) == id
  {
  }

  lemma FlipTurnIdTwice(f: Liars, id: TurnId)
    ensures FlipTurnId(f, FlipTurnId(f, id)) == id
  {
  }

  lemma FlipContinuationTwice(f: Liars, n: Continuation)
    ensures FlipContinuation(f, FlipContinuation(f, n)) == n
  {
  }

  lemma FlipConvergenceBodyTwice(f: Liars, b: ConvergenceBody)
    ensures FlipConvergenceBody(f, FlipConvergenceBody(f, b)) == b
  {
    hide FlipReceiptId, FlipContinuationId, FlipTurnId;
    FlipReceiptIdTwice(f, b.receiptId);
    FlipContinuationIdTwice(f, b.continuationId);
    FlipTurnIdTwice(f, b.turnRequestId);
  }

  lemma FlipConvergenceIdTwice(f: Liars, id: Digest<ConvergenceBody>)
    ensures FlipConvergenceId(f, FlipConvergenceId(f, id)) == id
  {
    hide FlipConvergenceBody;
    if id.Of? { FlipConvergenceBodyTwice(f, id.payload); }
  }

  lemma FlipAbsenceTwice(f: Liars, p: AbsenceProof)
    ensures FlipAbsence(f, FlipAbsence(f, p)) == p
  {
    hide FlipAbsenceBody;
    FlipAbsenceBodyTwice(f, p.body);
    if p.id.Of? { FlipAbsenceBodyTwice(f, p.id.payload); }
  }

  lemma FlipAbsenceBodyTwice(f: Liars, b: AbsenceBody)
    ensures FlipAbsenceBody(f, FlipAbsenceBody(f, b)) == b
  {
    hide FlipReceiptId, FlipContinuationId, FlipTurnId;
    FlipReceiptIdTwice(f, b.receiptId);
    FlipContinuationIdTwice(f, b.continuationId);
    FlipTurnIdTwice(f, b.turnRequestId);
  }

  lemma FlipDeliveryTwice(f: Liars, p: DeliveryProof)
    ensures FlipDelivery(f, FlipDelivery(f, p)) == p
  {
    hide FlipConvergenceBody, FlipConvergenceId, FlipAbsence;
    if p.Converged? {
      FlipConvergenceBodyTwice(f, p.proof.body);
      FlipConvergenceIdTwice(f, p.proof.id);
    } else {
      FlipAbsenceTwice(f, p.absence);
    }
  }

  lemma FlipDeliveryIdTwice(f: Liars, id: Digest<DeliveryProof>)
    ensures FlipDeliveryId(f, FlipDeliveryId(f, id)) == id
  {
    hide FlipDelivery;
    if id.Of? { FlipDeliveryTwice(f, id.payload); }
  }

  lemma FlipAckBaseTwice(f: Liars, b: AckBase)
    ensures FlipAckBase(f, FlipAckBase(f, b)) == b
  {
    hide FlipReceiptId, FlipContinuationId, FlipConvergenceId;
    FlipReceiptIdTwice(f, b.receiptId);
    FlipContinuationIdTwice(f, b.continuationId);
    FlipConvergenceIdTwice(f, b.proofId);
  }

  lemma FlipAckIdTwice(f: Liars, id: AckId)
    ensures FlipAckId(f, FlipAckId(f, id)) == id
  {
    hide FlipAckBase;
    if id.Of? { FlipAckBaseTwice(f, id.payload); }
  }

  lemma FlipAckTwice(f: Liars, a: Acknowledgement)
    ensures FlipAck(f, FlipAck(f, a)) == a
  {
    hide FlipAckBase, FlipAckId;
    FlipAckBaseTwice(f, a.base);
    FlipAckIdTwice(f, a.acknowledgementId);
    FlipAckIdTwice(f, a.callbackAckId);
    FlipAckIdTwice(f, a.receiptAckId);
    FlipAckIdTwice(f, a.continuationAckId);
  }

  lemma FlipVerificationIdTwice(f: Liars, id: Digest<VerificationBody>)
    ensures FlipVerificationId(f, FlipVerificationId(f, id)) == id
  {
    hide FlipAckId;
    if id.Of? { FlipAckIdTwice(f, id.payload.acknowledgementId); }
  }

  lemma FlipSupersessionTwice(f: Liars, d: Supersession)
    ensures FlipSupersession(f, FlipSupersession(f, d)) == d
  {
    hide FlipAckId, FlipReceiptId;
    FlipAckIdTwice(f, d.body.acknowledgementId);
    FlipReceiptIdTwice(f, d.body.receiptId);
    if d.id.Of? {
      FlipAckIdTwice(f, d.id.payload.acknowledgementId);
      FlipReceiptIdTwice(f, d.id.payload.receiptId);
    }
  }

  // ---------------------------------------------------------------- mirrored ledgers

  ghost predicate MirrorWork(f: Liars, w: WorkLedger, y: WorkLedger) {
    && y.started == w.started && y.failures == w.failures && y.owner == w.owner
    && y.attempts.Keys == w.attempts.Keys
    && (forall pid :: pid in w.attempts ==>
          w.attempts[pid].packetId == pid && y.attempts[pid] == FlipResult(f, w.attempts[pid]))
    && y.receiptOf.Keys == w.receiptOf.Keys
    && (forall pid :: pid in w.receiptOf ==> y.receiptOf[pid] == FlipReceipt(f, w.receiptOf[pid]))
    && MirrorReceipts(f, w.receipts, y.receipts)
  }

  ghost predicate MirrorReceipts(f: Liars, m: map<ReceiptId, TerminalReceipt>,
                                 n: map<ReceiptId, TerminalReceipt>) {
    forall id :: (id in m <==> FlipReceiptId(f, id) in n)
                 && (id in m ==> n[FlipReceiptId(f, id)] == FlipReceipt(f, m[id]))
  }

  ghost predicate MirrorContinuations(f: Liars, m: map<ContinuationId, Continuation>,
                                      n: map<ContinuationId, Continuation>) {
    forall id :: (id in m <==> FlipContinuationId(f, id) in n)
                 && (id in m ==> n[FlipContinuationId(f, id)] == FlipContinuation(f, m[id]))
  }

  ghost predicate MirrorByReceipt(f: Liars, m: map<ReceiptId, ContinuationId>,
                                  n: map<ReceiptId, ContinuationId>) {
    forall id :: (id in m <==> FlipReceiptId(f, id) in n)
                 && (id in m ==> n[FlipReceiptId(f, id)] == FlipContinuationId(f, m[id]))
  }

  ghost predicate MirrorAcks(f: Liars, m: map<AckId, Acknowledgement>,
                             n: map<AckId, Acknowledgement>) {
    forall id :: (id in m <==> FlipAckId(f, id) in n)
                 && (id in m ==> n[FlipAckId(f, id)] == FlipAck(f, m[id]))
  }

  ghost predicate MirrorCallbacks(f: Liars, k: CallbackLedger, x: CallbackLedger) {
    && MirrorContinuations(f, k.continuations, x.continuations)
    && MirrorByReceipt(f, k.byReceipt, x.byReceipt)
    && MirrorAcks(f, k.acks, x.acks)
    && x.ackOf.Keys == k.ackOf.Keys
    && (forall pid :: pid in k.ackOf ==> x.ackOf[pid] == FlipAck(f, k.ackOf[pid]))
  }

  ghost predicate MirrorVerifications(f: Liars,
                                      m: map<Digest<VerificationBody>, MissionVerification>,
                                      n: map<Digest<VerificationBody>, MissionVerification>) {
    forall id :: (id in m <==> FlipVerificationId(f, id) in n)
                 && (id in m ==> n[FlipVerificationId(f, id)] == FlipVerification(f, m[id]))
  }

  ghost predicate MirrorSupersessions(f: Liars, m: map<SupersessionKey, Supersession>,
                                      n: map<SupersessionKey, Supersession>) {
    forall k :: (k in m <==> FlipSupersessionKey(f, k) in n)
                && (k in m ==> n[FlipSupersessionKey(f, k)] == FlipSupersession(f, m[k]))
  }

  ghost predicate MirrorTruth(f: Liars, t: MissionLedger, u: MissionLedger) {
    && u.missions == t.missions && u.snapshots == t.snapshots && u.dispositions == t.dispositions
    && MirrorVerifications(f, t.verifications, u.verifications)
    && MirrorSupersessions(f, t.supersessions, u.supersessions)
  }

  /** The two stores differ only in what workers claimed and in the names derived from it. */
  ghost predicate Mirror(f: Liars, s: Store, t: Store) {
    && t.claims == s.claims && t.steps == s.steps && t.recovery == s.recovery
    && MirrorTruth(f, s.truth, t.truth) && MirrorWork(f, s.work, t.work)
    && MirrorCallbacks(f, s.callbacks, t.callbacks)
  }

  // ---------------------------------------------------------------- calls without claims

  ghost predicate SameGuards(s: Store, t: Store) {
    && t.claims == s.claims && t.steps == s.steps && t.recovery == s.recovery
    && t.truth.missions == s.truth.missions && t.truth.snapshots == s.truth.snapshots
    && t.truth.dispositions == s.truth.dispositions
    && t.work.started == s.work.started && t.work.receiptOf.Keys == s.work.receiptOf.Keys
  }

  lemma SameValidation(s: Store, t: Store, p: TaskPacket, l: Lease)
    requires SameGuards(s, t)
    ensures ValidatePacket(t.truth, p) == ValidatePacket(s.truth, p)
    ensures ValidateClaim(t, p, l) == ValidateClaim(s, p, l)
  {
    hide FindRoute, RouteMatches, FirstIndex, HoldsLease;
  }

  lemma ClaimMirrors(s: Store, t: Store, p: TaskPacket)
    requires SameGuards(s, t)
    ensures Claim(t, p).store.claims == Claim(s, p).store.claims
  {
    hide ValidatePacket, ValidateClaim, Issue, LeaseFor, ScopeSnapshot;
    SameValidation(s, t, p, LeaseFor(p));
  }

  lemma StepMirrors(s: Store, t: Store, p: TaskPacket, l: Lease, step: StepAttempt)
    requires SameGuards(s, t)
    ensures RecordStepAttempt(t, p, l, step).store.steps == RecordStepAttempt(s, p, l, step).store.steps
  {
    hide ValidatePacket, ValidateClaim, AdmittedAction, AddStep;
    SameValidation(s, t, p, l);
  }

  lemma ReconcileStepMirrors(s: Store, t: Store, p: TaskPacket, l: Lease, r: StepReconciliation)
    requires SameGuards(s, t)
    ensures ReconcileStepEffect(t, p, l, r).store.steps == ReconcileStepEffect(s, p, l, r).store.steps
  {
    hide ValidatePacket, ValidateClaim;
    SameValidation(s, t, p, l);
  }

  lemma BlockerMirrors(s: Store, t: Store, p: TaskPacket, l: Lease, b: BlockerReport)
    requires SameGuards(s, t)
    ensures RecordBlocker(t, p, l, b).store.recovery == RecordBlocker(s, p, l, b).store.recovery
  {
    hide ValidatePacket, ValidateClaim;
    SameValidation(s, t, p, l);
  }

  lemma AdmitMirrors(s: Store, t: Store, p: TaskPacket, l: Lease, b: BlockerReport,
                     q: RecoveryProposal)
    requires SameGuards(s, t)
    ensures AdmitRecovery(t, p, l, b, q).store.recovery == AdmitRecovery(s, p, l, b, q).store.recovery
  {
    hide ValidatePacket, ValidateClaim, ProposalAuthentic;
    SameValidation(s, t, p, l);
    assert RecoveryChecks(t, p.body, p.id, b.body, q.body) == RecoveryChecks(s, p.body, p.id, b.body, q.body);
    hide RecoveryChecks;
  }

  // ---------------------------------------------------------------- calls on work

  lemma BeginMirrors(f: Liars, s: Store, t: Store, p: TaskPacket, l: Lease)
    requires SameGuards(s, t) && MirrorWork(f, s.work, t.work)
    ensures MirrorWork(f, BeginExecution(s, p, l).store.work, BeginExecution(t, p, l).store.work)
  {
    hide ValidateClaim, FlipReceipt, FlipResult, MirrorReceipts;
    SameValidation(s, t, p, l);
  }

  lemma FailMirrors(f: Liars, s: Store, t: Store, p: TaskPacket, l: Lease, code: FailureCode,
                    e: Evidence, seen: Option<string>, origin: FailureOrigin)
    requires t.claims == s.claims && MirrorWork(f, s.work, t.work)
    ensures MirrorWork(f, RecordExecutionFailure(s, p, l, code, e, seen, origin).store.work,
                       RecordExecutionFailure(t, p, l, code, e, seen, origin).store.work)
  {
    hide HoldsLease, FlipReceipt, FlipResult, MirrorReceipts, EvidenceText, FailureCodeAllowed;
  }

  /** A new pair of receipts keeps the pairing. */
  lemma PutReceiptMirrors(f: Liars, m: map<ReceiptId, TerminalReceipt>,
                          n: map<ReceiptId, TerminalReceipt>, r: TerminalReceipt)
    requires MirrorReceipts(f, m, n)
    ensures MirrorReceipts(f, m[r.id := r], n[FlipReceiptId(f, r.id) := FlipReceipt(f, r)])
  {
    hide FlipReceiptId, FlipReceiptBody;
    forall id ensures FlipReceiptId(f, id) == FlipReceiptId(f, r.id) ==> id == r.id {
      SameReceiptIds(f, id, r.id);
    }
  }

  lemma AddReceiptMirrors(f: Liars, w: WorkLedger, y: WorkLedger, r: TerminalReceipt)
    requires MirrorWork(f, w, y)
    ensures MirrorWork(f, AddReceipt(w, r), AddReceipt(y, FlipReceipt(f, r)))
  {
    hide FlipReceiptId, FlipResult, MirrorReceipts;
    PutReceiptMirrors(f, w.receipts, y.receipts, r);
  }

  lemma PersistMirrors(f: Liars, s: Store, t: Store, p: TaskPacket, l: Lease,
                       status: TerminalStatus, effect: Option<string>, state: EffectState,
                       output: Evidence, proof: Option<Evidence>, flag: bool,
                       code: Option<FailureCode>, origin: Option<FailureOrigin>)
    requires t.claims == s.claims && t.steps == s.steps && MirrorWork(f, s.work, t.work)
    ensures var flipped := if status == Succeeded then flag != (p.id in f) else flag;
      var a := PersistTerminal(s, p, l, status, effect, state, output, proof, flag, code, origin);
      var b := PersistTerminal(t, p, l, status, effect, state, output, proof, flipped, code, origin);
      && MirrorWork(f, a.store.work, b.store.work) && b.store.claims == a.store.claims
  {
    hide HoldsLease, HasUnsettledStep, MirrorReceipts, FlipResult, AddReceipt;
    var receipt := Seal(ReceiptBody(p.body.missionId, p.body.missionRevision, p.id, l.leaseId,
                                    p.body.executorId, status, effect, state, output, proof, flag,
                                    code, origin));
    AddReceiptMirrors(f, s.work, t.work, receipt);
  }

  lemma BlockMirrors(f: Liars, s: Store, t: Store, p: TaskPacket, l: Lease, code: FailureCode,
                     d: Detail)
    requires t.claims == s.claims && t.steps == s.steps && MirrorWork(f, s.work, t.work)
    ensures var a, b := TerminalizePreExecution(s, p, l, code, d), TerminalizePreExecution(t, p, l, code, d);
      MirrorWork(f, a.store.work, b.store.work) && b.store.claims == a.store.claims
  {
    hide HoldsLease, PersistTerminal;
    PersistMirrors(f, s, t, p, l, Blocked, None, NoEffect, PreExecutionBlock(code, d), None, false,
                   Some(code), Some(HarnessOrigin));
  }

  lemma SameOwners(f: Liars, w: WorkLedger, y: WorkLedger, owner: map<string, PacketId>)
    requires MirrorWork(f, w, y)
    ensures MirrorWork(f, w.(owner := owner), y.(owner := owner))
  {
  }

  lemma ReconcileFailureMirrors(f: Liars, s: Store, t: Store, p: TaskPacket, l: Lease,
                                r: FailureReconciliation)
    requires t.claims == s.claims && t.steps == s.steps && MirrorWork(f, s.work, t.work)
    ensures var a, b := ReconcileFailure(s, p, l, r), ReconcileFailure(t, p, l, r);
      MirrorWork(f, a.store.work, b.store.work) && b.store.claims == a.store.claims
  {
    hide HoldsLease, HasUnsettledStep, PersistTerminal, MirrorReceipts, FlipReceipt, FlipResult;
    if p.id in s.work.failures {
      var body := s.work.failures[p.id].body;
      forall owner: map<string, PacketId>
        ensures var x, y := s.(work := s.work.(owner := owner)), t.(work := t.work.(owner := owner));
          var a := PersistTerminal(x, p, l, Failed, r.effectId, r.effectState, r.outputDigest,
                                   Some(r.proofDigest), false, Some(body.code), Some(body.origin));
          var b := PersistTerminal(y, p, l, Failed, r.effectId, r.effectState, r.outputDigest,
                                   Some(r.proofDigest), false, Some(body.code), Some(body.origin));
          MirrorWork(f, a.store.work, b.store.work) && b.store.claims == a.store.claims
      {
        SameOwners(f, s.work, t.work, owner);
        PersistMirrors(f, s.(work := s.work.(owner := owner)), t.(work := t.work.(owner := owner)),
                       p, l, Failed, r.effectId, r.effectState, r.outputDigest, Some(r.proofDigest),
                       false, Some(body.code), Some(body.origin));
      }
    }
  }

  lemma PutAttemptMirrors(f: Liars, w: WorkLedger, y: WorkLedger, pid: PacketId, r: ExecutionResult,
                          owner: map<string, PacketId>)
    requires MirrorWork(f, w, y) && r.packetId == pid
    ensures MirrorWork(f, w.(attempts := w.attempts[pid := r], owner := owner),
                       y.(attempts := y.attempts[pid := FlipResult(f, r)], owner := owner))
  {
  }

  ghost predicate SameWork(w: WorkLedger, y: WorkLedger) {
    && y.started == w.started && y.owner == w.owner && y.attempts.Keys == w.attempts.Keys
  }

  ghost predicate MirrorAfter(f: Liars, a: Store, b: Store) {
    MirrorWork(f, a.work, b.work) && b.claims == a.claims
  }

  lemma FailMirrorsAfter(f: Liars, s: Store, t: Store, p: TaskPacket, l: Lease, code: FailureCode,
                         e: Evidence, seen: Option<string>, origin: FailureOrigin)
    requires t.claims == s.claims && MirrorWork(f, s.work, t.work)
    ensures MirrorAfter(f, RecordExecutionFailure(s, p, l, code, e, seen, origin).store,
                        RecordExecutionFailure(t, p, l, code, e, seen, origin).store)
  {
    hide MirrorWork, RecordExecutionFailure;
    FailMirrors(f, s, t, p, l, code, e, seen, origin);
    FailKeepsReceipts(s, p, l, code, e, seen, origin);
    FailKeepsReceipts(t, p, l, code, e, seen, origin);
  }

  lemma OwnResultMirrors(f: Liars, s: Store, t: Store, p: TaskPacket, l: Lease, r: ExecutionResult)
    requires t.claims == s.claims && t.steps == s.steps && MirrorWork(f, s.work, t.work)
    requires r.packetId == p.id
    ensures var owner := s.work.owner[r.effectId := p.id];
      var x := s.(work := s.work.(attempts := s.work.attempts[p.id := r], owner := owner));
      var y := t.(work := t.work.(attempts := t.work.attempts[p.id := FlipResult(f, r)],
                                  owner := owner));
      && MirrorAfter(f, x, y)
      && MirrorAfter(f, PersistTerminal(x, p, l, Succeeded, Some(r.effectId), r.effectState,
                                        r.outputDigest, Some(r.outputDigest), r.predicateSatisfied,
                                        None, None).store,
                     PersistTerminal(y, p, l, Succeeded, Some(r.effectId), r.effectState,
                                     r.outputDigest, Some(r.outputDigest),
                                     FlipResult(f, r).predicateSatisfied, None, None).store)
  {
    hide MirrorWork, PersistTerminal;
    var owner := s.work.owner[r.effectId := p.id];
    PutAttemptMirrors(f, s.work, t.work, p.id, r, owner);
    PersistMirrors(f, s.(work := s.work.(attempts := s.work.attempts[p.id := r], owner := owner)),
                   t.(work := t.work.(attempts := t.work.attempts[p.id := FlipResult(f, r)],
                                      owner := owner)),
                   p, l, Succeeded, Some(r.effectId), r.effectState, r.outputDigest,
                   Some(r.outputDigest), r.predicateSatisfied, None, None);
  }

  lemma ResultMirrors(f: Liars, s: Store, t: Store, p: TaskPacket, l: Lease, r: ExecutionResult)
    requires t.claims == s.claims && t.steps == s.steps && MirrorWork(f, s.work, t.work)
    requires SameWork(s.work, t.work)
    ensures MirrorAfter(f, RecordExecution(s, p, l, r).store,
                        RecordExecution(t, p, l, FlipResult(f, r)).store)
  {
    hide HoldsLease, HasUnsettledStep, PersistTerminal, RecordExecutionFailure, MirrorWork;
    FailMirrorsAfter(f, s, t, p, l, StaleIdentity, ResultMismatch(p.id, l.leaseId), Some(r.effectId),
                     HarnessOrigin);
    if r.effectId in s.work.owner {
      FailMirrorsAfter(f, s, t, p, l, DuplicateOrReplay,
                       DuplicateEffect(r.effectId, s.work.owner[r.effectId]), Some(r.effectId),
                       HarnessOrigin);
    }
    if r.packetId == p.id { OwnResultMirrors(f, s, t, p, l, r); }
  }

  lemma ReconcileEffectMirrors(f: Liars, s: Store, t: Store, p: TaskPacket, l: Lease,
                               r: EffectReconciliation)
    requires t.claims == s.claims && t.steps == s.steps && MirrorWork(f, s.work, t.work)
    ensures var a, b := ReconcileEffect(s, p, l, r), ReconcileEffect(t, p, l, r);
      MirrorWork(f, a.store.work, b.store.work) && b.store.claims == a.store.claims
  {
    hide HoldsLease, HasUnsettledStep, PersistTerminal, MirrorReceipts, FlipReceipt;
    if p.id in s.work.attempts {
      var n := s.work.attempts[p.id].(effectState := Settled);
      assert t.work.attempts[p.id].(effectState := Settled) == FlipResult(f, n);
      PutAttemptMirrors(f, s.work, t.work, p.id, n, s.work.owner);
      PersistMirrors(f, s.(work := s.work.(attempts := s.work.attempts[p.id := n])),
                     t.(work := t.work.(attempts := t.work.attempts[p.id := FlipResult(f, n)])),
                     p, l, Succeeded, Some(n.effectId), n.effectState, n.outputDigest,
                     Some(r.proofDigest), n.predicateSatisfied, None, None);
    }
  }

  // ---------------------------------------------------------------- calls on continuations

  lemma SameAuthority(f: Liars, w: WorkLedger, y: WorkLedger, r: TerminalReceipt)
    requires MirrorReceipts(f, w.receipts, y.receipts)
    ensures Authoritative(y, FlipReceipt(f, r)) <==> Authoritative(w, r)
  {
    FlipReceiptTwice(f, r);
    if r.id in w.receipts { FlipReceiptTwice(f, w.receipts[r.id]); }
    hide FlipReceiptBody, FlipReceiptId;
  }

  lemma SameCurrent(f: Liars, k: CallbackLedger, x: CallbackLedger, n: Continuation)
    requires MirrorContinuations(f, k.continuations, x.continuations)
    ensures IsCurrent(x, FlipContinuation(f, n)) <==> IsCurrent(k, n)
  {
    FlipContinuationTwice(f, n);
    if n.continuationId in k.continuations {
      FlipContinuationTwice(f, k.continuations[n.continuationId]);
    }
    hide FlipContinuationId, FlipReceiptId, FlipTurnId;
  }

  lemma SameReceiptIds(f: Liars, a: ReceiptId, b: ReceiptId)
    ensures FlipReceiptId(f, a) == FlipReceiptId(f, b) <==> a == b
  {
  }

  lemma SameContinuationIds(f: Liars, a: ContinuationId, b: ContinuationId)
    ensures FlipContinuationId(f, a) == FlipContinuationId(f, b) <==> a == b
  {
  }

  lemma SameTurnIds(f: Liars, a: TurnId, b: TurnId)
    ensures FlipTurnId(f, a) == FlipTurnId(f, b) <==> a == b
  {
  }

  lemma PutMirrors(f: Liars, k: CallbackLedger, x: CallbackLedger, n: Continuation)
    requires MirrorCallbacks(f, k, x)
    ensures MirrorCallbacks(f, PutContinuation(k, n), PutContinuation(x, FlipContinuation(f, n)))
  {
    hide FlipContinuationId, FlipReceiptId, FlipTurnId, MirrorByReceipt, MirrorAcks, FlipAck;
    forall id
      ensures FlipContinuationId(f, id) == FlipContinuationId(f, n.continuationId)
         <==> id == n.continuationId
    {
      SameContinuationIds(f, id, n.continuationId);
    }
  }

  lemma AddMirrors(f: Liars, k: CallbackLedger, x: CallbackLedger, n: Continuation)
    requires MirrorCallbacks(f, k, x)
    ensures MirrorCallbacks(f, AddContinuation(k, n), AddContinuation(x, FlipContinuation(f, n)))
  {
    hide FlipContinuationId, FlipReceiptId, FlipTurnId, MirrorContinuations, MirrorAcks, FlipAck;
    PutMirrors(f, k, x, n);
    forall id ensures FlipReceiptId(f, id) == FlipReceiptId(f, n.receiptId) <==> id == n.receiptId {
      SameReceiptIds(f, id, n.receiptId);
    }
  }

  lemma PrepareMirrors(f: Liars, s: Store, t: Store, r: TerminalReceipt)
    requires Mirror(f, s, t)
    ensures MirrorCallbacks(f, PrepareContinuation(s, r).store.callbacks,
                            PrepareContinuation(t, FlipReceipt(f, r)).store.callbacks)
  {
    SameAuthority(f, s.work, t.work, r);
    assert FlipReceiptBody(f, r.body).packetId == r.body.packetId;
    if r.body.packetId in s.claims.packets {
      var d := s.claims.packets[r.body.packetId].body.destination;
      assert FlipContinuation(f, ContinuationFor(r.id, d)) == ContinuationFor(FlipReceiptId(f, r.id), d);
      AddMirrors(f, s.callbacks, t.callbacks, ContinuationFor(r.id, d));
    }
    hide Authoritative, AddContinuation, ContinuationFor, MirrorTruth, MirrorWork, FlipReceiptBody,
         FlipReceiptId;
  }

  lemma MoveMirrors(f: Liars, s: Store, t: Store, n: Continuation, r: TerminalReceipt)
    requires Mirror(f, s, t)
    ensures MirrorCallbacks(f, BeginDelivery(s, n, r).store.callbacks,
                            BeginDelivery(t, FlipContinuation(f, n), FlipReceipt(f, r)).store.callbacks)
    ensures MirrorCallbacks(f, MarkDeliveryUnsettled(s, n, r).store.callbacks,
                            MarkDeliveryUnsettled(t, FlipContinuation(f, n),
                                                  FlipReceipt(f, r)).store.callbacks)
  {
    hide Authoritative, IsCurrent, PutContinuation, MirrorTruth, FlipReceiptBody, FlipReceiptId,
         FlipContinuationId, FlipTurnId, MirrorCallbacks;
    MirrorParts(f, s, t);
    SameAuthority(f, s.work, t.work, r);
    SameCurrent(f, s.callbacks, t.callbacks, n);
    SameReceiptIds(f, n.receiptId, r.id);
    PutMirrors(f, s.callbacks, t.callbacks, n.(state := DeliveryStarted));
    PutMirrors(f, s.callbacks, t.callbacks, n.(state := DeliveryUnsettled));
  }

  lemma MirrorParts(f: Liars, s: Store, t: Store)
    requires Mirror(f, s, t)
    ensures MirrorContinuations(f, s.callbacks.continuations, t.callbacks.continuations)
    ensures MirrorReceipts(f, s.work.receipts, t.work.receipts)
    ensures MirrorAcks(f, s.callbacks.acks, t.callbacks.acks)
  {
  }

  lemma AckForMirrors(f: Liars, n: Continuation, r: TerminalReceipt, p: ConvergenceProof)
    ensures AckFor(FlipContinuation(f, n), FlipReceipt(f, r), FlipConvergence(f, p))
            == FlipAck(f, AckFor(n, r, p))
  {
  }

  lemma PutAckMirrors(f: Liars, m: map<AckId, Acknowledgement>, n: map<AckId, Acknowledgement>,
                      a: Acknowledgement)
    requires MirrorAcks(f, m, n)
    ensures MirrorAcks(f, m[a.acknowledgementId := a],
                       n[FlipAckId(f, a.acknowledgementId) := FlipAck(f, a)])
  {
    hide FlipAckId, FlipAck;
    forall id ensures FlipAckId(f, id) == FlipAckId(f, a.acknowledgementId) ==> id == a.acknowledgementId {
      FlipAckIdTwice(f, id);
      FlipAckIdTwice(f, a.acknowledgementId);
    }
  }

  lemma AddAckMirrors(f: Liars, k: CallbackLedger, x: CallbackLedger, n: Continuation,
                      a: Acknowledgement)
    requires MirrorCallbacks(f, k, x)
    ensures MirrorCallbacks(f, AddAck(k, n, a), AddAck(x, FlipContinuation(f, n), FlipAck(f, a)))
  {
    hide FlipAckId, FlipReceiptId, FlipContinuationId, FlipTurnId, FlipConvergenceId,
         MirrorByReceipt, MirrorContinuations, MirrorAcks;
    PutMirrors(f, k, x, n.(state := Acknowledged));
    PutAckMirrors(f, k.acks, x.acks, a);
  }

  lemma SameConvergence(f: Liars, p: ConvergenceProof)
    ensures FlipConvergence(f, p).Authentic() <==> p.Authentic()
  {
    hide FlipConvergenceBody;
    FlipConvergenceBodyTwice(f, p.body);
    if p.id.Of? { FlipConvergenceBodyTwice(f, p.id.payload); }
  }

  /** The turn proof is bound to the delivery in one world exactly when it is in the other. */
  lemma SameTurn(f: Liars, n: Continuation, receiptId: ReceiptId, b: ConvergenceBody)
    ensures var m, c := FlipContinuation(f, n), FlipConvergenceBody(f, b);
      && (m.receiptId == FlipReceiptId(f, receiptId) <==> n.receiptId == receiptId)
      && (c.receiptId == FlipReceiptId(f, receiptId) <==> b.receiptId == receiptId)
      && (c.continuationId == m.continuationId <==> b.continuationId == n.continuationId)
      && (c.turnRequestId == m.turnRequestId <==> b.turnRequestId == n.turnRequestId)
  {
    hide FlipReceiptId, FlipContinuationId, FlipTurnId;
    SameReceiptIds(f, n.receiptId, receiptId);
    SameReceiptIds(f, b.receiptId, receiptId);
    SameContinuationIds(f, b.continuationId, n.continuationId);
    SameTurnIds(f, b.turnRequestId, n.turnRequestId);
  }

  lemma AcknowledgeMirrors(f: Liars, s: Store, t: Store, n: Continuation, r: TerminalReceipt,
                           p: ConvergenceProof, expected: ContinuationState)
    requires MirrorCallbacks(f, s.callbacks, t.callbacks)
    ensures var a := AcknowledgeDelivery(s, n, r, p, expected);
      var b := AcknowledgeDelivery(t, FlipContinuation(f, n), FlipReceipt(f, r),
                                   FlipConvergence(f, p), expected);
      MirrorCallbacks(f, a.store.callbacks, b.store.callbacks) && (a.result.Ok? <==> b.result.Ok?)
  {
    hide IsCurrent, AckFor, AddAck, FlipReceiptBody, FlipReceiptId, FlipContinuationId,
         FlipTurnId, FlipAck, FlipConvergenceId, MirrorCallbacks, NonBlank;
    var k, x := s.callbacks, t.callbacks;
    assert MirrorContinuations(f, k.continuations, x.continuations) by { CallbackParts(f, k, x); }
    SameCurrent(f, k, x, n);
    SameTurn(f, n, r.id, p.body);
    SameConvergence(f, p);
    AckForMirrors(f, n, r, p);
    AddAckMirrors(f, k, x, n, AckFor(n, r, p));
  }

  lemma CallbackParts(f: Liars, k: CallbackLedger, x: CallbackLedger)
    requires MirrorCallbacks(f, k, x)
    ensures MirrorContinuations(f, k.continuations, x.continuations)
    ensures MirrorAcks(f, k.acks, x.acks)
  {
  }

  lemma SameAbsence(f: Liars, n: Continuation, receipt: TerminalReceipt,
                    r: ContinuationReconciliation, proof: Option<DeliveryProof>)
    ensures AbsenceExact(n, receipt, r, proof)
       <==> AbsenceExact(FlipContinuation(f, n), FlipReceipt(f, receipt), FlipReconciliation(f, r),
                         FlipProof(f, proof))
  {
    hide FlipReceiptBody, FlipReceiptId, FlipContinuationId, FlipTurnId, FlipConvergence;
    if proof.Some? && proof.value.Absent? {
      var b := proof.value.absence.body;
      SameReceiptIds(f, b.receiptId, receipt.id);
      SameContinuationIds(f, b.continuationId, n.continuationId);
      SameTurnIds(f, b.turnRequestId, n.turnRequestId);
      SameDeliveryIds(f, r.proofDigest, Of(proof.value));
      FlipAbsenceTwice(f, proof.value.absence);
    }
  }

  lemma SameDeliveryIds(f: Liars, a: Digest<DeliveryProof>, b: Digest<DeliveryProof>)
    ensures FlipDeliveryId(f, a) == FlipDeliveryId(f, b) <==> a == b
  {
    FlipDeliveryIdTwice(f, a);
    FlipDeliveryIdTwice(f, b);
  }

  lemma ReconcileMirrors(f: Liars, s: Store, t: Store, receipt: TerminalReceipt,
                         r: ContinuationReconciliation, proof: Option<DeliveryProof>)
    requires MirrorCallbacks(f, s.callbacks, t.callbacks)
    requires MirrorContinuations(f, s.callbacks.continuations, t.callbacks.continuations)
    requires MirrorReceipts(f, s.work.receipts, t.work.receipts)
    ensures MirrorCallbacks(f, ReconcileContinuation(s, receipt, r, proof).store.callbacks,
                            ReconcileContinuation(t, FlipReceipt(f, receipt), FlipReconciliation(f, r),
                                                  FlipProof(f, proof)).store.callbacks)
  {
    hide Authoritative, AbsenceExact, AcknowledgeDelivery, PutContinuation, FlipReceiptBody,
         FlipReceiptId, FlipContinuationId, FlipTurnId, FlipConvergence, FlipAbsence,
         MirrorCallbacks, MirrorReceipts, FlipDeliveryId;
    SameAuthority(f, s.work, t.work, receipt);
    var k := s.callbacks.continuations;
    if r.continuationId in k {
      var n := k[r.continuationId];
      SameReceiptIds(f, r.receiptId, receipt.id);
      SameReceiptIds(f, n.receiptId, receipt.id);
      SameTurnIds(f, r.turnRequestId, n.turnRequestId);
      SameAbsence(f, n, receipt, r, proof);
      PutMirrors(f, s.callbacks, t.callbacks, n.(state := Prepared));
      if proof.Some? { SameProofId(f, r.proofDigest, proof.value); }
      if proof.Some? && proof.value.Converged? {
        AcknowledgeMirrors(f, s, t, n, receipt, proof.value.proof, DeliveryUnsettled);
      }
    }
  }

  lemma SameProofId(f: Liars, a: Digest<DeliveryProof>, p: DeliveryProof)
    ensures FlipDeliveryId(f, a) == Of(FlipDelivery(f, p)) <==> a == Of(p)
  {
    SameDeliveryIds(f, a, Of(p));
  }
}
