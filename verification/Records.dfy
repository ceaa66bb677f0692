/** The frozen records of `core.py`, the content addresses that bind them, and the
    field constraints their constructors enforce. */
module Records {

  datatype Option<+T> = None | Some(value: T)

  /** A text that is a content address. `Of` is the SHA-256 of a canonical payload, taken to be
      collision-free; `Raw` is any text that is the digest of no payload of this kind. */
  datatype Digest<+T> = Of(payload: T) | Raw(text: string)

  /** A record whose last field is the address of its other fields.  `Authentic` is
      `verify_identity`. */
  datatype Sealed<+T(==)> = Sealed(body: T, id: Digest<T>) {
    predicate Authentic() { id == Of(body) }
  }

  function Seal<T(==)>(body: T): (r: Sealed<T>)
    ensures r.Authentic()
  {
    Sealed(body, Of(body))
  }

  // ---------------------------------------------------------------- enumerations

  datatype EffectState = NoEffect | Settled | Unsettled
  datatype ContinuationState = Prepared | DeliveryStarted | DeliveryUnsettled | Acknowledged
  datatype Disposition = NotCommitted | Committed
  datatype TerminalStatus = Succeeded | Blocked | Failed
  datatype NextAction = RouteSelection | ReadbackRecheck | MissionComplete
  datatype Truth = Satisfied | Unsatisfied | Indeterminate
  datatype RouteDispositionState = RouteAbandoned | RouteBlocked | RouteExhausted
  datatype SupersessionState = Obsolete | Adopted
  datatype BlockerPhase = Planning | PreExecution | Execution | Verification | Callback
  datatype BlockerClass = Diagnostic | PlanGap | CapabilityGap | StateConflict
                        | EffectUncertainty | PolicyAuthority | MissionAmbiguity
  datatype RetrySafety = SafeLocal | ReconciliationOnly | Escalate
  datatype EffectClass = ReadOnly | ReversibleLocal | IrreversibleLocal | External
  datatype AdmissionState = Admitted | Escalated | Duplicate
  datatype FailureOrigin = ExecutorOrigin | HarnessOrigin

  datatype FailureCode =
    | StaleIdentity | DuplicateOrReplay | UnsettledEffect | LeaseConflict | CasMismatch
    | CallbackTargetMismatch | ConvergenceNotProven | ReplayIdentityConflict | ExecutorError
    | CallbackDeliveryUnsettled | MissionReadbackIndeterminate | InvalidFailureCode
    | MissionIsComplete | NoRoute

  predicate ExecutorCode(code: FailureCode) {
    code in {StaleIdentity, UnsettledEffect, CasMismatch, ExecutorError, InvalidFailureCode}
  }

  predicate ReconcilableCode(code: FailureCode) {
    code !in {CallbackDeliveryUnsettled, ConvergenceNotProven, MissionReadbackIndeterminate,
              MissionIsComplete, NoRoute}
  }

  // ---------------------------------------------------------------- text

  /** The characters `str.strip` removes. */
  predicate IsSpace(c: char) {
    || '\t' <= c <= '\r' || '\U{1C}' <= c <= ' ' || c == '\U{85}' || c == '\U{A0}'
    || c == '\U{1680}' || '\U{2000}' <= c <= '\U{200A}' || c == '\U{2028}' || c == '\U{2029}'
    || c == '\U{202F}' || c == '\U{205F}' || c == '\U{3000}'
  }

  /** `_require_text` accepts exactly these. */
  predicate NonBlank(s: string) { exists i :: 0 <= i < |s| && !IsSpace(s[i]) }

  /** Python's `<` on strings: code point by code point, a proper prefix first. */
  predicate TextLess(a: string, b: string) {
    if |b| == 0 then false
    else if |a| == 0 then true
    else if a[0] == b[0] then TextLess(a[1..], b[1..])
    else a[0] < b[0]
  }

  lemma {:induction false} TextLessIsStrictOrder(a: string, b: string, c: string)
    ensures !TextLess(a, a)
    ensures TextLess(a, b) || TextLess(b, a) || a == b
    ensures TextLess(a, b) && TextLess(b, c) ==> TextLess(a, c)
  {
    if |a| > 0 {
      TextLessIsStrictOrder(a[1..], if |b| > 0 then b[1..] else [], if |c| > 0 then c[1..] else []);
      if |b| > 0 && a[0] == b[0] && a[1..] == b[1..] {
        assert a == [a[0]] + a[1..];
        assert b == [b[0]] + b[1..];
      }
    }
  }

  predicate AllText(ts: seq<string>) { forall t :: t in ts ==> NonBlank(t) }

  predicate Unique(ts: seq<string>) { forall i, j :: 0 <= i < j < |ts| ==> ts[i] != ts[j] }

  predicate Ascending(ts: seq<string>) {
    forall i, j :: 0 <= i < j < |ts| ==> TextLess(ts[i], ts[j])
  }

  /** The text of an id is not blank; the id of a payload never is. */
  predicate IdText<T>(id: Digest<T>) { id.Raw? ==> NonBlank(id.text) }

  // ---------------------------------------------------------------- evidence digests

  /** A digest of evidence.  `Given` is a text a caller supplies; every other constructor is the
      digest of the dictionary the harness or the adapter builds under that `kind`. */
  datatype Evidence =
    | Given(text: string)
    | PreExecutionBlock(code: FailureCode, detail: Detail)
    | ResultMismatch(packetId: PacketId, leaseId: LeaseId)
    | DuplicateEffect(effectId: string, owner: PacketId)
    | SignalMismatch(source: Evidence)
    | RejectedExecutorCode(sourceCode: FailureCode, message: string)
    | ExecutorException(errorType: string, message: string)
    | MalformedResult(resultType: string)
    | RequestRejected(reason: RequestFault)
    | ExecutorMismatch(requestExecutor: string, adapterExecutor: string)
    | TransportException(errorType: string, message: string)
    | InvalidWire(fault: WireFault)
    | InvalidEnvelopeCode
    | TransportInvalidCode(message: string)
    | InvalidEnvelopeType(typeName: string)
    | TerminalMismatch(fields: seq<IdentityField>)

  predicate EvidenceText(e: Evidence) { e.Given? ==> NonBlank(e.text) }

  datatype RequestFault = ContextBound | LeaseNotBound | VersionsNotFollowing | BudgetNegative
  datatype IdentityField = RequestIdField | PacketIdField | LeaseIdField | ExecutorIdField
  datatype WireFault = FieldsDiffer | FieldRejected(index: nat) | EnvelopeRejected(rule: nat)

  /** One constructor for each message a `HarnessViolation` carries. */
  datatype Detail =
    | PacketTampered | MissionRevisionDiffers | NotFirstFalse | RouteDisposed | PacketFieldsDiffer
    | PredicateIndeterminate(key: string)
    | NoActiveLease | AlreadyClaimed | ScopeLeased | VersionChanged
    | AlreadyStarted | NeverStarted | StepNotBound | StepTampered | ParentNotBound
    | ActionNotAdmitted | StepConflict | EffectOwnedByOtherStep
    | StepReconciliationNotBound | StepReconciliationTampered | StepReconciledDifferently
    | BlockerNotBound | BlockerTampered | BlockerNeedsStep | BlockerStepDiffers
    | BlockerEffectsDiffer | BlockerConflict
    | BlockerNotPersisted | ProposalNotBound | ProposalTampered
    | StepsUnresolved | ReceiptExists | StartedBeforeBlock
    | FailureRecorded | FailureCodeRejected
    | NoUnresolvedFailure | FailureReconciliationNotBound | SettledEffectDiffers | EffectOwned
    | ResultExists | ResultIdentityDiffers | EffectHasNoProof
    | NothingToReconcile | EffectReconciliationNotBound | EffectRemainsUnsettled
    | ReceiptNotAuthoritative | DeliveryNeedsReconciliation | ContinuationStarted
    | PreparedIdentityChanged | NotPrepared | ResumeTargetDiffers
    | DeliveryIdentityChanged | NotStartedDelivery | NotExpectedState | TurnNotBound
    | TurnNotCompleted | ConvergenceTampered | NotUnsettledDelivery
    | ReconciliationNotBound | AbsenceNotProven | ConvergenceNotExact
    | AckNotAuthoritative | ReadbackTampered | ReadbackRevisionDiffers | ReadbackKeysDiffer
    | SequenceOlder | SequenceReused
    | MissionNotNewer | DispositionNotBound | DispositionTampered | DispositionConflict
    | SupersessionNotBound | SupersessionTampered | SupersessionConflict
    | ReplayTargetChanged | ReplayNotAcknowledged | ReplayNotBound
    | AllSatisfied | NoRouteLeft | SelectedExecutorDiffers
    | ExecutorReportedFailure | ExecutorCodeRejected | ExecutorFailed | ExecutorResultMalformed

  // ---------------------------------------------------------------- missions and packets

  datatype Destination = Destination(coordinatorId: string, threadId: string)
  datatype ExitPredicate = ExitPredicate(key: string, satisfied: bool)
  datatype Route = Route(routeId: string, predicateKey: string, executorId: string,
                         scope: seq<string>, expectedDelta: string, abandonIf: string,
                         rank: int, recoveryBudget: int)
  datatype Mission = Mission(missionId: string, revision: int, mode: string,
                             predicates: seq<ExitPredicate>, routes: seq<Route>,
                             destination: Destination)

  predicate DestinationWellFormed(d: Destination) {
    NonBlank(d.coordinatorId) && NonBlank(d.threadId)
  }

  predicate RouteWellFormed(r: Route) {
    && NonBlank(r.routeId) && NonBlank(r.predicateKey) && NonBlank(r.executorId)
    && NonBlank(r.expectedDelta) && NonBlank(r.abandonIf)
    && |r.scope| > 0 && Ascending(r.scope)
    && r.rank >= 0 && r.recoveryBudget >= 0
  }

  predicate MissionWellFormed(m: Mission) {
    && NonBlank(m.missionId) && NonBlank(m.mode) && m.revision >= 1 && |m.predicates| > 0
    && DestinationWellFormed(m.destination)
    && (forall i :: 0 <= i < |m.predicates| ==> NonBlank(m.predicates[i].key))
    && (forall i, j :: 0 <= i < j < |m.predicates| ==> m.predicates[i].key != m.predicates[j].key)
    && (forall i, j :: 0 <= i < j < |m.routes| ==> m.routes[i].routeId != m.routes[j].routeId)
    && (forall i :: 0 <= i < |m.routes| ==> RouteWellFormed(m.routes[i]))
    && (forall i :: 0 <= i < |m.routes| ==>
          exists k :: 0 <= k < |m.predicates| && m.predicates[k].key == m.routes[i].predicateKey)
  }

  datatype ContextBinding = ContextBinding(taskId: string, artifactRoot: string,
                                           contextPath: string, contextSha256: string,
                                           jspacePath: string, jspaceSha256: string,
                                           generationId: string, inputFingerprint: string)

  datatype PacketBody = PacketBody(missionId: string, missionRevision: int, missionMode: string,
                                   predicateKey: string, routeId: string, executorId: string,
                                   scope: seq<string>, scopeVersions: seq<(string, int)>,
                                   expectedDelta: string, abandonIf: string, recoveryBudget: int,
                                   destination: Destination, context: Option<ContextBinding>)
  type PacketId = Digest<PacketBody>
  type TaskPacket = Sealed<PacketBody>

  datatype LeaseKey = LeaseKey(packetId: PacketId, scopeVersions: seq<(string, int)>)
  type LeaseId = Digest<LeaseKey>
  datatype Lease = Lease(leaseId: LeaseId, packetId: PacketId, scope: seq<string>,
                         scopeVersions: seq<(string, int)>)

  // ---------------------------------------------------------------- steps and recovery

  datatype RecoveryBinding = RecoveryBinding(parent: StepId, admissionId: AdmissionId,
                                             actionId: ActionId)
  datatype StepBody = StepBody(packetId: PacketId, leaseId: LeaseId, operationDigest: string,
                               toolId: string, preconditionDigest: string,
                               effectClass: EffectClass, effectId: Option<string>,
                               effectState: EffectState, resultDigest: string,
                               recovery: Option<RecoveryBinding>)
  type StepId = Digest<StepBody>
  type StepAttempt = Sealed<StepBody>

  predicate StepWellFormed(b: StepBody) {
    && AllText([b.operationDigest, b.toolId, b.preconditionDigest, b.resultDigest])
    && IdText(b.packetId) && IdText(b.leaseId)
    && (b.recovery.Some? ==> && IdText(b.recovery.value.parent)
                             && IdText(b.recovery.value.admissionId)
                             && IdText(b.recovery.value.actionId))
    && (b.effectClass == ReadOnly ==> b.effectState == NoEffect)
    && (b.effectId.None? <==> b.effectState == NoEffect)
    && (b.effectId.Some? ==> NonBlank(b.effectId.value))
  }

  datatype StepReconciliationBody =
    StepReconciliationBody(packetId: PacketId, leaseId: LeaseId, stepId: StepId, effectId: string,
                           effectState: EffectState, proofDigest: string)
  type StepReconciliation = Sealed<StepReconciliationBody>

  predicate StepReconciliationWellFormed(b: StepReconciliationBody) {
    && IdText(b.packetId) && IdText(b.leaseId) && IdText(b.stepId)
    && NonBlank(b.effectId) && NonBlank(b.proofDigest) && b.effectState != Unsettled
  }

  datatype BlockerBody =
    BlockerBody(missionId: string, missionRevision: int, packetId: PacketId, leaseId: LeaseId,
                stepId: Option<StepId>, phase: BlockerPhase, blockerClass: BlockerClass,
                stateDigest: string, evidenceRefs: seq<string>, effectState: EffectState,
                observedEffectIds: seq<string>, missingCapabilities: seq<string>,
                violatedPreconditions: seq<string>, retrySafety: RetrySafety)
  type BlockerId = Digest<BlockerBody>
  type BlockerReport = Sealed<BlockerBody>

  predicate TextTuple(ts: seq<string>) { AllText(ts) && Unique(ts) }

  predicate BlockerWellFormed(b: BlockerBody) {
    && NonBlank(b.missionId) && NonBlank(b.stateDigest) && IdText(b.packetId) && IdText(b.leaseId)
    && (b.stepId.Some? ==> IdText(b.stepId.value))
    && TextTuple(b.evidenceRefs) && TextTuple(b.observedEffectIds)
    && TextTuple(b.missingCapabilities) && TextTuple(b.violatedPreconditions)
    && (b.effectState != NoEffect ==> b.observedEffectIds != [])
  }

  datatype ActionBody = ActionBody(actionKind: string, scope: seq<string>,
                                   effectClass: EffectClass, operationDigest: string)
  type ActionId = Digest<ActionBody>
  type RecoveryAction = Sealed<ActionBody>

  datatype ProposalBody =
    ProposalBody(blockerId: BlockerId, packetId: PacketId, leaseId: LeaseId, predicateKey: string,
                 expectedDelta: string, destination: Destination, actions: seq<RecoveryAction>,
                 requiredScope: seq<string>, authorityDelta: int, verificationPlan: seq<string>,
                 budget: int, confidence: real, actionFingerprint: Digest<seq<RecoveryAction>>)
  type ProposalId = Digest<ProposalBody>
  type RecoveryProposal = Sealed<ProposalBody>

  predicate ActionWellFormed(a: ActionBody) {
    && NonBlank(a.actionKind) && NonBlank(a.operationDigest)
    && a.scope != [] && AllText(a.scope) && Ascending(a.scope)
  }

  predicate ProposalWellFormed(b: ProposalBody) {
    && IdText(b.blockerId) && IdText(b.packetId) && IdText(b.leaseId)
    && NonBlank(b.predicateKey) && NonBlank(b.expectedDelta) && DestinationWellFormed(b.destination)
    && (forall i :: 0 <= i < |b.actions| ==> ActionWellFormed(b.actions[i].body))
    && AllText(b.requiredScope) && Ascending(b.requiredScope) && TextTuple(b.verificationPlan)
    && 0.0 <= b.confidence <= 1.0
  }

  predicate ProposalAuthentic(p: RecoveryProposal) {
    && p.body.actionFingerprint == Of(p.body.actions)
    && p.Authentic()
    && forall i :: 0 <= i < |p.body.actions| ==> p.body.actions[i].Authentic()
  }

  datatype FingerprintKey = FingerprintKey(blockerId: BlockerId, stateDigest: string,
                                           actionFingerprint: Digest<seq<RecoveryAction>>)
  type Fingerprint = Digest<FingerprintKey>

  datatype Reason =
    | ScopeExpansion | AuthorityExpansion | RetryNotSafeLocal | BlockerRequiresParentAuthority
    | StepEffectUnsettled | VerificationPlanRequired | ActionGraphRequired | NewProtectedEffect
    | PredicateMismatch | ExpectedDeltaMismatch | DestinationMismatch | RecoveryBudgetExhausted
    | DuplicateFingerprint

  datatype AdmissionBody =
    AdmissionBody(proposalId: ProposalId, blockerId: BlockerId, packetId: PacketId,
                  leaseId: LeaseId, state: AdmissionState, reasons: seq<Reason>,
                  fingerprint: Fingerprint)
  type AdmissionId = Digest<AdmissionBody>
  type RecoveryAdmission = Sealed<AdmissionBody>

  // ---------------------------------------------------------------- attempts and receipts

  datatype ExecutionResult =
    ExecutionResult(executorId: string, packetId: PacketId, leaseId: LeaseId, effectId: string,
                    effectState: EffectState, outputDigest: Evidence, predicateSatisfied: bool)

  predicate ResultWellFormed(r: ExecutionResult) {
    && NonBlank(r.executorId) && NonBlank(r.effectId) && EvidenceText(r.outputDigest)
    && r.effectState != NoEffect
  }

  datatype EffectReconciliation =
    EffectReconciliation(packetId: PacketId, leaseId: LeaseId, effectId: string,
                         effectState: EffectState, proofDigest: Evidence)

  predicate EffectReconciliationWellFormed(r: EffectReconciliation) {
    && IdText(r.packetId) && IdText(r.leaseId) && NonBlank(r.effectId)
    && EvidenceText(r.proofDigest)
  }

  datatype FailureBody =
    FailureBody(packetId: PacketId, leaseId: LeaseId, code: FailureCode, detailDigest: Evidence,
                observedEffectId: Option<string>, origin: FailureOrigin)
  type ExecutionFailure = Sealed<FailureBody>

  /** What `ExecutionFailure.__post_init__` accepts. */
  predicate FailureCodeAllowed(code: FailureCode, origin: FailureOrigin) {
    if origin == ExecutorOrigin then ExecutorCode(code) else ReconcilableCode(code)
  }

  datatype FailureReconciliation =
    FailureReconciliation(packetId: PacketId, leaseId: LeaseId, code: FailureCode,
                          effectState: EffectState, effectId: Option<string>,
                          proofDigest: Evidence, outputDigest: Evidence)

  predicate FailureReconciliationWellFormed(r: FailureReconciliation) {
    && IdText(r.packetId) && IdText(r.leaseId)
    && EvidenceText(r.proofDigest) && EvidenceText(r.outputDigest)
    && ReconcilableCode(r.code) && r.effectState != Unsettled
    && (r.effectState == Settled ==> r.effectId.Some? && |r.effectId.value| > 0)
    && (r.effectState == NoEffect ==> r.effectId.None?)
  }

  datatype ReceiptBody =
    ReceiptBody(missionId: string, missionRevision: int, packetId: PacketId, leaseId: LeaseId,
                executorId: string, status: TerminalStatus, effectId: Option<string>,
                effectState: EffectState, outputDigest: Evidence, proofDigest: Option<Evidence>,
                predicateSatisfied: bool, failureCode: Option<FailureCode>,
                failureOrigin: Option<FailureOrigin>)
  type ReceiptId = Digest<ReceiptBody>
  type TerminalReceipt = Sealed<ReceiptBody>

  // ---------------------------------------------------------------- continuations

  datatype ContinuationKey = ContinuationKey(receiptId: ReceiptId, destination: Destination)
  type ContinuationId = Digest<ContinuationKey>
  datatype TurnKey = TurnKey(continuationId: ContinuationId, receiptId: ReceiptId,
                             destination: Destination)
  type TurnId = Digest<TurnKey>
  datatype Continuation =
    Continuation(continuationId: ContinuationId, receiptId: ReceiptId, destination: Destination,
                 turnRequestId: TurnId, state: ContinuationState)

  datatype ResumeProof = ResumeProof(continuationId: ContinuationId, destination: Destination,
                                     resumeToken: string)

  datatype ConvergenceBody =
    ConvergenceBody(continuationId: ContinuationId, receiptId: ReceiptId, destination: Destination,
                    turnRequestId: TurnId, completedTurnId: string, completed: bool)
  type ConvergenceProof = Sealed<ConvergenceBody>

  /** `delivery_absent` is not a field: the constructor accepts only `True`. */
  datatype AbsenceBody =
    AbsenceBody(continuationId: ContinuationId, receiptId: ReceiptId, destination: Destination,
                turnRequestId: TurnId, authoritySource: string, evidenceDigest: string)
  type AbsenceProof = Sealed<AbsenceBody>

  predicate ConvergenceWellFormed(b: ConvergenceBody) { IdText(b.turnRequestId) }

  predicate AbsenceWellFormed(b: AbsenceBody) {
    && IdText(b.continuationId) && IdText(b.receiptId) && IdText(b.turnRequestId)
    && NonBlank(b.authoritySource) && NonBlank(b.evidenceDigest)
  }

  datatype DeliveryProof = Converged(proof: ConvergenceProof) | Absent(absence: AbsenceProof)

  datatype ContinuationReconciliation =
    ContinuationReconciliation(continuationId: ContinuationId, receiptId: ReceiptId,
                               turnRequestId: TurnId, state: Disposition,
                               proofDigest: Digest<DeliveryProof>)

  predicate ReconciliationWellFormed(r: ContinuationReconciliation, proof: Option<DeliveryProof>) {
    && IdText(r.continuationId) && IdText(r.receiptId) && IdText(r.turnRequestId)
    && IdText(r.proofDigest)
    && (proof.Some? ==>
          match proof.value
          case Converged(p) => ConvergenceWellFormed(p.body)
          case Absent(a) => AbsenceWellFormed(a.body))
  }

  datatype AckBase = AckBase(packetId: PacketId, receiptId: ReceiptId,
                             continuationId: ContinuationId, proofId: Digest<ConvergenceBody>)
  type AckId = Digest<AckBase>
  datatype Acknowledgement =
    Acknowledgement(acknowledgementId: AckId, base: AckBase, callbackAckId: AckId,
                    receiptAckId: AckId, continuationAckId: AckId)
  {
    predicate Authentic() {
      acknowledgementId == callbackAckId == receiptAckId == continuationAckId == Of(base)
    }
  }

  // ---------------------------------------------------------------- mission truth

  datatype PredicateReadback = PredicateReadback(key: string, truth: Truth, evidence: string)
  datatype ReadbackBody =
    ReadbackBody(missionId: string, missionRevision: int, stateRevision: string,
                 sequence: int, predicates: seq<PredicateReadback>, evidenceDigest: string)
  type SnapshotReadback = Sealed<ReadbackBody>

  predicate ReadbackWellFormed(b: ReadbackBody) {
    && NonBlank(b.missionId) && NonBlank(b.stateRevision) && NonBlank(b.evidenceDigest)
    && b.missionRevision >= 1 && b.sequence >= 0 && |b.predicates| > 0
    && (forall i :: 0 <= i < |b.predicates| ==>
          NonBlank(b.predicates[i].key) && NonBlank(b.predicates[i].evidence))
    && (forall i, j :: 0 <= i < j < |b.predicates| ==> b.predicates[i].key != b.predicates[j].key)
  }

  datatype VerificationBody =
    VerificationBody(missionId: string, missionRevision: int, stateRevision: string,
                     sequence: int, predicateKey: string, predicateTruth: Truth,
                     nextKey: Option<string>, nextAction: NextAction, acknowledgementId: AckId,
                     readbackId: Digest<ReadbackBody>, readbackEvidence: string)
  type MissionVerification = Sealed<VerificationBody>

  datatype DispositionBody =
    DispositionBody(missionId: string, missionRevision: int, predicateKey: string,
                    routeId: string, state: RouteDispositionState, evidenceDigest: string)
  type RouteDisposition = Sealed<DispositionBody>

  predicate DispositionWellFormed(b: DispositionBody) {
    AllText([b.missionId, b.predicateKey, b.routeId, b.evidenceDigest])
  }

  datatype SupersessionBody =
    SupersessionBody(missionId: string, supersededRevision: int, supersedingRevision: int,
                     acknowledgementId: AckId, receiptId: ReceiptId, state: SupersessionState,
                     evidenceDigest: string)
  type Supersession = Sealed<SupersessionBody>

  predicate SupersessionWellFormed(b: SupersessionBody) {
    && NonBlank(b.missionId) && NonBlank(b.evidenceDigest)
    && IdText(b.acknowledgementId) && IdText(b.receiptId)
    && b.supersededRevision < b.supersedingRevision
  }
}
