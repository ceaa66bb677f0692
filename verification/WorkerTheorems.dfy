/** Two runs that differ only in what workers claim about their predicates give the parent the same
    truth, the same verifications and the same next actions. */
module WorkerTheorems {
  import opened Records
  import opened StoreSpec
  import opened Frames
  import opened Histories
  import opened Planning
  import opened WorkerSymmetry

  // ---------------------------------------------------------------- verification

  lemma SameAck(f: Liars, k: CallbackLedger, x: CallbackLedger, a: Acknowledgement)
    requires MirrorAcks(f, k.acks, x.acks)
    ensures FlipAck(f, a).acknowledgementId in x.acks
            && x.acks[FlipAck(f, a).acknowledgementId] == FlipAck(f, a)
       <==> a.acknowledgementId in k.acks && k.acks[a.acknowledgementId] == a
    ensures FlipAck(f, a).Authentic() <==> a.Authentic()
  {
    FlipAckTwice(f, a);
    if a.acknowledgementId in k.acks { FlipAckTwice(f, k.acks[a.acknowledgementId]); }
    hide FlipAckBase, FlipAckId;
    SameAckIds(f, a.acknowledgementId, Of(a.base));
    SameAckIds(f, a.callbackAckId, Of(a.base));
    SameAckIds(f, a.receiptAckId, Of(a.base));
    SameAckIds(f, a.continuationAckId, Of(a.base));
    assert FlipAckId(f, Of(a.base)) == Of(FlipAckBase(f, a.base)) by { FlipOf(f, a.base); }
  }

  lemma FlipOf(f: Liars, b: AckBase)
    ensures FlipAckId(f, Of(b)) == Of(FlipAckBase(f, b))
  {
  }

  lemma SameAckIds(f: Liars, a: AckId, b: AckId)
    ensures FlipAckId(f, a) == FlipAckId(f, b) <==> a == b
  {
    FlipAckIdTwice(f, a);
    FlipAckIdTwice(f, b);
  }

  lemma PutVerificationMirrors(f: Liars, m: map<Digest<VerificationBody>, MissionVerification>,
                               n: map<Digest<VerificationBody>, MissionVerification>,
                               v: MissionVerification)
    requires MirrorVerifications(f, m, n)
    ensures MirrorVerifications(f, m[v.id := v],
                                n[FlipVerificationId(f, v.id) := FlipVerification(f, v)])
  {
    hide FlipVerificationId, FlipVerificationBody;
    forall id ensures FlipVerificationId(f, id) == FlipVerificationId(f, v.id) ==> id == v.id {
      FlipVerificationIdTwice(f, id);
      FlipVerificationIdTwice(f, v.id);
    }
  }

  lemma VerificationForMirrors(f: Liars, a: Acknowledgement, key: string, truth: Truth,
                               readback: SnapshotReadback)
    ensures VerificationFor(FlipAck(f, a), key, truth, readback)
            == FlipVerification(f, VerificationFor(a, key, truth, readback))
  {
  }

  /** The verification another world returns: the same but for the acknowledgement's name. */
  ghost predicate SameVerdict(f: Liars, a: Result<MissionVerification>,
                              b: Result<MissionVerification>) {
    match (a, b)
    case (Ok(v), Ok(u)) =>
      u.body == v.body.(acknowledgementId := FlipAckId(f, v.body.acknowledgementId))
    case (Rejected(c, d), Rejected(e, g)) => c == e && d == g
    case (Raised, Raised) => true
    case _ => false
  }

  lemma VerifyMirrors(f: Liars, s: Store, t: Store, a: Acknowledgement, r: SnapshotReadback)
    requires MirrorTruth(f, s.truth, t.truth) && t.claims == s.claims
    requires MirrorAcks(f, s.callbacks.acks, t.callbacks.acks)
    ensures var x, y := VerifyMission(s, a, r), VerifyMission(t, FlipAck(f, a), r);
      MirrorTruth(f, x.store.truth, y.store.truth) && SameVerdict(f, x.result, y.result)
  {
    hide FlipAckId, VerificationFor, ReadbackOf, SameKeys, MirrorVerifications, FlipVerificationId,
         MirrorSupersessions, MirrorAcks;
    SameAck(f, s.callbacks, t.callbacks, a);
    if a.base.packetId in s.claims.packets {
      var key := s.claims.packets[a.base.packetId].body.predicateKey;
      if ReadbackOf(r.body.predicates, key).Some? {
        var v := VerificationFor(a, key, ReadbackOf(r.body.predicates, key).value.truth, r);
        VerificationForMirrors(f, a, key, ReadbackOf(r.body.predicates, key).value.truth, r);
        PutVerificationMirrors(f, s.truth.verifications, t.truth.verifications, v);
        Found(f, s.truth.verifications, t.truth.verifications, v);
      }
    }
  }

  lemma Found(f: Liars, m: map<Digest<VerificationBody>, MissionVerification>,
              n: map<Digest<VerificationBody>, MissionVerification>, v: MissionVerification)
    requires MirrorVerifications(f, m, n)
    ensures v.id in m <==> FlipVerification(f, v).id in n
    ensures v.id in m ==> n[FlipVerification(f, v).id] == FlipVerification(f, m[v.id])
  {
  }

  // ---------------------------------------------------------------- supersession

  lemma SameSupersession(f: Liars, d: Supersession)
    ensures FlipSupersession(f, d).Authentic() <==> d.Authentic()
  {
    FlipSupersessionTwice(f, d);
    FlipSupersessionTwice(f, Seal(d.body));
    hide FlipAckId, FlipReceiptId;
  }

  lemma SameReceipt(f: Liars, r: TerminalReceipt)
    ensures FlipReceipt(f, r).Authentic() <==> r.Authentic()
    ensures FlipReceipt(f, r).body.packetId == r.body.packetId
  {
  }

  lemma PutSupersessionMirrors(f: Liars, m: map<SupersessionKey, Supersession>,
                               n: map<SupersessionKey, Supersession>, k: SupersessionKey,
                               d: Supersession)
    requires MirrorSupersessions(f, m, n)
    ensures MirrorSupersessions(f, m[k := d], n[FlipSupersessionKey(f, k) := FlipSupersession(f, d)])
    ensures k in m ==> (m[k] == d <==> n[FlipSupersessionKey(f, k)] == FlipSupersession(f, d))
  {
    FlipSupersessionTwice(f, d);
    if k in m { FlipSupersessionTwice(f, m[k]); }
    hide FlipAckId, FlipReceiptId, FlipSupersession;
    forall other: SupersessionKey
      ensures FlipSupersessionKey(f, other) == FlipSupersessionKey(f, k) ==> other == k
    {
      SameAckIds(f, other.3, k.3);
    }
  }

  /** Everything `record_mission_supersession` compares. */
  ghost predicate SupersessionBound(s: Store, b: SupersessionBody) {
    && b.missionId in s.truth.missions
    && s.truth.missions[b.missionId].revision == b.supersedingRevision
    && b.acknowledgementId in s.callbacks.acks && b.receiptId in s.work.receipts
    && s.callbacks.acks[b.acknowledgementId].base.packetId in s.claims.packets
    && s.callbacks.acks[b.acknowledgementId].base.receiptId == s.work.receipts[b.receiptId].id
    && s.claims.packets[s.callbacks.acks[b.acknowledgementId].base.packetId].body.missionId
       == b.missionId
    && s.claims.packets[s.callbacks.acks[b.acknowledgementId].base.packetId].body.missionRevision
       == b.supersededRevision
  }

  ghost predicate SupersessionSound(s: Store, d: Supersession)
    requires SupersessionBound(s, d.body)
  {
    && d.Authentic() && s.callbacks.acks[d.body.acknowledgementId].Authentic()
    && s.work.receipts[d.body.receiptId].Authentic()
  }

  lemma SameBound(f: Liars, s: Store, t: Store, d: Supersession)
    requires t.truth.missions == s.truth.missions && t.claims == s.claims
    requires MirrorAcks(f, s.callbacks.acks, t.callbacks.acks)
    requires MirrorReceipts(f, s.work.receipts, t.work.receipts)
    ensures SupersessionBound(t, FlipSupersession(f, d).body) <==> SupersessionBound(s, d.body)
    ensures SupersessionBound(s, d.body) ==>
              (SupersessionSound(t, FlipSupersession(f, d)) <==> SupersessionSound(s, d))
  {
    SameSupersession(f, d);
    hide FlipAckId, FlipReceiptId, FlipReceiptBody;
    var b := d.body;
    if b.acknowledgementId in s.callbacks.acks && b.receiptId in s.work.receipts {
      var a, r := s.callbacks.acks[b.acknowledgementId], s.work.receipts[b.receiptId];
      SameReceiptIds(f, a.base.receiptId, r.id);
      SameAck(f, s.callbacks, t.callbacks, a);
      SameReceipt(f, r);
    }
  }

  lemma SupersessionShape(s: Store, d: Supersession)
    ensures var o := RecordMissionSupersession(s, d);
      var b := d.body;
      var key := (b.missionId, b.supersededRevision, b.supersedingRevision, b.acknowledgementId);
      o.store.truth ==
        if SupersessionBound(s, b) && SupersessionSound(s, d) && key !in s.truth.supersessions
        then s.truth.(supersessions := s.truth.supersessions[key := d]) else s.truth
  {
  }

  lemma SupersedeMirrors(f: Liars, s: Store, t: Store, d: Supersession)
    requires MirrorTruth(f, s.truth, t.truth) && t.claims == s.claims
    requires MirrorAcks(f, s.callbacks.acks, t.callbacks.acks)
    requires MirrorReceipts(f, s.work.receipts, t.work.receipts)
    ensures MirrorTruth(f, RecordMissionSupersession(s, d).store.truth,
                        RecordMissionSupersession(t, FlipSupersession(f, d)).store.truth)
  {
    hide FlipAckId, FlipReceiptId, MirrorVerifications, MirrorAcks, MirrorReceipts,
         RecordMissionSupersession, SupersessionBound, SupersessionSound;
    SupersessionShape(s, d);
    SupersessionShape(t, FlipSupersession(f, d));
    SameBound(f, s, t, d);
    var b := d.body;
    PutSupersessionMirrors(f, s.truth.supersessions, t.truth.supersessions,
                           (b.missionId, b.supersededRevision, b.supersedingRevision,
                            b.acknowledgementId), d);
  }

  // ---------------------------------------------------------------- any call

  lemma MirrorUnfolds(f: Liars, s: Store, t: Store)
    requires Mirror(f, s, t)
    ensures SameGuards(s, t) && SameWork(s.work, t.work)
    ensures MirrorTruth(f, s.truth, t.truth) && MirrorWork(f, s.work, t.work)
    ensures MirrorCallbacks(f, s.callbacks, t.callbacks)
    ensures MirrorContinuations(f, s.callbacks.continuations, t.callbacks.continuations)
    ensures MirrorAcks(f, s.callbacks.acks, t.callbacks.acks)
    ensures MirrorReceipts(f, s.work.receipts, t.work.receipts)
  {
  }

  lemma RegisterMirrors(f: Liars, s: Store, t: Store, m: Mission)
    requires MirrorTruth(f, s.truth, t.truth)
    ensures MirrorTruth(f, RegisterMission(s, m).store.truth, RegisterMission(t, m).store.truth)
  {
  }

  lemma DisposeMirrors(f: Liars, s: Store, t: Store, d: RouteDisposition)
    requires MirrorTruth(f, s.truth, t.truth)
    ensures MirrorTruth(f, RecordRouteDisposition(s, d).store.truth,
                        RecordRouteDisposition(t, d).store.truth)
  {
  }

  lemma TruthCallMirrors(f: Liars, s: Store, t: Store, c: Call)
    requires Mirror(f, s, t) && TouchesTruth(c)
    ensures MirrorTruth(f, Apply(s, c).truth, Apply(t, FlipCall(f, c)).truth)
  {
    hide Mirror, MirrorWork, MirrorCallbacks, MirrorTruth, VerifyMission, SameGuards, MirrorAcks,
         RecordMissionSupersession, RegisterMission, RecordRouteDisposition, MirrorReceipts,
         FlipAck, FlipSupersession, MirrorContinuations, SameWork;
    MirrorUnfolds(f, s, t);
    GuardsSameClaims(s, t);
    match c
    case DoVerify(a, readback) => VerifyMirrors(f, s, t, a, readback);
    case DoSupersede(d) => SupersedeMirrors(f, s, t, d);
    case DoRegister(m) => RegisterMirrors(f, s, t, m);
    case DoDispose(d) => DisposeMirrors(f, s, t, d);
  }

  lemma ReceiptCallMirrors(f: Liars, s: Store, t: Store, c: Call)
    requires t.claims == s.claims && t.steps == s.steps && MirrorWork(f, s.work, t.work)
    requires SameWork(s.work, t.work) && TouchesReceipts(c)
    ensures MirrorAfter(f, Apply(s, c), Apply(t, FlipCall(f, c)))
  {
    hide MirrorWork, SameWork, ReconcileFailure, RecordExecution, ReconcileEffect,
         TerminalizePreExecution, FlipResult;
    match c
    case DoBlock(p, l, code, d) => BlockMirrors(f, s, t, p, l, code, d);
    case DoReconcileFailure(p, l, r) => ReconcileFailureMirrors(f, s, t, p, l, r);
    case DoResult(p, l, r) => ResultMirrors(f, s, t, p, l, r);
    case DoReconcileEffect(p, l, r) => ReconcileEffectMirrors(f, s, t, p, l, r);
  }

  lemma StartOrFailMirrors(f: Liars, s: Store, t: Store, c: Call)
    requires SameGuards(s, t) && MirrorWork(f, s.work, t.work) && (c.DoBegin? || c.DoFail?)
    ensures FlipCall(f, c) == c && MirrorAfter(f, Apply(s, c), Apply(t, c))
  {
    hide MirrorWork, BeginExecution, RecordExecutionFailure;
    if c.DoBegin? {
      BeginMirrors(f, s, t, c.packet, c.lease);
      BeginGrows(s, c.packet, c.lease);
      BeginGrows(t, c.packet, c.lease);
    } else {
      FailMirrorsAfter(f, s, t, c.packet, c.lease, c.code, c.evidence, c.observed, c.origin);
    }
  }

  lemma WorkCallMirrors(f: Liars, s: Store, t: Store, c: Call)
    requires Mirror(f, s, t) && TouchesWork(c)
    ensures MirrorAfter(f, Apply(s, c), Apply(t, FlipCall(f, c)))
  {
    hide Mirror, MirrorWork, MirrorCallbacks, MirrorTruth, SameGuards, SameWork, Apply, FlipCall,
         MirrorAfter;
    MirrorUnfolds(f, s, t);
    GuardsSameClaims(s, t);
    if TouchesReceipts(c) { ReceiptCallMirrors(f, s, t, c); } else { StartOrFailMirrors(f, s, t, c); }
  }

  lemma GuardsSameClaims(s: Store, t: Store)
    requires SameGuards(s, t)
    ensures t.claims == s.claims && t.steps == s.steps && t.recovery == s.recovery
  {
  }

  lemma CallbackCallMirrors(f: Liars, s: Store, t: Store, c: Call)
    requires Mirror(f, s, t) && TouchesCallbacks(c)
    ensures MirrorCallbacks(f, Apply(s, c).callbacks, Apply(t, FlipCall(f, c)).callbacks)
  {
    hide Mirror, MirrorCallbacks, MirrorWork, MirrorTruth, PrepareContinuation, BeginDelivery,
         MarkDeliveryUnsettled, AcknowledgeDelivery, ReconcileContinuation, FlipReceipt,
         FlipContinuation, FlipConvergence, FlipReconciliation, FlipProof, MirrorContinuations,
         MirrorReceipts, MirrorAcks;
    MirrorUnfolds(f, s, t);
    match c
    case DoPrepare(r) => PrepareMirrors(f, s, t, r);
    case DoDeliver(n, r) => MoveMirrors(f, s, t, n, r);
    case DoUnsettle(n, r) => MoveMirrors(f, s, t, n, r);
    case DoAcknowledge(n, r, p) => AcknowledgeMirrors(f, s, t, n, r, p, DeliveryStarted);
    case DoReconcileContinuation(r, n, p) => ReconcileMirrors(f, s, t, r, n, p);
  }

  lemma PlainCallMirrors(f: Liars, s: Store, t: Store, c: Call)
    requires SameGuards(s, t) && !TouchesTruth(c) && !TouchesWork(c) && !TouchesCallbacks(c)
    ensures FlipCall(f, c) == c
    ensures Apply(t, c).claims == Apply(s, c).claims
    ensures Apply(t, c).steps == Apply(s, c).steps
    ensures Apply(t, c).recovery == Apply(s, c).recovery
  {
    ApplyFrame(s, c);
    ApplyFrame(t, c);
    hide Claim, RecordStepAttempt, ReconcileStepEffect, RecordBlocker, AdmitRecovery;
    match c
    case DoClaim(p) => ClaimMirrors(s, t, p);
    case DoStep(p, l, step) => StepMirrors(s, t, p, l, step);
    case DoReconcileStep(p, l, r) => ReconcileStepMirrors(s, t, p, l, r);
    case DoBlocker(p, l, b) => BlockerMirrors(s, t, p, l, b);
    case DoAdmit(p, l, b, q) => AdmitMirrors(s, t, p, l, b, q);
  }

  lemma FlippedCallTouches(f: Liars, c: Call)
    ensures TouchesTruth(FlipCall(f, c)) == TouchesTruth(c)
    ensures TouchesClaims(FlipCall(f, c)) == TouchesClaims(c)
    ensures TouchesWork(FlipCall(f, c)) == TouchesWork(c)
    ensures TouchesSteps(FlipCall(f, c)) == TouchesSteps(c)
    ensures TouchesRecovery(FlipCall(f, c)) == TouchesRecovery(c)
    ensures TouchesCallbacks(FlipCall(f, c)) == TouchesCallbacks(c)
  {
  }

  lemma ApplyMirrors(f: Liars, s: Store, t: Store, c: Call)
    requires Mirror(f, s, t)
    ensures Mirror(f, Apply(s, c), Apply(t, FlipCall(f, c)))
  {
    hide Apply, FlipCall, SameGuards, MirrorTruth, MirrorWork, MirrorCallbacks, SameWork,
         MirrorContinuations, MirrorAcks, MirrorReceipts;
    MirrorUnfolds(f, s, t);
    ApplyFrame(s, c);
    ApplyFrame(t, FlipCall(f, c));
    FlippedCallTouches(f, c);
    if TouchesTruth(c) { TruthCallMirrors(f, s, t, c); }
    else if TouchesWork(c) { WorkCallMirrors(f, s, t, c); }
    else if TouchesCallbacks(c) { CallbackCallMirrors(f, s, t, c); }
    else { PlainCallMirrors(f, s, t, c); }
  }

  lemma EmptyMirrors(f: Liars)
    ensures Mirror(f, EMPTY, EMPTY)
  {
  }

  // ---------------------------------------------------------------- runs with other flags

  /** The call records the packet's result; every later result of it is refused. */
  predicate RecordsAttempt(s: Store, c: Call) {
    && c.DoResult? && c.packet.id !in s.work.attempts
    && c.packet.id in Apply(s, c).work.attempts
  }

  /** The packets whose recorded results carry another flag in the other run. */
  ghost function Contradicted(h: seq<Store>, calls: seq<Call>, flags: seq<bool>): Liars
    requires |h| == |calls| + 1 && |flags| == |calls|
  {
    set i | 0 <= i < |calls| && RecordsAttempt(h[i], calls[i])
            && flags[i] != calls[i].outcome.predicateSatisfied :: calls[i].packet.id
  }

  /** The call where results carry any flag of the workers' choice, and everybody else names what
      those results lead to. */
  function Vary(f: Liars, c: Call, flag: bool): Call {
    match c
    case DoResult(p, l, r) => DoResult(p, l, r.(predicateSatisfied := flag))
    case _ => FlipCall(f, c)
  }

  function VaryCalls(f: Liars, calls: seq<Call>, flags: seq<bool>): (varied: seq<Call>)
    requires |flags| == |calls|
    ensures |varied| == |calls|
    ensures forall i :: 0 <= i < |calls| ==> varied[i] == Vary(f, calls[i], flags[i])
  {
    seq(|calls|, i requires 0 <= i < |calls| => Vary(f, calls[i], flags[i]))
  }

  lemma PersistKeepsResults(s: Store, p: TaskPacket, l: Lease, status: TerminalStatus,
                            effect: Option<string>, state: EffectState, output: Evidence,
                            proof: Option<Evidence>, flag: bool, code: Option<FailureCode>,
                            origin: Option<FailureOrigin>)
    ensures PersistTerminal(s, p, l, status, effect, state, output, proof, flag, code,
                            origin).store.work.attempts == s.work.attempts
  {
    hide HoldsLease, HasUnsettledStep;
  }

  lemma FailKeepsResults(s: Store, p: TaskPacket, l: Lease, code: FailureCode, e: Evidence,
                         seen: Option<string>, origin: FailureOrigin)
    ensures RecordExecutionFailure(s, p, l, code, e, seen, origin).store.work.attempts
            == s.work.attempts
  {
    hide HoldsLease, EvidenceText, FailureCodeAllowed;
  }

  /** Nobody's flag matters where no result is recorded. */
  lemma FlagIsIgnored(s: Store, p: TaskPacket, l: Lease, r: ExecutionResult, flag: bool)
    ensures RecordsAttempt(s, DoResult(p, l, r)) ==> r.packetId == p.id
    ensures !RecordsAttempt(s, DoResult(p, l, r)) ==>
              RecordExecution(s, p, l, r.(predicateSatisfied := flag)).store
              == RecordExecution(s, p, l, r).store
  {
    hide HoldsLease, HasUnsettledStep, PersistTerminal, RecordExecutionFailure;
    var x := s.(work := s.work.(attempts := s.work.attempts[p.id := r],
                                owner := s.work.owner[r.effectId := p.id]));
    PersistKeepsResults(x, p, l, Succeeded, Some(r.effectId), r.effectState, r.outputDigest,
                        Some(r.outputDigest), r.predicateSatisfied, None, None);
    FailKeepsResults(s, p, l, StaleIdentity, ResultMismatch(p.id, l.leaseId), Some(r.effectId),
                     HarnessOrigin);
  }

  lemma ResultAddsResult(s: Store, p: TaskPacket, l: Lease, r: ExecutionResult)
    ensures s.work.attempts.Keys <= RecordExecution(s, p, l, r).store.work.attempts.Keys
  {
    hide HoldsLease, HasUnsettledStep, PersistTerminal, RecordExecutionFailure;
    var x := s.(work := s.work.(attempts := s.work.attempts[p.id := r],
                                owner := s.work.owner[r.effectId := p.id]));
    PersistKeepsResults(x, p, l, Succeeded, Some(r.effectId), r.effectState, r.outputDigest,
                        Some(r.outputDigest), r.predicateSatisfied, None, None);
    FailKeepsResults(s, p, l, StaleIdentity, ResultMismatch(p.id, l.leaseId), Some(r.effectId),
                     HarnessOrigin);
    if r.effectId in s.work.owner {
      FailKeepsResults(s, p, l, DuplicateOrReplay,
                       DuplicateEffect(r.effectId, s.work.owner[r.effectId]), Some(r.effectId),
                       HarnessOrigin);
    }
  }

  lemma SettlingKeepsResults(s: Store, p: TaskPacket, l: Lease, r: EffectReconciliation)
    ensures ReconcileEffect(s, p, l, r).store.work.attempts.Keys == s.work.attempts.Keys
  {
    hide HoldsLease, HasUnsettledStep;
  }

  lemma ReconcilingKeepsResults(s: Store, p: TaskPacket, l: Lease, r: FailureReconciliation)
    ensures ReconcileFailure(s, p, l, r).store.work.attempts == s.work.attempts
  {
    hide HoldsLease, HasUnsettledStep;
  }

  lemma BlockKeepsResults(s: Store, p: TaskPacket, l: Lease, code: FailureCode, d: Detail)
    ensures TerminalizePreExecution(s, p, l, code, d).store.work.attempts == s.work.attempts
  {
    hide HoldsLease, HasUnsettledStep;
  }

  lemma ResultsStay(s: Store, c: Call)
    ensures s.work.attempts.Keys <= Apply(s, c).work.attempts.Keys
  {
    hide RecordExecution, ReconcileEffect, ReconcileFailure, TerminalizePreExecution, ValidateClaim,
         RecordExecutionFailure;
    match c
    case DoResult(p, l, r) => ResultAddsResult(s, p, l, r);
    case DoReconcileEffect(p, l, r) => SettlingKeepsResults(s, p, l, r);
    case DoReconcileFailure(p, l, r) => ReconcilingKeepsResults(s, p, l, r);
    case DoBlock(p, l, code, d) => BlockKeepsResults(s, p, l, code, d);
    case DoFail(p, l, code, e, seen, origin) => FailKeepsResults(s, p, l, code, e, seen, origin);
    case DoBegin(_, _) =>
    case _ => NoResults(s, c);
  }

  lemma NoResults(s: Store, c: Call)
    requires !TouchesWork(c)
    ensures Apply(s, c).work == s.work
  {
    hide Apply;
    ApplyFrame(s, c);
  }

  lemma {:induction false} ResultsPersist(h: seq<Store>, calls: seq<Call>, i: nat, j: nat)
    requires IsHistory(h, calls) && i <= j <= |calls|
    ensures h[i].work.attempts.Keys <= h[j].work.attempts.Keys
    decreases j - i
  {
    hide Apply, WellFormed;
    if i < j {
      ResultsStay(h[i], calls[i]);
      ResultsPersist(h, calls, i + 1, j);
    }
  }

  /** A packet is contradicted exactly when the one result recorded for it carries another flag. */
  lemma ContradictedAtRecord(h: seq<Store>, calls: seq<Call>, flags: seq<bool>, i: nat)
    requires IsHistory(h, calls) && |flags| == |calls|
    requires i < |calls| && RecordsAttempt(h[i], calls[i])
    ensures calls[i].packet.id in Contradicted(h, calls, flags)
       <==> flags[i] != calls[i].outcome.predicateSatisfied
  {
    hide Apply, WellFormed;
    forall j | 0 <= j < |calls| && RecordsAttempt(h[j], calls[j])
      && calls[j].packet.id == calls[i].packet.id
      ensures j == i
    {
      if j < i { ResultsPersist(h, calls, j + 1, i); }
      if i < j { ResultsPersist(h, calls, i + 1, j); }
    }
  }

  lemma StepMirrorsVaried(f: Liars, s: Store, t: Store, c: Call, flag: bool)
    requires Mirror(f, s, t)
    requires RecordsAttempt(s, c) ==>
               (c.packet.id in f <==> flag != c.outcome.predicateSatisfied)
    ensures Mirror(f, Apply(s, c), Apply(t, Vary(f, c, flag)))
  {
    hide Mirror, RecordExecution, FlipReceipt, FlipContinuation, FlipAck, FlipSupersession,
         FlipConvergence, FlipReconciliation, FlipProof;
    ApplyMirrors(f, s, t, c);
    if c.DoResult? {
      FlagIsIgnored(s, c.packet, c.lease, c.outcome, flag);
      if !RecordsAttempt(s, c) {
        SameRecords(f, s, t, c);
        FlagIsIgnored(t, c.packet, c.lease, FlipResult(f, c.outcome), flag);
      }
    }
  }

  lemma SameRecords(f: Liars, s: Store, t: Store, c: Call)
    requires Mirror(f, s, t) && Mirror(f, Apply(s, c), Apply(t, FlipCall(f, c))) && c.DoResult?
    ensures RecordsAttempt(t, FlipCall(f, c)) <==> RecordsAttempt(s, c)
  {
    hide Apply, MirrorTruth, MirrorCallbacks, MirrorReceipts, FlipReceipt;
  }

  /** Two runs that differ in any results' flags stay mirror images call by call. */
  lemma {:induction false} RunMirrors(h: seq<Store>, calls: seq<Call>, flags: seq<bool>,
                                      g: seq<Store>, n: nat)
    requires IsHistory(h, calls) && |flags| == |calls| && n <= |calls|
    requires IsHistory(g, VaryCalls(Contradicted(h, calls, flags), calls, flags))
    ensures Mirror(Contradicted(h, calls, flags), h[n], g[n])
  {
    hide Apply, WellFormed, Vary, Contradicted, Mirror, RecordsAttempt;
    var f := Contradicted(h, calls, flags);
    if n == 0 {
      EmptyMirrors(f);
    } else {
      RunMirrors(h, calls, flags, g, n - 1);
      if RecordsAttempt(h[n - 1], calls[n - 1]) { ContradictedAtRecord(h, calls, flags, n - 1); }
      StepMirrorsVaried(f, h[n - 1], g[n - 1], calls[n - 1], flags[n - 1]);
    }
  }

  lemma VariedIsWellFormed(f: Liars, c: Call, flag: bool)
    requires WellFormed(c)
    ensures WellFormed(Vary(f, c, flag))
  {
    hide MissionWellFormed, StepWellFormed, BlockerWellFormed, ProposalWellFormed,
         FailureReconciliationWellFormed, EvidenceText, ReadbackWellFormed, NonBlank;
  }

  /** Whatever flags the workers choose, there is such a run. */
  lemma OtherRunExists(h: seq<Store>, calls: seq<Call>, flags: seq<bool>) returns (g: seq<Store>)
    requires IsHistory(h, calls) && |flags| == |calls|
    ensures IsHistory(g, VaryCalls(Contradicted(h, calls, flags), calls, flags))
  {
    hide Apply, WellFormed, Vary, Contradicted;
    var f := Contradicted(h, calls, flags);
    forall i | 0 <= i < |calls| ensures WellFormed(Vary(f, calls[i], flags[i])) {
      VariedIsWellFormed(f, calls[i], flags[i]);
    }
    g := RunHasHistory(VaryCalls(f, calls, flags));
  }

  lemma SameRegistration(s: Store, t: Store, m: Mission)
    requires SameGuards(s, t)
    ensures var x, y := RegisterMission(s, m), RegisterMission(t, m);
      y.result == x.result && SameGuards(x.store, y.store)
  {
  }

  lemma SameFirstFalse(t: MissionLedger, u: MissionLedger, m: Mission)
    requires u.missions == t.missions && u.snapshots == t.snapshots
    ensures FirstFalse(u, m) == FirstFalse(t, m)
  {
  }

  lemma SamePlan(s: Store, t: Store, m: Mission, context: Option<ContextBinding>)
    requires SameGuards(s, t)
    ensures Plan(t, m, context).result == Plan(s, m, context).result
  {
    hide FirstFalse, EligibleRoutes, Least, RegisterMission;
    SameRegistration(s, t, m);
    var x, y := RegisterMission(s, m).store, RegisterMission(t, m).store;
    SameFirstFalse(x.truth, y.truth, m);
    if FirstFalse(x.truth, m).Ok? && FirstFalse(x.truth, m).value.Some? {
      SameRoutes(x.truth, y.truth, m, FirstFalse(x.truth, m).value.value.key, m.routes);
    }
  }

  lemma {:induction false} SameRoutes(t: MissionLedger, u: MissionLedger, m: Mission, key: string,
                                      routes: seq<Route>)
    requires u.dispositions == t.dispositions
    ensures EligibleRoutes(u, m, key, routes) == EligibleRoutes(t, m, key, routes)
  {
    if |routes| > 0 { SameRoutes(t, u, m, key, routes[1..]); }
  }

  /** Two runs that differ in the flags of any results, each as its worker likes: at every moment the
      mission's truth, its dispositions and all claims are the same, and so are every `first_false`,
      every packet check, every plan and every verification, but for the acknowledgement's name. */
  lemma WorkersCannotMoveTruth(h: seq<Store>, calls: seq<Call>, flags: seq<bool>, g: seq<Store>,
                               n: nat, m: Mission, context: Option<ContextBinding>, p: TaskPacket,
                               ack: Acknowledgement, readback: SnapshotReadback)
    requires IsHistory(h, calls) && |flags| == |calls| && n <= |calls|
    requires IsHistory(g, VaryCalls(Contradicted(h, calls, flags), calls, flags))
    ensures var s, t, f := h[n], g[n], Contradicted(h, calls, flags);
      && t.truth.missions == s.truth.missions && t.truth.snapshots == s.truth.snapshots
      && t.truth.dispositions == s.truth.dispositions && t.claims == s.claims
      && FirstFalse(t.truth, m) == FirstFalse(s.truth, m)
      && ValidatePacket(t.truth, p) == ValidatePacket(s.truth, p)
      && Plan(t, m, context).result == Plan(s, m, context).result
      && SameVerdict(f, VerifyMission(s, ack, readback).result,
                     VerifyMission(t, FlipAck(f, ack), readback).result)
  {
    hide Apply, WellFormed, Vary, Contradicted, Mirror, MirrorTruth, MirrorWork, MirrorCallbacks,
         MirrorContinuations, MirrorAcks, MirrorReceipts, SameVerdict, VerifyMission, Plan,
         ValidatePacket, FlipAck;
    RunMirrors(h, calls, flags, g, n);
    var s, t, f := h[n], g[n], Contradicted(h, calls, flags);
    MirrorUnfolds(f, s, t);
    SameValidation(s, t, p, LeaseFor(p));
    SamePlan(s, t, m, context);
    VerifyMirrors(f, s, t, ack, readback);
  }

  /** The symmetry is an inversion: every run is the mirror of its own mirror. */
  lemma FlippedTwiceIsTheRun(f: Liars, c: Call)
    ensures FlipCall(f, FlipCall(f, c)) == c
  {
    hide FlipReceipt, FlipContinuation, FlipConvergence, FlipReconciliation, FlipDelivery, FlipAck,
         FlipSupersession;
    match c
    case DoSupersede(d) => FlipSupersessionTwice(f, d);
    case DoPrepare(r) => FlipReceiptTwice(f, r);
    case DoDeliver(n, r) => FlipReceiptTwice(f, r); FlipContinuationTwice(f, n);
    case DoUnsettle(n, r) => FlipReceiptTwice(f, r); FlipContinuationTwice(f, n);
    case DoAcknowledge(n, r, p) =>
      FlipReceiptTwice(f, r);
      FlipContinuationTwice(f, n);
      FlipConvergenceTwice(f, p);
    case DoReconcileContinuation(r, n, p) =>
      FlipReceiptTwice(f, r);
      FlipReconciliationTwice(f, n);
      if p.Some? { FlipDeliveryTwice(f, p.value); }
    case DoVerify(a, b) => FlipAckTwice(f, a);
    case _ =>
  }

  lemma FlipConvergenceTwice(f: Liars, p: ConvergenceProof)
    ensures FlipConvergence(f, FlipConvergence(f, p)) == p
  {
    hide FlipConvergenceBody, FlipConvergenceId;
    FlipConvergenceBodyTwice(f, p.body);
    FlipConvergenceIdTwice(f, p.id);
  }

  lemma FlipReconciliationTwice(f: Liars, r: ContinuationReconciliation)
    ensures FlipReconciliation(f, FlipReconciliation(f, r)) == r
  {
    hide FlipReceiptId, FlipContinuationId, FlipTurnId, FlipDeliveryId;
    FlipReceiptIdTwice(f, r.receiptId);
    FlipContinuationIdTwice(f, r.continuationId);
    FlipTurnIdTwice(f, r.turnRequestId);
    FlipDeliveryIdTwice(f, r.proofDigest);
  }
}
