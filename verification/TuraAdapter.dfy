/** `adapters/tura.py`: the request builder, the terminal wire decoder, and the mapping of whatever a
    client returns onto the executor boundary of the harness. */
module TuraAdapter {
  import opened Records
  import opened StoreSpec
  import opened StoreInvariant
  import opened Frames
  import opened Harness
  import opened HarnessSafety
  import opened HostSafety
  import opened HarnessTheorems
  import opened Histories

  const PROTOCOL_VERSION := "tura-collaboration/v1"

  // ---------------------------------------------------------------- requests

  datatype RequestBody =
    RequestBody(protocolVersion: string, packetId: PacketId, missionId: string,
                missionRevision: int, missionMode: string, predicateKey: string, routeId: string,
                executorId: string, scope: seq<string>, expectedVersions: seq<(string, int)>,
                claimedVersions: seq<(string, int)>, expectedDelta: string, abandonIf: string,
                recoveryBudget: int, destination: Destination, leaseId: LeaseId)
  type RequestId = Digest<RequestBody>
  type Request = Sealed<RequestBody>

  datatype Built = Request(request: Request) | Refused(fault: RequestFault)

  function BuildRequest(p: TaskPacket, l: Lease): (b: Built) {
    if p.body.context.Some? then Refused(ContextBound)
    else if l.packetId != p.id || l.scope != p.body.scope then Refused(LeaseNotBound)
    else if l.scopeVersions != Following(p.body.scopeVersions) then Refused(VersionsNotFollowing)
    else if p.body.recoveryBudget < 0 then Refused(BudgetNegative)
    else
      var b := p.body;
      Request(Seal(RequestBody(PROTOCOL_VERSION, p.id, b.missionId, b.missionRevision,
                               b.missionMode, b.predicateKey, b.routeId, b.executorId, b.scope,
                               b.scopeVersions, l.scopeVersions, b.expectedDelta, b.abandonIf,
                               b.recoveryBudget, b.destination, l.leaseId)))
  }

  /** Every lease ever issued for a packet without a context binding compiles to a request that
      carries the packet's own scope at the versions the lease granted. */
  lemma IssuedLeasesBuild(h: seq<Store>, calls: seq<Call>, n: nat, pid: PacketId)
    requires IsHistory(h, calls) && n <= |calls| && pid in h[n].claims.packets
    ensures var c := h[n].claims;
      && pid in c.leases
      && var b := BuildRequest(c.packets[pid], c.leases[pid]);
      && (b.Request? <==> c.packets[pid].body.context.None?)
      && (b.Request? ==>
            && b.request.Authentic() && b.request.body.packetId == pid
            && b.request.body.leaseId == c.leases[pid].leaseId
            && |b.request.body.expectedVersions| == |b.request.body.scope|
            && forall i :: 0 <= i < |b.request.body.scope| ==>
                 Granted(c, pid, b.request.body.scope[i], b.request.body.expectedVersions[i].1 + 1))
  {
    hide Apply, WellFormed, Inv, TruthInv, WorkInv, StepsInv, RecoveryInv, RecoveryStepsInv,
         CallbacksInv, PacketsHaveMissions, Fenced, ActiveDisjoint, ActiveCurrent, ActiveFit;
    HistoryKeepsInv(h, calls, n);
    InvParts(h[n]);
    var c := h[n].claims;
    assert ClaimedPacket(c, pid);
    var p := c.packets[pid].body;
    forall i | 0 <= i < |p.scope| ensures Granted(c, pid, p.scope[i], p.scopeVersions[i].1 + 1) {
      assert c.leases[pid].scopeVersions[i] == (p.scope[i], p.scopeVersions[i].1 + 1);
    }
  }

  // ---------------------------------------------------------------- terminal envelopes

  datatype TerminalKind = ResultKind | FailureKind

  datatype Envelope =
    Envelope(protocolVersion: string, requestId: string, packetId: string, leaseId: string,
             executorId: string, kind: TerminalKind, effectState: EffectState,
             effectId: Option<string>, outputDigest: string, predicateSatisfied: bool,
             failureCode: Option<FailureCode>, failureDetail: Option<string>)

  /** Python's truth of an optional text. */
  predicate Present(t: Option<string>) { t.Some? && t.value != "" }

  datatype EnvelopeCheck = Sound | Unsound(rule: nat) | CodeRejected

  /** `TuraTerminalEnvelope.__post_init__`: the first rule an envelope breaks. */
  function CheckEnvelope(e: Envelope): EnvelopeCheck {
    if e.protocolVersion != PROTOCOL_VERSION then Unsound(0)
    else if !NonBlank(e.requestId) then Unsound(1)
    else if !NonBlank(e.packetId) then Unsound(2)
    else if !NonBlank(e.leaseId) then Unsound(3)
    else if !NonBlank(e.executorId) then Unsound(4)
    else if !NonBlank(e.outputDigest) then Unsound(5)
    else if e.kind.ResultKind? then
      if e.effectState == NoEffect || !Present(e.effectId) then Unsound(6)
      else if e.failureCode.Some? || e.failureDetail.Some? then Unsound(7)
      else Sound
    else if e.failureCode.None? || !Present(e.failureDetail) then Unsound(8)
    else if !ExecutorCode(e.failureCode.value) then CodeRejected
    else if e.effectState == NoEffect && e.effectId.Some? then Unsound(9)
    else if e.effectState != NoEffect && !Present(e.effectId) then Unsound(10)
    else Sound
  }

  // ---------------------------------------------------------------- the wire

  datatype Json = JNull | JBool(flag: bool) | JNumber(number: int) | JText(text: string)
                | JList(items: seq<Json>) | JObject(members: seq<(string, Json)>)

  datatype WireField =
    | ProtocolVersion | RequestId | PacketId | LeaseId | ExecutorId | Kind | EffectStateField
    | EffectId | OutputDigest | PredicateSatisfied | FailureCodeField | FailureDetailDigest

  /** A JSON object: its members under the known names, and the names it has besides. */
  datatype Payload = Payload(fields: map<WireField, Json>, unknown: set<string>)

  predicate Complete(fields: map<WireField, Json>) { forall f: WireField :: f in fields }

  function KindText(k: TerminalKind): string {
    match k case ResultKind => "result" case FailureKind => "failure"
  }

  function EffectStateText(s: EffectState): string {
    match s
    case NoEffect => "none"
    case Settled => "settled"
    case Unsettled => "unsettled"
  }

  function CodeText(c: FailureCode): string {
    match c
    case StaleIdentity => "STALE_IDENTITY"
    case DuplicateOrReplay => "DUPLICATE_OR_REPLAY"
    case UnsettledEffect => "UNSETTLED_EFFECT"
    case LeaseConflict => "LEASE_CONFLICT"
    case CasMismatch => "CAS_MISMATCH"
    case CallbackTargetMismatch => "CALLBACK_TARGET_MISMATCH"
    case ConvergenceNotProven => "CONVERGENCE_NOT_PROVEN"
    case ReplayIdentityConflict => "REPLAY_IDENTITY_CONFLICT"
    case ExecutorError => "EXECUTOR_ERROR"
    case CallbackDeliveryUnsettled => "CALLBACK_DELIVERY_UNSETTLED"
    case MissionReadbackIndeterminate => "MISSION_READBACK_INDETERMINATE"
    case InvalidFailureCode => "INVALID_FAILURE_CODE"
    case MissionIsComplete => "MISSION_COMPLETE"
    case NoRoute => "NO_ROUTE"
  }

  const CODES: seq<FailureCode> :=
    [StaleIdentity, DuplicateOrReplay, UnsettledEffect, LeaseConflict, CasMismatch,
     CallbackTargetMismatch, ConvergenceNotProven, ReplayIdentityConflict, ExecutorError,
     CallbackDeliveryUnsettled, MissionReadbackIndeterminate, InvalidFailureCode,
     MissionIsComplete, NoRoute]

  /** The member of a string enumeration with a given value. */
  function ParseCode(codes: seq<FailureCode>, text: string): (c: Option<FailureCode>)
    ensures c.Some? ==> c.value in codes && CodeText(c.value) == text
    ensures c.None? ==> forall x :: x in codes ==> CodeText(x) != text
  {
    if |codes| == 0 then None
    else if CodeText(codes[0]) == text then Some(codes[0])
    else ParseCode(codes[1..], text)
  }

  function ParseKind(text: string): Option<TerminalKind> {
    if text == KindText(ResultKind) then Some(ResultKind)
    else if text == KindText(FailureKind) then Some(FailureKind) else None
  }

  function ParseEffectState(text: string): Option<EffectState> {
    if text == EffectStateText(NoEffect) then Some(NoEffect)
    else if text == EffectStateText(Settled) then Some(Settled)
    else if text == EffectStateText(Unsettled) then Some(Unsettled) else None
  }

  function WireText(j: Json): Option<string> {
    if j.JText? && NonBlank(j.text) then Some(j.text) else None
  }

  datatype Optional = Missing | Text(text: string) | Wrong

  function WireOptionalText(j: Json): Optional {
    if j.JNull? then Missing else if WireText(j).Some? then Text(j.text) else Wrong
  }

  function OptionalValue(o: Optional): Option<string> { if o.Text? then Some(o.text) else None }

  datatype Decoded = Decoded(envelope: Envelope) | BadWire(fault: WireFault) | BadCode

  /** `decode_tura_terminal_envelope`: the code first, then the fields in keyword order, then the
      envelope's own rules. */
  function Decode(payload: Payload): (d: Decoded) {
    if payload.unknown != {} || !Complete(payload.fields) then BadWire(FieldsDiffer)
    else
      var m := payload.fields;
      var code := if m[FailureCodeField].JText? then ParseCode(CODES, m[FailureCodeField].text) else None;
      var version := WireText(m[ProtocolVersion]);
      var request := WireText(m[RequestId]);
      var packet := WireText(m[PacketId]);
      var lease := WireText(m[LeaseId]);
      var executor := WireText(m[ExecutorId]);
      var kind := if m[Kind].JText? then ParseKind(m[Kind].text) else None;
      var state := if m[EffectStateField].JText? then ParseEffectState(m[EffectStateField].text) else None;
      var effect := WireOptionalText(m[EffectId]);
      var output := WireText(m[OutputDigest]);
      var detail := WireOptionalText(m[FailureDetailDigest]);
      if !m[FailureCodeField].JNull? && code.None? then BadWire(FieldRejected(0))
      else if version.None? then BadWire(FieldRejected(1))
      else if request.None? then BadWire(FieldRejected(2))
      else if packet.None? then BadWire(FieldRejected(3))
      else if lease.None? then BadWire(FieldRejected(4))
      else if executor.None? then BadWire(FieldRejected(5))
      else if kind.None? then BadWire(FieldRejected(6))
      else if state.None? then BadWire(FieldRejected(7))
      else if effect.Wrong? then BadWire(FieldRejected(8))
      else if output.None? then BadWire(FieldRejected(9))
      else if !m[PredicateSatisfied].JBool? then BadWire(FieldRejected(10))
      else if detail.Wrong? then BadWire(FieldRejected(11))
      else
        var e := Envelope(version.value, request.value, packet.value, lease.value, executor.value,
                          kind.value, state.value, OptionalValue(effect), output.value,
                          m[PredicateSatisfied].flag, code, OptionalValue(detail));
        match CheckEnvelope(e)
        case Sound => Decoded(e)
        case Unsound(rule) => BadWire(EnvelopeRejected(rule))
        case CodeRejected => BadCode
  }

  function OptionalJson(t: Option<string>): Json {
    if t.Some? then JText(t.value) else JNull
  }

  /** The wire form of an envelope, field by field. */
  function JsonOf(e: Envelope, f: WireField): Json {
    match f
    case ProtocolVersion => JText(e.protocolVersion)
    case RequestId => JText(e.requestId)
    case PacketId => JText(e.packetId)
    case LeaseId => JText(e.leaseId)
    case ExecutorId => JText(e.executorId)
    case Kind => JText(KindText(e.kind))
    case EffectStateField => JText(EffectStateText(e.effectState))
    case EffectId => OptionalJson(e.effectId)
    case OutputDigest => JText(e.outputDigest)
    case PredicateSatisfied => JBool(e.predicateSatisfied)
    case FailureCodeField =>
      if e.failureCode.Some? then JText(CodeText(e.failureCode.value)) else JNull
    case FailureDetailDigest => OptionalJson(e.failureDetail)
  }

  predicate IsWireOf(payload: Payload, e: Envelope) {
    && payload.unknown == {} && Complete(payload.fields)
    && forall f :: f in payload.fields ==> payload.fields[f] == JsonOf(e, f)
  }

  predicate OptionalNonBlank(t: Option<string>) { t.Some? ==> NonBlank(t.value) }

  lemma CodesRoundTrip(c: FailureCode)
    ensures ParseCode(CODES, CodeText(c)) == Some(c)
  {
    assert c in CODES by {
      match c
      case StaleIdentity => assert CODES[0] == c;
      case DuplicateOrReplay => assert CODES[1] == c;
      case UnsettledEffect => assert CODES[2] == c;
      case LeaseConflict => assert CODES[3] == c;
      case CasMismatch => assert CODES[4] == c;
      case CallbackTargetMismatch => assert CODES[5] == c;
      case ConvergenceNotProven => assert CODES[6] == c;
      case ReplayIdentityConflict => assert CODES[7] == c;
      case ExecutorError => assert CODES[8] == c;
      case CallbackDeliveryUnsettled => assert CODES[9] == c;
      case MissionReadbackIndeterminate => assert CODES[10] == c;
      case InvalidFailureCode => assert CODES[11] == c;
      case MissionIsComplete => assert CODES[12] == c;
      case NoRoute => assert CODES[13] == c;
    }
    var parsed := ParseCode(CODES, CodeText(c));
    CodeTextsDiffer(c, parsed.value);
  }

  /** No two codes share a text: they differ in length or at a known position. */
  lemma CodeTextsDiffer(a: FailureCode, b: FailureCode)
    ensures CodeText(a) == CodeText(b) ==> a == b
  {
    assert "LEASE_CONFLICT"[0] != "STALE_IDENTITY"[0];
    assert "LEASE_CONFLICT"[0] != "EXECUTOR_ERROR"[0];
    assert "STALE_IDENTITY"[0] != "EXECUTOR_ERROR"[0];
    assert "CALLBACK_TARGET_MISMATCH"[0] != "REPLAY_IDENTITY_CONFLICT"[0];
  }

  lemma KindsRoundTrip(k: TerminalKind, s: EffectState)
    ensures ParseKind(KindText(k)) == Some(k)
    ensures ParseEffectState(EffectStateText(s)) == Some(s)
  {
  }

  /** Exactly the wire forms of sound envelopes decode, each to its own envelope: decoding loses and
      invents nothing. */
  lemma DecodesIff(payload: Payload, e: Envelope)
    ensures Decode(payload) == Decoded(e)
       <==> && IsWireOf(payload, e) && CheckEnvelope(e) == Sound
            && OptionalNonBlank(e.effectId) && OptionalNonBlank(e.failureDetail)
  {
    hide Decode, IsWireOf, CheckEnvelope, OptionalNonBlank;
    if Decode(payload) == Decoded(e) {
      DecodedIsWire(payload, e);
    } else if && IsWireOf(payload, e) && CheckEnvelope(e) == Sound
              && OptionalNonBlank(e.effectId) && OptionalNonBlank(e.failureDetail) {
      WireDecodes(payload, e);
    }
  }

  lemma WireDecodes(payload: Payload, e: Envelope)
    requires IsWireOf(payload, e) && CheckEnvelope(e) == Sound
    requires OptionalNonBlank(e.effectId) && OptionalNonBlank(e.failureDetail)
    ensures Decode(payload) == Decoded(e)
  {
    hide CheckEnvelope, ParseCode, CODES, CodeText, KindText, EffectStateText, ParseKind,
         ParseEffectState, NonBlank, PROTOCOL_VERSION, IsWireOf, WireText, WireOptionalText;
    var m := payload.fields;
    FieldsOf(payload, e);
    SoundTexts(e);
    TextsRead(e);
    KindsRoundTrip(e.kind, e.effectState);
    if e.failureCode.Some? { CodesRoundTrip(e.failureCode.value); }
  }

  lemma FieldsOf(payload: Payload, e: Envelope)
    requires IsWireOf(payload, e)
    ensures payload.unknown == {} && Complete(payload.fields)
    ensures forall f: WireField :: payload.fields[f] == JsonOf(e, f)
  {
  }

  lemma TextsRead(e: Envelope)
    requires CheckEnvelope(e) == Sound
    requires OptionalNonBlank(e.effectId) && OptionalNonBlank(e.failureDetail)
    ensures WireText(JsonOf(e, ProtocolVersion)) == Some(e.protocolVersion)
    ensures WireText(JsonOf(e, RequestId)) == Some(e.requestId)
    ensures WireText(JsonOf(e, PacketId)) == Some(e.packetId)
    ensures WireText(JsonOf(e, LeaseId)) == Some(e.leaseId)
    ensures WireText(JsonOf(e, ExecutorId)) == Some(e.executorId)
    ensures WireText(JsonOf(e, OutputDigest)) == Some(e.outputDigest)
    ensures !WireOptionalText(JsonOf(e, EffectId)).Wrong?
    ensures OptionalValue(WireOptionalText(JsonOf(e, EffectId))) == e.effectId
    ensures !WireOptionalText(JsonOf(e, FailureDetailDigest)).Wrong?
    ensures OptionalValue(WireOptionalText(JsonOf(e, FailureDetailDigest))) == e.failureDetail
  {
    SoundTexts(e);
    hide CheckEnvelope, NonBlank;
  }

  lemma SoundTexts(e: Envelope)
    requires CheckEnvelope(e) == Sound
    ensures NonBlank(e.protocolVersion) && NonBlank(e.requestId) && NonBlank(e.packetId)
    ensures NonBlank(e.leaseId) && NonBlank(e.executorId) && NonBlank(e.outputDigest)
  {
    assert PROTOCOL_VERSION[0] == 't' && !IsSpace('t');
  }

  lemma DecodedIsWire(payload: Payload, e: Envelope)
    requires Decode(payload) == Decoded(e)
    ensures IsWireOf(payload, e) && CheckEnvelope(e) == Sound
    ensures OptionalNonBlank(e.effectId) && OptionalNonBlank(e.failureDetail)
  {
    hide CheckEnvelope, ParseCode, CODES, CodeText, KindText, EffectStateText, NonBlank,
         PROTOCOL_VERSION;
    forall f | f in payload.fields ensures payload.fields[f] == JsonOf(e, f) {
    }
  }

  // ---------------------------------------------------------------- dispatch

  /** What a client does with a request: it answers on the wire, with an envelope object it built
      itself, with something else, by raising, or not at all because it is interrupted. */
  datatype Reply =
    | OnWire(payload: Payload)
    | Object(envelope: Envelope)
    | Foreign(typeName: string)
    | Violation(code: FailureCode, message: string)
    | Error(errorType: string, message: string)
    | Unanswered

  predicate ReplyWellFormed(r: Reply) { r.Object? ==> CheckEnvelope(r.envelope) == Sound }

  /** The texts of identities, as they stand in requests and envelopes. */
  datatype Naming = Naming(packet: PacketId -> string, lease: LeaseId -> string,
                           request: RequestId -> string)

  datatype Mismatch = PacketOrLease | AdapterExecutor | CodeMismatch | EnvelopeWire | EnvelopeType
                    | Identity(field: IdentityField)

  datatype DispatchOutcome =
    | Result(result: ExecutionResult)
    | Failure(failure: ExecutionFailure)
    | Rejection(code: FailureCode, mismatched: seq<Mismatch>, observedRequest: Option<string>,
                detail: Evidence, observedEffect: Option<string>)
    | Escaped
    | Abandoned

  function Differing(names: Naming, r: Request, e: Envelope): seq<IdentityField> {
    (if names.request(r.id) != e.requestId then [RequestIdField] else [])
    + (if names.packet(r.body.packetId) != e.packetId then [PacketIdField] else [])
    + (if names.lease(r.body.leaseId) != e.leaseId then [LeaseIdField] else [])
    + (if r.body.executorId != e.executorId then [ExecutorIdField] else [])
  }

  function Identities(fields: seq<IdentityField>): seq<Mismatch> {
    seq(|fields|, i requires 0 <= i < |fields| => Identity(fields[i]))
  }

  function FailureOf(r: Request, code: FailureCode, detail: Evidence, seen: Option<string>):
    ExecutionFailure
  {
    Seal(FailureBody(r.body.packetId, r.body.leaseId, code, detail, seen, ExecutorOrigin))
  }

  /** The text under a key, whatever it says, when it is a text at all. */
  function Peek(payload: Payload, f: WireField): Option<string> {
    if f in payload.fields && payload.fields[f].JText? then Some(payload.fields[f].text) else None
  }

  /** A terminal envelope, mapped to the outcome it reports for `r`. */
  function MapEnvelope(names: Naming, r: Request, e: Envelope): DispatchOutcome {
    var differing := Differing(names, r, e);
    if differing != [] then
      Rejection(StaleIdentity, Identities(differing), Some(e.requestId),
                TerminalMismatch(differing), e.effectId)
    else if e.kind.FailureKind? then
      Failure(FailureOf(r, if e.failureCode.Some? then e.failureCode.value else ExecutorError,
                        Given(if Present(e.failureDetail) then e.failureDetail.value
                              else e.outputDigest), e.effectId))
    else
      var result := ExecutionResult(r.body.executorId, r.body.packetId, r.body.leaseId,
                                    if e.effectId.Some? then e.effectId.value else "",
                                    e.effectState, Given(e.outputDigest), e.predicateSatisfied);
      if ResultWellFormed(result) then Result(result) else Escaped
  }

  function Dispatch(names: Naming, executorId: string, p: TaskPacket, l: Lease, reply: Reply):
    (o: DispatchOutcome)
  {
    match BuildRequest(p, l)
    case Refused(fault) =>
      Rejection(StaleIdentity, [PacketOrLease], None, RequestRejected(fault), None)
    case Request(r) =>
      if r.body.executorId != executorId then
        Rejection(StaleIdentity, [AdapterExecutor], Some(names.request(r.id)),
                  ExecutorMismatch(r.body.executorId, executorId), None)
      else match reply
        case Violation(code, message) =>
          if code == InvalidFailureCode
          then Rejection(InvalidFailureCode, [CodeMismatch], None, TransportInvalidCode(message), None)
          else Failure(FailureOf(r, ExecutorError, TransportException("HarnessViolation", message),
                                 None))
        case Error(errorType, message) =>
          Failure(FailureOf(r, ExecutorError, TransportException(errorType, message), None))
        case Foreign(typeName) =>
          Rejection(StaleIdentity, [EnvelopeType], None, InvalidEnvelopeType(typeName), None)
        case Unanswered => Abandoned
        case Object(e) => MapEnvelope(names, r, e)
        case OnWire(payload) =>
          match Decode(payload)
          case Decoded(e) => MapEnvelope(names, r, e)
          case BadCode =>
            Rejection(InvalidFailureCode, [CodeMismatch], Peek(payload, RequestId),
                      InvalidEnvelopeCode, Peek(payload, EffectId))
          case BadWire(fault) =>
            Rejection(StaleIdentity, [EnvelopeWire], Peek(payload, RequestId),
                      InvalidWire(fault), Peek(payload, EffectId))
  }

  /** `TuraAdapter.execute`, as the harness sees it end. */
  function Ending(p: TaskPacket, l: Lease, o: DispatchOutcome): ExecutorReturn {
    match o
    case Result(result) => Returned(result)
    case Failure(f) =>
      if EvidenceText(f.body.detailDigest) then Signals(f) else Raises("ValueError", "detail_digest")
    case Rejection(code, _, _, detail, seen) =>
      Signals(Seal(FailureBody(p.id, l.leaseId, code, detail, seen, ExecutorOrigin)))
    case Escaped => Raises("ValueError", "effect_id")
    case Abandoned => Interrupted
  }

  // ---------------------------------------------------------------- no reply escapes

  /** The client built a result envelope for this request whose effect id is only white space; no
      wire payload can say that. */
  /** The packet's request was built and is for this adapter, so the client is asked. */
  predicate Asked(executorId: string, p: TaskPacket, l: Lease) {
    BuildRequest(p, l).Request? && p.body.executorId == executorId
  }

  /** The reply is an envelope object of the client's own making for this very request. */
  predicate OwnObject(names: Naming, executorId: string, p: TaskPacket, l: Lease, reply: Reply) {
    && Asked(executorId, p, l) && reply.Object?
    && Differing(names, BuildRequest(p, l).request, reply.envelope) == []
  }

  predicate BlankEffect(names: Naming, executorId: string, p: TaskPacket, l: Lease, reply: Reply) {
    && OwnObject(names, executorId, p, l, reply)
    && reply.envelope.kind.ResultKind? && !OptionalNonBlank(reply.envelope.effectId)
  }

  predicate BlankDetail(names: Naming, executorId: string, p: TaskPacket, l: Lease, reply: Reply) {
    && OwnObject(names, executorId, p, l, reply)
    && reply.envelope.kind.FailureKind? && !OptionalNonBlank(reply.envelope.failureDetail)
  }

  /** The envelope a reply is read as, if it is read as one. */
  function EnvelopeOf(reply: Reply): Option<Envelope> {
    match reply
    case Object(e) => Some(e)
    case OnWire(payload) =>
      (match Decode(payload)
       case Decoded(e) => Some(e)
       case _ => None)
    case _ => None
  }

  /** The envelope says of itself that it answers the request of `p` under `l`. */
  predicate Answers(names: Naming, p: TaskPacket, l: Lease, e: Envelope) {
    && BuildRequest(p, l).Request? && e.requestId == names.request(BuildRequest(p, l).request.id)
    && e.packetId == names.packet(p.id) && e.leaseId == names.lease(l.leaseId)
    && e.executorId == p.body.executorId
  }

  lemma MapNeverEscapes(names: Naming, r: Request, e: Envelope)
    requires CheckEnvelope(e) == Sound
    ensures var o := MapEnvelope(names, r, e);
      && !o.Abandoned?
      && (o.Escaped? <==> Differing(names, r, e) == [] && e.kind.ResultKind?
                          && !OptionalNonBlank(e.effectId))
      && (o.Failure? ==>
            && ExecutorCode(o.failure.body.code)
            && (EvidenceText(o.failure.body.detailDigest) <==> OptionalNonBlank(e.failureDetail)))
  {
  }

  /** Every JSON payload becomes exactly one of result, failure or rejection, and the executor's end
      is a returned result or a structured signal: no payload escapes as another exception. */
  lemma WireNeverEscapes(names: Naming, executorId: string, p: TaskPacket, l: Lease,
                         payload: Payload)
    ensures var o := Dispatch(names, executorId, p, l, OnWire(payload));
      !o.Escaped? && !o.Abandoned? && EndingWellFormed(Ending(p, l, o)) && !Ending(p, l, o).Raises?
      && (o.Result? ==> Ending(p, l, o) == Returned(o.result))
      && (o.Failure? ==> Ending(p, l, o) == Signals(o.failure))
  {
    hide NonBlank, Differing, CheckEnvelope, Decode, IsWireOf, BuildRequest, MapEnvelope,
         ResultWellFormed;
    if Decode(payload).Decoded? {
      var e := Decode(payload).envelope;
      DecodesIff(payload, e);
      if BuildRequest(p, l).Request? {
        MapNeverEscapes(names, BuildRequest(p, l).request, e);
        MapIsWellFormed(names, BuildRequest(p, l).request, e);
      }
    }
  }

  lemma MapIsWellFormed(names: Naming, r: Request, e: Envelope)
    ensures var o := MapEnvelope(names, r, e);
      && (o.Result? ==> ResultWellFormed(o.result))
      && (o.Rejection? ==> o.code == StaleIdentity && EvidenceText(o.detail))
      && (o.Failure? ==> o.failure.body.origin == ExecutorOrigin)
  {
  }

  lemma DispatchEscapesIff(names: Naming, executorId: string, p: TaskPacket, l: Lease, reply: Reply)
    requires ReplyWellFormed(reply)
    ensures Dispatch(names, executorId, p, l, reply).Escaped?
       <==> BlankEffect(names, executorId, p, l, reply)
    ensures EndingWellFormed(Ending(p, l, Dispatch(names, executorId, p, l, reply)))
  {
    hide NonBlank, Differing, CheckEnvelope, Decode, IsWireOf, MapEnvelope, ResultWellFormed,
         OptionalNonBlank;
    if BuildRequest(p, l).Request? {
      var r := BuildRequest(p, l).request;
      if reply.OnWire? {
        WireNeverEscapes(names, executorId, p, l, reply.payload);
      } else if reply.Object? {
        MapNeverEscapes(names, r, reply.envelope);
        MapIsWellFormed(names, r, reply.envelope);
      }
    }
  }

  lemma FailureFailsIff(names: Naming, executorId: string, p: TaskPacket, l: Lease, reply: Reply)
    requires ReplyWellFormed(reply)
    ensures var o := Dispatch(names, executorId, p, l, reply);
      o.Failure? && Ending(p, l, o).Raises? <==> BlankDetail(names, executorId, p, l, reply)
  {
    hide NonBlank, Differing, CheckEnvelope, Decode, IsWireOf, ResultWellFormed, OptionalNonBlank;
    if BuildRequest(p, l).Request? {
      var r := BuildRequest(p, l).request;
      if reply.OnWire? {
        WireNeverEscapes(names, executorId, p, l, reply.payload);
      } else if reply.Object? {
        MapNeverEscapes(names, r, reply.envelope);
      }
    }
  }

  /** The executor ends in an unforeseen error for two replies only, both envelope objects the client
      built for this request: a result whose effect id, or a failure whose detail digest, is white
      space. */
  lemma ExecuteEscapesIff(names: Naming, executorId: string, p: TaskPacket, l: Lease, reply: Reply)
    requires ReplyWellFormed(reply)
    ensures Ending(p, l, Dispatch(names, executorId, p, l, reply)).Raises?
       <==> BlankEffect(names, executorId, p, l, reply) || BlankDetail(names, executorId, p, l, reply)
  {
    hide Dispatch, BlankEffect, BlankDetail;
    DispatchEscapesIff(names, executorId, p, l, reply);
    FailureFailsIff(names, executorId, p, l, reply);
  }

  /** An envelope is taken for an answer exactly when it names the request, packet, lease and executor
      it was asked about; any other envelope is a rejection. */
  lemma AnswersAreTheirOwn(names: Naming, executorId: string, p: TaskPacket, l: Lease, reply: Reply)
    requires Asked(executorId, p, l) && EnvelopeOf(reply).Some?
    ensures var o := Dispatch(names, executorId, p, l, reply);
      o.Rejection? <==> !Answers(names, p, l, EnvelopeOf(reply).value)
  {
    hide Decode, ResultWellFormed;
  }

  /** Only an envelope becomes a result. */
  lemma ResultsAreAnswers(names: Naming, executorId: string, p: TaskPacket, l: Lease, reply: Reply)
    requires Dispatch(names, executorId, p, l, reply).Result?
    ensures Asked(executorId, p, l) && EnvelopeOf(reply).Some?
    ensures var r, e := Dispatch(names, executorId, p, l, reply).result, EnvelopeOf(reply).value;
      && Answers(names, p, l, e) && e.kind.ResultKind? && e.effectId == Some(r.effectId)
      && e.effectState == r.effectState && r.outputDigest == Given(e.outputDigest)
      && e.predicateSatisfied == r.predicateSatisfied
  {
    hide Decode;
  }

  // ---------------------------------------------------------------- composed with the harness

  /** What a failure or rejection reports of itself. */
  function Report(p: TaskPacket, l: Lease, o: DispatchOutcome): FailureBody
    requires o.Failure? || o.Rejection?
  {
    if o.Failure? then o.failure.body
    else FailureBody(p.id, l.leaseId, o.code, o.detail, o.observedEffect, ExecutorOrigin)
  }

  /** What the store holds of a running packet once the adapter has ended on a reply. */
  ghost predicate Kept(s: Store, t: Store, names: Naming, executorId: string, p: TaskPacket,
                       l: Lease, reply: Reply)
  {
    var o, w := Dispatch(names, executorId, p, l, reply), t.work;
    && ((o.Failure? || o.Rejection?) && !BlankDetail(names, executorId, p, l, reply) ==>
          p.id in w.failures && w.failures[p.id] == Seal(Report(p, l, o)))
    && (BlankDetail(names, executorId, p, l, reply) || BlankEffect(names, executorId, p, l, reply) ==>
          && p.id in w.failures && w.failures[p.id].body.code == ExecutorError
          && w.failures[p.id].body.detailDigest.ExecutorException?
          && w.failures[p.id].body.observedEffectId.None?)
    && (o.Result? ==>
          (p.id in w.attempts && w.attempts[p.id] == o.result
           <==> !HasUnsettledStep(s.steps, p.id) && o.result.effectId !in s.work.owner))
    && (o.Abandoned? ==> t == s)
  }

  /** While `execute` runs the adapter for a packet, whatever the client does: a failure or rejection is
      recorded with its own code, detail digest and observed effect if and only if it is not one with
      a white-space detail, which loses all three; a result is recorded as it is if and only if no
      step is open and no packet owns its effect. */
  lemma AdapterOutcomeIsKept(h: seq<Host>, events: seq<Event>, n: nat, k: nat, names: Naming,
                             executorId: string, reply: Reply)
    requires IsPlay(h, events) && n <= |events| && ReplyWellFormed(reply)
    requires k in h[n].callers && h[n].callers[k].Executing?
    ensures var g := h[n];
            var p, l := g.callers[k].packet, g.callers[k].lease;
            var o := Dispatch(names, executorId, p, l, reply);
            var t := Step(g, ExecutorEnds(k, Ending(p, l, o))).store;
      && Kept(g.store, t, names, executorId, p, l, reply)
      && (o.Failure? || o.Rejection? ==>
            && p.id in t.work.failures
            && (t.work.failures[p.id] == Seal(Report(p, l, o))
                <==> !BlankDetail(names, executorId, p, l, reply)))
  {
    hide EventWellFormed, HostInv, Inv, OutcomesInv, AcksInv, RanOnce, HasUnsettledStep,
         RunningFits, Apply, Dispatch, CallersApart, Ending, OutcomeCall, BlankDetail, BlankEffect;
    PlayedHostHolds(h, events, n);
    var g := h[n];
    var p, l := g.callers[k].packet, g.callers[k].lease;
    HostParts(g);
    assert RunningFits(g.store, p, l) by { assert PhaseFits(g.store, g.callers[k]); }
    OutcomeIsKept(g.store, p, l, names, executorId, reply);
    BlankDetailIsNoReport(names, executorId, p, l, reply);
  }

  lemma BlankDetailIsNoReport(names: Naming, executorId: string, p: TaskPacket, l: Lease, reply: Reply)
    requires ReplyWellFormed(reply)
    ensures var o := Dispatch(names, executorId, p, l, reply);
      BlankDetail(names, executorId, p, l, reply) ==>
        o.Failure? && !Report(p, l, o).detailDigest.ExecutorException?
  {
    hide NonBlank;
  }

  lemma SignalIsKept(s: Store, p: TaskPacket, l: Lease, f: ExecutionFailure)
    requires RunningFits(s, p, l) && f.body.packetId == p.id && f.body.leaseId == l.leaseId
    requires f.body.origin == ExecutorOrigin && ExecutorCode(f.body.code)
    requires EvidenceText(f.body.detailDigest)
    ensures var t := AfterCall(s, OutcomeCall(p, l, Signals(f)));
      p.id in t.work.failures && t.work.failures[p.id] == Seal(f.body)
  {
    hide RecordExecutionFailure, RunningFits, EvidenceText, ExecutorCode;
    FailureIsRecorded(s, p, l, f.body.code, f.body.detailDigest, f.body.observedEffectId,
                      ExecutorOrigin);
  }

  lemma ErrorIsKept(s: Store, p: TaskPacket, l: Lease, errorType: string, message: string)
    requires RunningFits(s, p, l)
    ensures var w := AfterCall(s, OutcomeCall(p, l, Raises(errorType, message))).work;
      && p.id in w.failures && w.failures[p.id].body.code == ExecutorError
      && w.failures[p.id].body.detailDigest.ExecutorException?
      && w.failures[p.id].body.observedEffectId.None?
  {
    hide RecordExecutionFailure, RunningFits;
    FailureIsRecorded(s, p, l, ExecutorError, ExecutorException(errorType, message), None,
                      ExecutorOrigin);
  }

  lemma ResultIsKeptIff(s: Store, p: TaskPacket, l: Lease, r: ExecutionResult)
    requires RunningFits(s, p, l) && r.packetId == p.id && r.leaseId == l.leaseId
    requires r.executorId == p.body.executorId
    ensures var w := AfterCall(s, OutcomeCall(p, l, Returned(r))).work;
      p.id in w.attempts && w.attempts[p.id] == r
      <==> !HasUnsettledStep(s.steps, p.id) && r.effectId !in s.work.owner
  {
    hide HoldsLease, HasUnsettledStep, PersistTerminal, RecordExecutionFailure;
    var x := s.(work := s.work.(attempts := s.work.attempts[p.id := r],
                                owner := s.work.owner[r.effectId := p.id]));
    PersistKeepsAttempts(x, p, l, Succeeded, Some(r.effectId), r.effectState, r.outputDigest,
                         Some(r.outputDigest), r.predicateSatisfied, None, None);
    if r.effectId in s.work.owner {
      FailuresAreNoAttempts(s, p, l, DuplicateOrReplay, DuplicateEffect(r.effectId, s.work.owner[r.effectId]),
                            Some(r.effectId), HarnessOrigin);
    }
  }

  lemma FailuresAreNoAttempts(s: Store, p: TaskPacket, l: Lease, code: FailureCode, e: Evidence,
                              seen: Option<string>, origin: FailureOrigin)
    ensures RecordExecutionFailure(s, p, l, code, e, seen, origin).store.work.attempts == s.work.attempts
  {
    hide HoldsLease;
  }

  lemma OutcomeNamesRequest(names: Naming, executorId: string, p: TaskPacket, l: Lease, reply: Reply)
    requires ReplyWellFormed(reply)
    ensures var o := Dispatch(names, executorId, p, l, reply);
      && (o.Result? ==> o.result.packetId == p.id && o.result.leaseId == l.leaseId
                        && o.result.executorId == p.body.executorId)
      && (o.Failure? ==> o.failure.body.packetId == p.id && o.failure.body.leaseId == l.leaseId
                         && o.failure.body.origin == ExecutorOrigin && o.failure.Authentic()
                         && ExecutorCode(o.failure.body.code))
      && (o.Rejection? ==> ExecutorCode(o.code) && EvidenceText(o.detail))
  {
    hide NonBlank, Differing, CheckEnvelope, Decode, IsWireOf, ResultWellFormed, OptionalNonBlank;
    if BuildRequest(p, l).Request? {
      var r := BuildRequest(p, l).request;
      if reply.OnWire? && Decode(reply.payload).Decoded? {
        DecodesIff(reply.payload, Decode(reply.payload).envelope);
        MapNeverEscapes(names, r, Decode(reply.payload).envelope);
      } else if reply.Object? {
        MapNeverEscapes(names, r, reply.envelope);
      }
    }
  }

  lemma OutcomeIsKept(s: Store, p: TaskPacket, l: Lease, names: Naming, executorId: string,
                      reply: Reply)
    requires RunningFits(s, p, l) && ReplyWellFormed(reply)
    ensures var o := Dispatch(names, executorId, p, l, reply);
      Kept(s, AfterCall(s, OutcomeCall(p, l, Ending(p, l, o))), names, executorId, p, l, reply)
  {
    hide Dispatch, Apply, OutcomeCall, RunningFits, HasUnsettledStep, EvidenceText, ExecutorCode,
         BlankDetail, BlankEffect;
    var o := Dispatch(names, executorId, p, l, reply);
    OutcomeNamesRequest(names, executorId, p, l, reply);
    DispatchEscapesIff(names, executorId, p, l, reply);
    FailureFailsIff(names, executorId, p, l, reply);
    if o.Result? {
      ResultIsKeptIff(s, p, l, o.result);
    } else if Ending(p, l, o).Signals? {
      SignalIsKept(s, p, l, Ending(p, l, o).failure);
    } else if Ending(p, l, o).Raises? {
      ErrorIsKept(s, p, l, Ending(p, l, o).errorType, Ending(p, l, o).message);
    } else {
      NothingIsTold(s, p, l);
    }
  }

  lemma NothingIsTold(s: Store, p: TaskPacket, l: Lease)
    ensures AfterCall(s, OutcomeCall(p, l, Interrupted)) == s
  {
  }
}
