/** What the adapter asks, what it makes of each reply, and what the store then holds, on the fields of
    requests and envelopes. */
module AdapterLaws {
  import opened Records
  import opened StoreSpec
  import opened StoreInvariant
  import opened LedgerLaws
  import opened EffectLaws
  import opened Harness
  import opened HarnessSafety
  import opened HostSafety
  import opened HarnessTheorems
  import opened TuraAdapter

  // ---------------------------------------------------------------- requests

  /** The lease is the packet's, over its scope, each item one version past the packet's. */
  predicate LeaseFollows(p: TaskPacket, l: Lease) {
    && l.packetId == p.id && l.scope == p.body.scope
    && |l.scopeVersions| == |p.body.scopeVersions|
    && forall i :: 0 <= i < |l.scopeVersions| ==>
         && l.scopeVersions[i].0 == p.body.scopeVersions[i].0
         && l.scopeVersions[i].1 == p.body.scopeVersions[i].1 + 1
  }

  lemma RequestBuiltIff(p: TaskPacket, l: Lease)
    ensures BuildRequest(p, l).Request? <==>
            p.body.context.None? && LeaseFollows(p, l) && p.body.recoveryBudget >= 0
    ensures BuildRequest(p, l).Request? ==>
              var r, b := BuildRequest(p, l).request, p.body;
              && r.id == Of(r.body) && r.body.protocolVersion == "tura-collaboration/v1"
              && r.body.packetId == p.id && r.body.leaseId == l.leaseId
              && r.body.missionId == b.missionId && r.body.missionRevision == b.missionRevision
              && r.body.missionMode == b.missionMode && r.body.predicateKey == b.predicateKey
              && r.body.routeId == b.routeId && r.body.executorId == b.executorId
              && r.body.scope == b.scope && r.body.expectedVersions == b.scopeVersions
              && r.body.claimedVersions == l.scopeVersions && r.body.expectedDelta == b.expectedDelta
              && r.body.abandonIf == b.abandonIf && r.body.recoveryBudget == b.recoveryBudget
              && r.body.destination == b.destination
  {
    if LeaseFollows(p, l) { assert l.scopeVersions == Following(p.body.scopeVersions); }
  }

  // ---------------------------------------------------------------- envelopes

  predicate IdsAreText(e: Envelope) {
    && NonBlank(e.requestId) && NonBlank(e.packetId) && NonBlank(e.leaseId)
    && NonBlank(e.executorId) && NonBlank(e.outputDigest)
  }

  /** A result has an effect and no failure; a failure has a code of an executor's, a detail, and an
      effect unless it had none. */
  predicate WellBuilt(e: Envelope) {
    && e.protocolVersion == "tura-collaboration/v1" && IdsAreText(e)
    && match e.kind
       case ResultKind =>
         && e.effectState != NoEffect && e.effectId.Some? && e.effectId.value != ""
         && e.failureCode.None? && e.failureDetail.None?
       case FailureKind =>
         && e.failureCode.Some? && CodeSuits(e.failureCode.value, ExecutorOrigin)
         && e.failureDetail.Some? && e.failureDetail.value != ""
         && (e.effectState == NoEffect ==> e.effectId.None?)
         && (e.effectState != NoEffect ==> e.effectId.Some? && e.effectId.value != "")
  }

  lemma SoundIff(e: Envelope)
    ensures CheckEnvelope(e) == Sound <==> WellBuilt(e)
  {
    hide NonBlank;
  }

  /** The wire form, member by member. */
  lemma WireSpells(payload: Payload, e: Envelope)
    requires IsWireOf(payload, e)
    ensures var m := payload.fields;
      && payload.unknown == {} && (forall f: WireField :: f in m)
      && m[ProtocolVersion] == JText(e.protocolVersion) && m[RequestId] == JText(e.requestId)
      && m[PacketId] == JText(e.packetId) && m[LeaseId] == JText(e.leaseId)
      && m[ExecutorId] == JText(e.executorId) && m[OutputDigest] == JText(e.outputDigest)
      && m[PredicateSatisfied] == JBool(e.predicateSatisfied)
      && m[Kind] == JText(if e.kind.ResultKind? then "result" else "failure")
      && m[EffectStateField] == JText(match e.effectState
                                      case NoEffect => "none"
                                      case Settled => "settled"
                                      case Unsettled => "unsettled")
      && m[EffectId] == (if e.effectId.Some? then JText(e.effectId.value) else JNull)
      && m[FailureDetailDigest] == (if e.failureDetail.Some? then JText(e.failureDetail.value) else JNull)
      && (e.failureCode.None? <==> m[FailureCodeField] == JNull)
  {
  }

  // ---------------------------------------------------------------- what becomes of a reply

  /** The envelope is the reply's, read as the adapter reads it, and keeps its own rules. */
  predicate Carries(reply: Reply, e: Envelope) { EnvelopeOf(reply) == Some(e) && WellBuilt(e) }

  /** A failure envelope of this very request is a failure of this packet and lease with the envelope's
      own code, detail and effect, whatever the effect's state. */
  lemma FailureEnvelopeIsKept(names: Naming, x: string, p: TaskPacket, l: Lease, reply: Reply,
                              e: Envelope)
    requires Asked(x, p, l) && Carries(reply, e) && Answers(names, p, l, e) && e.kind.FailureKind?
    ensures var o := Dispatch(names, x, p, l, reply);
      && o.Failure? && o.failure.id == Of(o.failure.body)
      && o.failure.body.packetId == p.id && o.failure.body.leaseId == l.leaseId
      && Some(o.failure.body.code) == e.failureCode
      && o.failure.body.detailDigest == Given(e.failureDetail.value)
      && o.failure.body.observedEffectId == e.effectId && o.failure.body.origin == ExecutorOrigin
  {
    hide Decode, NonBlank;
  }

  /** An envelope of another request, packet, lease or executor is a rejection for a stale identity that
      still names the envelope's effect, and says which of the four differ. */
  lemma MismatchIsRejected(names: Naming, x: string, p: TaskPacket, l: Lease, reply: Reply, e: Envelope)
    requires Asked(x, p, l) && EnvelopeOf(reply) == Some(e) && !Answers(names, p, l, e)
    ensures var o, r := Dispatch(names, x, p, l, reply), BuildRequest(p, l).request;
      && o.Rejection? && o.code == StaleIdentity && o.observedEffect == e.effectId
      && o.observedRequest == Some(e.requestId) && o.detail.TerminalMismatch?
      && (RequestIdField in o.detail.fields <==> e.requestId != names.request(r.id))
      && (PacketIdField in o.detail.fields <==> e.packetId != names.packet(p.id))
      && (LeaseIdField in o.detail.fields <==> e.leaseId != names.lease(l.leaseId))
      && (ExecutorIdField in o.detail.fields <==> e.executorId != p.body.executorId)
      && |o.mismatched| == |o.detail.fields|
      && (forall i :: 0 <= i < |o.mismatched| ==> o.mismatched[i] == Identity(o.detail.fields[i]))
  {
    hide Decode, BuildRequest, Differing;
    RequestBuiltIff(p, l);
    DifferingAre(names, BuildRequest(p, l).request, e);
  }

  lemma DifferingAre(names: Naming, r: Request, e: Envelope)
    ensures var fields := Differing(names, r, e);
      && (RequestIdField in fields <==> e.requestId != names.request(r.id))
      && (PacketIdField in fields <==> e.packetId != names.packet(r.body.packetId))
      && (LeaseIdField in fields <==> e.leaseId != names.lease(r.body.leaseId))
      && (ExecutorIdField in fields <==> e.executorId != r.body.executorId)
      && (fields == [] <==> && e.requestId == names.request(r.id)
                            && e.packetId == names.packet(r.body.packetId)
                            && e.leaseId == names.lease(r.body.leaseId)
                            && e.executorId == r.body.executorId)
  {
  }

  /** Replies that carry no envelope, and requests never sent. */
  lemma OtherRepliesAreReported(names: Naming, x: string, p: TaskPacket, l: Lease, reply: Reply)
    requires EnvelopeOf(reply).None?
    ensures var o := Dispatch(names, x, p, l, reply);
      if BuildRequest(p, l).Refused? then
        && o.Rejection? && o.code == StaleIdentity && o.mismatched == [PacketOrLease]
        && o.observedEffect.None? && o.detail == RequestRejected(BuildRequest(p, l).fault)
      else if p.body.executorId != x then
        && o.Rejection? && o.code == StaleIdentity && o.mismatched == [AdapterExecutor]
        && o.observedEffect.None? && o.detail == ExecutorMismatch(p.body.executorId, x)
      else match reply
        case Violation(code, message) =>
          if code == InvalidFailureCode
          then && o.Rejection? && o.code == InvalidFailureCode && o.observedEffect.None?
               && o.detail == TransportInvalidCode(message)
          else FailsWith(o, p, l, TransportException("HarnessViolation", message))
        case Error(errorType, message) => FailsWith(o, p, l, TransportException(errorType, message))
        case Foreign(typeName) =>
          && o.Rejection? && o.code == StaleIdentity && o.observedEffect.None?
          && o.detail == InvalidEnvelopeType(typeName)
        case OnWire(payload) =>
          && o.Rejection?
          && o.code == (if Decode(payload).BadCode? then InvalidFailureCode else StaleIdentity)
          && o.observedEffect == TextUnder(payload, EffectId)
          && o.observedRequest == TextUnder(payload, RequestId)
        case Unanswered => o.Abandoned?
  {
    hide Decode, MapEnvelope;
  }

  /** The transport failed: an executor error of this packet and lease that observed no effect. */
  predicate FailsWith(o: DispatchOutcome, p: TaskPacket, l: Lease, detail: Evidence) {
    && o.Failure? && o.failure.id == Of(o.failure.body)
    && o.failure.body == FailureBody(p.id, l.leaseId, ExecutorError, detail, None, ExecutorOrigin)
  }

  function TextUnder(payload: Payload, f: WireField): Option<string> {
    if f in payload.fields && payload.fields[f].JText? then Some(payload.fields[f].text) else None
  }

  // ---------------------------------------------------------------- carried to the store

  lemma ReportIsStored(s: Store, p: TaskPacket, l: Lease, b: FailureBody)
    requires Inv(s) && RunningFits(s, p, l) && b.packetId == p.id && b.leaseId == l.leaseId
    requires b.origin == ExecutorOrigin && ExecutorCode(b.code) && EvidenceText(b.detailDigest)
    ensures var w := AfterCall(s, OutcomeCall(p, l, Signals(Seal(b)))).work;
      && p.id in w.failures && w.failures[p.id].body == b
      && FailureAdded(s.work, w, w.failures[p.id])
  {
    hide Inv, RecordExecutionFailure, EvidenceText, ExecutorCode, FailureAdded, NonBlank;
    FailureAnsweredIff(s, p, l, b.code, b.detailDigest, b.observedEffectId, ExecutorOrigin);
    HeldIffOpen(s, p, l);
    RunningIsFirst(s, p, l);
    CodeIsSuitable(b.code, b.detailDigest);
    FailureIsAdded(s, p, l, b.code, b.detailDigest, b.observedEffectId, ExecutorOrigin);
  }

  lemma RunningIsFirst(s: Store, p: TaskPacket, l: Lease)
    requires RunningFits(s, p, l)
    ensures HoldsLease(s.claims, p, l) && p.id in s.work.started && p.id !in s.work.failures
  {
  }

  lemma CodeIsSuitable(code: FailureCode, e: Evidence)
    ensures ExecutorCode(code) ==> CodeSuits(code, ExecutorOrigin)
    ensures EvidenceText(e) ==> (e.Given? ==> NonBlank(e.text))
  {
  }

  /** A running packet's store after the adapter has read a failure envelope of its request: exactly the
      envelope's code, detail and effect, and the effect held by the packet if nobody else holds it.
      After an envelope of another request: a stale identity that observed the envelope's effect. */
  lemma EnvelopeReachesStore(h: seq<Host>, events: seq<Event>, n: nat, k: nat, names: Naming, x: string,
                             reply: Reply, e: Envelope)
    requires IsPlay(h, events) && n <= |events| && Carries(reply, e)
    requires k in h[n].callers && h[n].callers[k].Executing?
    requires Asked(x, h[n].callers[k].packet, h[n].callers[k].lease)
    ensures var g := h[n];
            var p, l := g.callers[k].packet, g.callers[k].lease;
            var o := Dispatch(names, x, p, l, reply);
            var w := Step(g, ExecutorEnds(k, Ending(p, l, o))).store.work;
      && (Answers(names, p, l, e) && e.kind.FailureKind? && NonBlank(e.failureDetail.value) ==>
            && p.id in w.failures && w.failures[p.id].body
               == FailureBody(p.id, l.leaseId, e.failureCode.value, Given(e.failureDetail.value),
                              e.effectId, ExecutorOrigin)
            && FailureAdded(g.store.work, w, w.failures[p.id]))
      && (!Answers(names, p, l, e) ==>
            && p.id in w.failures && w.failures[p.id].body.code == StaleIdentity
            && w.failures[p.id].body.observedEffectId == e.effectId
            && FailureAdded(g.store.work, w, w.failures[p.id]))
  {
    hide EventWellFormed, HostInv, Inv, OutcomesInv, AcksInv, RanOnce, RunningFits, Apply, Dispatch,
         CallersApart, FailureAdded, Answers, Carries, Asked, NonBlank, OutcomeCall, Ending;
    PlayedHostHolds(h, events, n);
    var g := h[n];
    var p, l := g.callers[k].packet, g.callers[k].lease;
    HostParts(g);
    assert RunningFits(g.store, p, l) by { assert PhaseFits(g.store, g.callers[k]); }
    EnvelopeOfCarried(reply, e);
    if Answers(names, p, l, e) && e.kind.FailureKind? && NonBlank(e.failureDetail.value) {
      FailureReaches(g.store, p, l, names, x, reply, e);
    } else if !Answers(names, p, l, e) {
      MismatchReaches(g.store, p, l, names, x, reply, e);
    }
  }

  lemma FailureReaches(s: Store, p: TaskPacket, l: Lease, names: Naming, x: string, reply: Reply,
                       e: Envelope)
    requires Inv(s) && RunningFits(s, p, l) && Asked(x, p, l) && Carries(reply, e)
    requires Answers(names, p, l, e) && e.kind.FailureKind?
    requires e.failureCode.Some? && e.failureDetail.Some? && NonBlank(e.failureDetail.value)
    ensures var w := AfterCall(s, OutcomeCall(p, l, Ending(p, l, Dispatch(names, x, p, l, reply)))).work;
      && p.id in w.failures && w.failures[p.id].body
         == FailureBody(p.id, l.leaseId, e.failureCode.value, Given(e.failureDetail.value),
                        e.effectId, ExecutorOrigin)
      && FailureAdded(s.work, w, w.failures[p.id])
  {
    hide Inv, RunningFits, Dispatch, FailureAdded, Answers, Carries, Asked, NonBlank, OutcomeCall, Apply,
         ExecutorCode;
    FailureEnvelopeIsKept(names, x, p, l, reply, e);
    CodeOfWellBuilt(reply, e);
    ReportIsStored(s, p, l, Dispatch(names, x, p, l, reply).failure.body);
  }

  lemma MismatchReaches(s: Store, p: TaskPacket, l: Lease, names: Naming, x: string, reply: Reply,
                        e: Envelope)
    requires Inv(s) && RunningFits(s, p, l) && Asked(x, p, l) && EnvelopeOf(reply) == Some(e)
    requires !Answers(names, p, l, e)
    ensures var w := AfterCall(s, OutcomeCall(p, l, Ending(p, l, Dispatch(names, x, p, l, reply)))).work;
      && p.id in w.failures && w.failures[p.id].body.code == StaleIdentity
      && w.failures[p.id].body.observedEffectId == e.effectId
      && FailureAdded(s.work, w, w.failures[p.id])
  {
    hide Inv, RunningFits, Dispatch, FailureAdded, Answers, Asked, NonBlank, OutcomeCall, Apply, Decode;
    MismatchIsRejected(names, x, p, l, reply, e);
    var o := Dispatch(names, x, p, l, reply);
    ReportIsStored(s, p, l,
                   FailureBody(p.id, l.leaseId, o.code, o.detail, o.observedEffect, ExecutorOrigin));
  }

  lemma EnvelopeOfCarried(reply: Reply, e: Envelope)
    requires Carries(reply, e)
    ensures EnvelopeOf(reply) == Some(e)
    ensures e.kind.FailureKind? ==> e.failureDetail.Some? && e.failureCode.Some?
  {
    hide Decode, NonBlank;
  }

  lemma CodeOfWellBuilt(reply: Reply, e: Envelope)
    requires Carries(reply, e) && e.kind.FailureKind?
    ensures e.failureCode.Some? && ExecutorCode(e.failureCode.value) && e.failureDetail.Some?
  {
    hide Decode, NonBlank;
  }
}
