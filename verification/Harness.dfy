/** `CollaborationHarness` as a machine of many callers.  Every store call is one atomic step; between
    the steps of `execute` and `continue_existing`, while the executor, the transport or another
    thread runs, any other step may happen. */
module Harness {
  import opened Records
  import opened StoreSpec

  // ---------------------------------------------------------------- callers

  /** Where one caller stands between two of its store calls. */
  datatype Phase =
    | Blocking(packet: TaskPacket, lease: Lease, code: FailureCode, detail: Detail)
    | Executing(packet: TaskPacket, lease: Lease)
    | Resuming(continuation: Continuation, receipt: TerminalReceipt)
    | Submitting(continuation: Continuation, receipt: TerminalReceipt)
    | Turning(continuation: Continuation, receipt: TerminalReceipt)
    | Marking(continuation: Continuation, receipt: TerminalReceipt)

  /** `ran` remembers every invocation of an executor; the program keeps no such record. */
  datatype Host = Host(store: Store, callers: map<nat, Phase>, ran: multiset<PacketId>)

  const START: Host := Host(EMPTY, map[], multiset{})

  /** How `executor.execute` can end.  `Interrupted` is what no handler catches: a keyboard interrupt,
      a cancelled task, an exiting interpreter. */
  datatype ExecutorReturn =
    | Returned(result: ExecutionResult)
    | Malformed(typeName: string)
    | Signals(failure: ExecutionFailure)
    | Violates(code: FailureCode, message: string)
    | Raises(errorType: string, message: string)
    | Interrupted

  /** How `transport.start_turn` can end. */
  datatype TurnEnd =
    | Turned(proof: ConvergenceProof)
    | TurnFailed(errorType: string, message: string)
    | TurnInterrupted

  /** `Interrupt` ends a caller between two of its store calls, outside executor and transport. */
  datatype Event =
    | Api(call: Call)
    | Execute(caller: nat, packet: TaskPacket, lease: Lease, executorId: string)
    | Block(caller: nat)
    | ExecutorEnds(caller: nat, ending: ExecutorReturn)
    | Continue(caller: nat, continuation: Continuation, receipt: TerminalReceipt)
    | Resumed(caller: nat, proof: Option<ResumeProof>)
    | Submit(caller: nat)
    | TurnEnds(caller: nat, turn: TurnEnd)
    | MarkUnsettled(caller: nat)
    | Interrupt(caller: nat)

  /** The store calls the harness passes on unchanged (`plan` registers). */
  predicate Forwarded(c: Call) {
    || c.DoRegister? || c.DoDispose? || c.DoSupersede? || c.DoClaim? || c.DoStep?
    || c.DoReconcileStep? || c.DoBlocker? || c.DoAdmit? || c.DoReconcileFailure?
    || c.DoReconcileEffect? || c.DoPrepare? || c.DoReconcileContinuation? || c.DoVerify?
  }

  predicate EndingWellFormed(r: ExecutorReturn) {
    match r
    case Returned(result) => ResultWellFormed(result)
    case Signals(f) =>
      FailureCodeAllowed(f.body.code, f.body.origin) && EvidenceText(f.body.detailDigest)
    case _ => true
  }

  predicate EventWellFormed(e: Event) {
    match e
    case Api(c) => WellFormed(c)
    case ExecutorEnds(_, r) => EndingWellFormed(r)
    case TurnEnds(_, turn) => turn.Turned? ==> ConvergenceWellFormed(turn.proof.body)
    case _ => true
  }

  // ---------------------------------------------------------------- one step

  /** What `execute` tells the store once the executor has ended, if it is still there to do so. */
  function OutcomeCall(p: TaskPacket, l: Lease, r: ExecutorReturn): Option<Call> {
    match r
    case Returned(result) => Some(DoResult(p, l, result))
    case Malformed(typeName) =>
      Some(DoFail(p, l, ExecutorError, MalformedResult(typeName), None, HarnessOrigin))
    case Signals(f) =>
      if f.body.packetId != p.id || f.body.leaseId != l.leaseId
      then Some(DoFail(p, l, StaleIdentity, SignalMismatch(f.body.detailDigest),
                       f.body.observedEffectId, ExecutorOrigin))
      else Some(DoFail(p, l, f.body.code, f.body.detailDigest, f.body.observedEffectId,
                       ExecutorOrigin))
    case Violates(code, message) =>
      Some(DoFail(p, l, if ExecutorCode(code) then code else InvalidFailureCode,
                  RejectedExecutorCode(code, message), None, ExecutorOrigin))
    case Raises(errorType, message) =>
      Some(DoFail(p, l, ExecutorError, ExecutorException(errorType, message), None,
                  ExecutorOrigin))
    case Interrupted => None
  }

  function AfterCall(s: Store, c: Option<Call>): Store {
    if c.Some? then Apply(s, c.value) else s
  }

  predicate Enabled(h: Host, e: Event) {
    match e
    case Api(c) => Forwarded(c)
    case Execute(k, _, _, _) => k !in h.callers
    case Continue(k, _, _) => k !in h.callers
    case Block(k) => k in h.callers && h.callers[k].Blocking?
    case ExecutorEnds(k, _) => k in h.callers && h.callers[k].Executing?
    case Resumed(k, _) => k in h.callers && h.callers[k].Resuming?
    case Submit(k) => k in h.callers && h.callers[k].Submitting?
    case TurnEnds(k, _) => k in h.callers && h.callers[k].Turning?
    case MarkUnsettled(k) => k in h.callers && h.callers[k].Marking?
    case Interrupt(k) => k in h.callers && !h.callers[k].Executing? && !h.callers[k].Turning?
  }

  /** The store call an enabled event makes, if any. */
  function CallOf(h: Host, e: Event): Option<Call>
    requires Enabled(h, e)
  {
    match e
    case Api(c) => Some(c)
    case Execute(_, p, l, executorId) =>
      Some(if executorId != p.body.executorId
           then DoBlock(p, l, StaleIdentity, SelectedExecutorDiffers) else DoBegin(p, l))
    case Block(k) =>
      Some(DoBlock(h.callers[k].packet, h.callers[k].lease, h.callers[k].code, h.callers[k].detail))
    case ExecutorEnds(k, r) => OutcomeCall(h.callers[k].packet, h.callers[k].lease, r)
    case Continue(_, _, _) => None
    case Resumed(_, _) => None
    case Submit(k) => Some(DoDeliver(h.callers[k].continuation, h.callers[k].receipt))
    case TurnEnds(k, turn) =>
      if turn.Turned?
      then Some(DoAcknowledge(h.callers[k].continuation, h.callers[k].receipt, turn.proof)) else None
    case MarkUnsettled(k) => Some(DoUnsettle(h.callers[k].continuation, h.callers[k].receipt))
    case Interrupt(_) => None
  }

  /** What the caller does next: `None` when its call has returned or raised, or was cut short. */
  function NextPhase(h: Host, e: Event): Option<Phase>
    requires Enabled(h, e)
  {
    match e
    case Execute(_, p, l, executorId) =>
      if executorId != p.body.executorId then None
      else (match BeginExecution(h.store, p, l).result
            case Ok(_) => Some(Executing(p, l))
            case Rejected(code, detail) =>
              if code == StaleIdentity then Some(Blocking(p, l, code, detail)) else None
            case Raised => None)
    case Continue(_, c, r) =>
      if ValidatePreparedContinuation(h.store, c, r).Ok? then Some(Resuming(c, r)) else None
    case Resumed(k, proof) =>
      var phase := h.callers[k];
      if proof.Some? && ValidateResume(h.store, phase.continuation, proof.value).Ok?
      then Some(Submitting(phase.continuation, phase.receipt)) else None
    case Submit(k) =>
      var phase := h.callers[k];
      var begun := BeginDelivery(h.store, phase.continuation, phase.receipt).result;
      if begun.Ok? then Some(Turning(begun.value, phase.receipt)) else None
    case TurnEnds(k, turn) =>
      var phase := h.callers[k];
      if || turn.TurnInterrupted?
         || (turn.Turned? && AcknowledgeAfterConvergence(h.store, phase.continuation, phase.receipt,
                                                         turn.proof).result.Ok?)
      then None else Some(Marking(phase.continuation, phase.receipt))
    case _ => None
  }

  function Put(callers: map<nat, Phase>, k: nat, phase: Option<Phase>): map<nat, Phase> {
    if phase.Some? then callers[k := phase.value] else callers - {k}
  }

  function StoreAfter(h: Host, e: Event): Store
    requires Enabled(h, e)
  {
    AfterCall(h.store, CallOf(h, e))
  }

  function Step(h: Host, e: Event): Host {
    if !Enabled(h, e) then h
    else
      Host(StoreAfter(h, e),
           if e.Api? then h.callers else Put(h.callers, e.caller, NextPhase(h, e)),
           if e.Execute? && NextPhase(h, e).Some? && NextPhase(h, e).value.Executing?
           then h.ran + multiset{e.packet.id} else h.ran)
  }

  function Play(events: seq<Event>): Host {
    if |events| == 0 then START else Step(Play(events[..|events| - 1]), events[|events| - 1])
  }

  predicate AllEventsWellFormed(events: seq<Event>) {
    forall i :: 0 <= i < |events| ==> EventWellFormed(events[i])
  }

  /** Every state the callers and the store pass through, event by event. */
  ghost predicate IsPlay(h: seq<Host>, events: seq<Event>) {
    && |h| == |events| + 1 && h[0] == START
    && forall i :: 0 <= i < |events| ==> EventWellFormed(events[i]) && h[i + 1] == Step(h[i], events[i])
  }

  lemma {:induction false} PlayIsReached(h: seq<Host>, events: seq<Event>, n: nat)
    requires IsPlay(h, events) && n <= |events|
    ensures h[n] == Play(events[..n]) && AllEventsWellFormed(events[..n])
  {
    hide Step, EventWellFormed;
    if n > 0 {
      PlayIsReached(h, events, n - 1);
      assert events[..n][..n - 1] == events[..n - 1];
    }
  }

  /** Every play has its history. */
  lemma {:induction false} PlayHasHistory(events: seq<Event>) returns (h: seq<Host>)
    requires AllEventsWellFormed(events)
    ensures IsPlay(h, events) && h[|events|] == Play(events)
  {
    hide Step, EventWellFormed;
    if |events| == 0 {
      h := [START];
    } else {
      h := PlayHasHistory(events[..|events| - 1]);
      h := h + [Play(events)];
    }
  }

  // ---------------------------------------------------------------- every play is a run

  /** The store calls of a play, in order. */
  function Trace(events: seq<Event>): seq<Call> {
    if |events| == 0 then []
    else
      var h, e := Play(events[..|events| - 1]), events[|events| - 1];
      Trace(events[..|events| - 1])
      + if Enabled(h, e) && CallOf(h, e).Some? then [CallOf(h, e).value] else []
  }

  lemma CallIsWellFormed(h: Host, e: Event)
    requires EventWellFormed(e) && Enabled(h, e) && CallOf(h, e).Some?
    ensures WellFormed(CallOf(h, e).value)
  {
    hide ResultWellFormed, MissionWellFormed, StepWellFormed, FailureReconciliationWellFormed;
  }

  /** Whatever the callers do, the store has seen one run of its own calls, so every theorem about
      store runs holds of the harness. */
  lemma {:induction false} PlayIsARun(events: seq<Event>)
    requires AllEventsWellFormed(events)
    ensures AllWellFormed(Trace(events))
    ensures Play(events).store == Run(EMPTY, Trace(events))
  {
    hide Apply, WellFormed, EventWellFormed, CallOf, Enabled, NextPhase;
    if |events| > 0 {
      var front, e := events[..|events| - 1], events[|events| - 1];
      PlayIsARun(front);
      var h := Play(front);
      if Enabled(h, e) && CallOf(h, e).Some? {
        CallIsWellFormed(h, e);
        assert (Trace(front) + [CallOf(h, e).value])[..|Trace(front)|] == Trace(front);
      } else {
        assert Trace(front) + [] == Trace(front);
      }
    }
  }
}
