/** `CollaborationHarness` for one caller with nobody else at work: each method makes its store calls
    in order and handles what they raise.  Its effect is that of the machine of callers with a single
    caller. */
module CollaborationHarness {
  import opened Records
  import opened StoreSpec
  import opened StoreInvariant
  import opened InMemoryStore
  import opened Planning
  import opened Harness
  import opened HostSafety

  // ---------------------------------------------------------------- one caller of the machine

  function Alone(s: Store): Host { Host(s, map[], multiset{}) }

  /** What the machine does next for a caller that has begun an execution and is not disturbed. */
  function FinishExecution(h: Host, ending: ExecutorReturn): Host {
    if 0 !in h.callers then h
    else if h.callers[0].Blocking? then Step(h, Block(0))
    else Step(h, ExecutorEnds(0, ending))
  }

  function ExecuteAlone(s: Store, p: TaskPacket, l: Lease, executorId: string,
                        ending: ExecutorReturn): Host {
    FinishExecution(Step(Alone(s), Execute(0, p, l, executorId)), ending)
  }

  /** The transport's answers, where the caller gets as far as asking for them. */
  function FinishTurn(h: Host, turn: TurnEnd): Host {
    if 0 !in h.callers then h
    else
      var t := Step(h, TurnEnds(0, turn));
      if 0 in t.callers then Step(t, MarkUnsettled(0)) else t
  }

  function FinishSubmission(h: Host, turn: TurnEnd): Host {
    if 0 !in h.callers then h else FinishTurn(Step(h, Submit(0)), turn)
  }

  function ContinueAlone(s: Store, c: Continuation, receipt: TerminalReceipt,
                         resume: Option<ResumeProof>, turn: TurnEnd): Host {
    var h := Step(Alone(s), Continue(0, c, receipt));
    if 0 !in h.callers then h else FinishSubmission(Step(h, Resumed(0, resume)), turn)
  }

  // ---------------------------------------------------------------- what a caller is told

  /** Why a started delivery is left unsettled: the transport's error, or the store's refusal of the
      turn it reported. */
  datatype TurnFault =
    | TurnError(errorType: string, message: string)
    | TurnRefused(code: FailureCode, detail: Detail)

  /** How `continue_existing` ends: `Undelivered` is a `ContinuationDeliveryFailure` with the contents
      of its detail digest, `Refused` a violation raised before the delivery, `Lost` any other error
      before it, and `Cut` an interruption after it. */
  datatype Continued =
    | Delivered(continuation: Continuation, acknowledgement: Acknowledgement)
    | Undelivered(continuation: Continuation, fault: TurnFault, turnRequestId: TurnId)
    | Refused(code: FailureCode, detail: Detail)
    | Lost
    | Cut

  /** The store's refusal, as the end of the caller's call. */
  function Refusal<T>(r: Result<T>): (f: Continued)
    requires !r.Ok?
  {
    match r
    case Rejected(code, detail) => Refused(code, detail)
    case Raised => Lost
  }

  function RaisedDetail(ending: ExecutorReturn): Detail {
    match ending
    case Malformed(_) => ExecutorResultMalformed
    case Signals(_) => ExecutorReportedFailure
    case Violates(_, _) => ExecutorCodeRejected
    case _ => ExecutorFailed
  }

  /** The code of the violation `execute` raises for a recorded failure. */
  function RaisedCode(p: TaskPacket, l: Lease, ending: ExecutorReturn): FailureCode {
    match ending
    case Signals(f) =>
      if f.body.packetId == p.id && f.body.leaseId == l.leaseId then f.body.code else StaleIdentity
    case Violates(code, _) => if ExecutorCode(code) then code else InvalidFailureCode
    case _ => ExecutorError
  }

  /** What `execute` tells its caller of an executor's end: the receipt or refusal of a result; of any
      other end the code now on record, or the store's refusal when nothing was recorded; of an
      interruption nothing. */
  ghost predicate EndIsReported(s: Store, t: Store, p: TaskPacket, l: Lease, ending: ExecutorReturn,
                                r: Result<TerminalReceipt>)
  {
    match OutcomeCall(p, l, ending)
    case None => t == s && r == Raised
    case Some(c) =>
      if c.DoResult? then r == RecordExecution(s, p, l, c.outcome).result
      else if c.DoFail? then
        var o := RecordExecutionFailure(s, p, l, c.code, c.evidence, c.observed, c.origin);
        if o.result.Ok? then
          && p.id !in s.work.failures && p.id in t.work.failures
          && r == Rejected(RaisedCode(p, l, ending), RaisedDetail(ending))
          && r.code == t.work.failures[p.id].body.code
        else t == s && r == Fail(o.result)
      else false
  }

  /** What `continue_existing` tells its caller of a delivery begun from `c`, and what it leaves. */
  ghost predicate TurnIsReported(s: Store, t: Store, c: Continuation, receipt: TerminalReceipt,
                                 turn: TurnEnd, r: Continued)
  {
    match r
    case Delivered(acked, ack) =>
      && turn.Turned? && acked == c.(state := Acknowledged) && IsCurrent(t.callbacks, acked)
      && ack.Authentic() && ack.base == AckBase(receipt.body.packetId, receipt.id,
                                                c.continuationId, turn.proof.id)
      && ack.acknowledgementId in t.callbacks.acks
      && t.callbacks.acks[ack.acknowledgementId] == ack
      && receipt.body.packetId in t.callbacks.ackOf
      && t.callbacks.ackOf[receipt.body.packetId] == ack
    case Undelivered(unsettled, fault, turnRequestId) =>
      && unsettled == c.(state := DeliveryUnsettled) && IsCurrent(t.callbacks, unsettled)
      && t.callbacks.acks == s.callbacks.acks && t.callbacks.ackOf == s.callbacks.ackOf
      && turnRequestId == c.turnRequestId
      && (if turn.TurnFailed? then fault == TurnError(turn.errorType, turn.message)
          else turn.Turned? && fault.TurnRefused? && !TurnCompletes(c, receipt, turn.proof))
    case Cut => turn.TurnInterrupted? && IsCurrent(t.callbacks, c.(state := DeliveryStarted))
    case _ => false
  }

  /** A completed turn of this delivery, with an authentic proof. */
  predicate TurnCompletes(c: Continuation, receipt: TerminalReceipt, proof: ConvergenceProof) {
    && proof.Authentic() && proof.body.completed && NonBlank(proof.body.completedTurnId)
    && proof.body.continuationId == c.continuationId && proof.body.receiptId == receipt.id
    && proof.body.destination == c.destination && proof.body.turnRequestId == c.turnRequestId
  }

  /** The delivery may begin: the continuation is the current prepared one of the stored receipt, and
      the transport resumed its destination. */
  predicate MayBegin(s: Store, c: Continuation, receipt: TerminalReceipt, resume: Option<ResumeProof>) {
    && IsCurrent(s.callbacks, c) && c.state == Prepared && c.receiptId == receipt.id
    && Authoritative(s.work, receipt) && resume.Some?
    && resume.value.continuationId == c.continuationId
    && resume.value.destination == c.destination && NonBlank(resume.value.resumeToken)
  }

  /** The least eligible route, kept while the routes are gone through from the last to the first. */
  method FirstInOrder(t: MissionLedger, m: Mission, key: string) returns (r: Option<Route>)
    ensures var routes := EligibleRoutes(t, m, key, m.routes);
      r == if routes == [] then None else Some(Least(routes))
  {
    hide Eligible, Before, EligibleRoutes, Least;
    r := None;
    var i := |m.routes|;
    assert EligibleRoutes(t, m, key, m.routes[i..]) == [] by { NoRoutes(t, m, key, m.routes[i..]); }
    while i > 0
      invariant i <= |m.routes|
      invariant var routes := EligibleRoutes(t, m, key, m.routes[i..]);
        r == if routes == [] then None else Some(Least(routes))
    {
      i := i - 1;
      RoutesFrom(t, m, key, m.routes, i);
      if Eligible(t, m, key, m.routes[i]) {
        LeastOfMore(m.routes[i], EligibleRoutes(t, m, key, m.routes[i + 1..]));
        if r.None? || !Before(r.value, m.routes[i]) { r := Some(m.routes[i]); }
      }
    }
    assert m.routes[0..] == m.routes;
  }

  lemma NoRoutes(t: MissionLedger, m: Mission, key: string, routes: seq<Route>)
    requires routes == []
    ensures EligibleRoutes(t, m, key, routes) == []
  {
  }

  lemma RoutesFrom(t: MissionLedger, m: Mission, key: string, routes: seq<Route>, i: nat)
    requires i < |routes|
    ensures EligibleRoutes(t, m, key, routes[i..])
            == var rest := EligibleRoutes(t, m, key, routes[i + 1..]);
               if Eligible(t, m, key, routes[i]) then [routes[i]] + rest else rest
  {
  }

  lemma LeastOfMore(r: Route, rest: seq<Route>)
    ensures Least([r] + rest) ==
            if rest == [] then r else if Before(Least(rest), r) then Least(rest) else r
  {
  }

  /** The store calls of an undisturbed `execute`. */
  lemma ExecuteAloneShape(s: Store, p: TaskPacket, l: Lease, executorId: string,
                          ending: ExecutorReturn)
    ensures var h := ExecuteAlone(s, p, l, executorId, ending);
      && 0 !in h.callers
      && h.store ==
         if executorId != p.body.executorId
         then TerminalizePreExecution(s, p, l, StaleIdentity, SelectedExecutorDiffers).store
         else match BeginExecution(s, p, l).result
              case Ok(_) => AfterCall(BeginExecution(s, p, l).store, OutcomeCall(p, l, ending))
              case Rejected(code, d) =>
                if code == StaleIdentity
                then TerminalizePreExecution(BeginExecution(s, p, l).store, p, l, code, d).store
                else BeginExecution(s, p, l).store
              case Raised => BeginExecution(s, p, l).store
  {
    hide BeginExecution, TerminalizePreExecution, OutcomeCall, RecordExecution,
         RecordExecutionFailure;
  }

  lemma FinishTurnShape(s: Store, started: Continuation, receipt: TerminalReceipt,
                        turn: TurnEnd)
    ensures var h := FinishTurn(Host(s, map[0 := Turning(started, receipt)], multiset{}), turn);
      && 0 !in h.callers
      && h.store ==
         match turn
         case TurnInterrupted => s
         case TurnFailed(_, _) => MarkDeliveryUnsettled(s, started, receipt).store
         case Turned(proof) =>
           var o := AcknowledgeDelivery(s, started, receipt, proof, DeliveryStarted);
           if o.result.Ok? then o.store else MarkDeliveryUnsettled(o.store, started, receipt).store
  {
    hide AcknowledgeDelivery, MarkDeliveryUnsettled;
  }

  lemma ContinueAloneShape(s: Store, c: Continuation, receipt: TerminalReceipt,
                           resume: Option<ResumeProof>, turn: TurnEnd)
    ensures var h := ContinueAlone(s, c, receipt, resume, turn);
      var begun := BeginDelivery(s, c, receipt);
      if && ValidatePreparedContinuation(s, c, receipt).Ok? && resume.Some?
         && ValidateResume(s, c, resume.value).Ok? && begun.result.Ok?
      then h == FinishTurn(Host(begun.store, map[0 := Turning(begun.result.value, receipt)],
                                multiset{}), turn)
      else 0 !in h.callers && h.store == s
  {
    hide FinishTurn, ValidatePreparedContinuation, ValidateResume, BeginDelivery, Step;
    ContinueStep(s, c, receipt);
    if ValidatePreparedContinuation(s, c, receipt).Ok? {
      ResumedStep(s, c, receipt, resume);
      if resume.Some? && ValidateResume(s, c, resume.value).Ok? {
        SubmitStep(s, c, receipt);
        FinishedStays(Step(Host(s, map[0 := Submitting(c, receipt)], multiset{}), Submit(0)), turn);
      }
    }
  }

  lemma ContinueStep(s: Store, c: Continuation, receipt: TerminalReceipt)
    ensures Step(Alone(s), Continue(0, c, receipt)) ==
            if ValidatePreparedContinuation(s, c, receipt).Ok?
            then Host(s, map[0 := Resuming(c, receipt)], multiset{}) else Alone(s)
  {
    hide ValidatePreparedContinuation;
  }

  lemma ResumedStep(s: Store, c: Continuation, receipt: TerminalReceipt, resume: Option<ResumeProof>)
    ensures Step(Host(s, map[0 := Resuming(c, receipt)], multiset{}), Resumed(0, resume)) ==
            if resume.Some? && ValidateResume(s, c, resume.value).Ok?
            then Host(s, map[0 := Submitting(c, receipt)], multiset{}) else Alone(s)
  {
    hide ValidateResume;
    assert map[0 := Resuming(c, receipt)][0 := Submitting(c, receipt)] == map[0 := Submitting(c, receipt)];
    assert map[0 := Resuming(c, receipt)] - {0} == map[];
  }

  lemma SubmitStep(s: Store, c: Continuation, receipt: TerminalReceipt)
    ensures var begun := BeginDelivery(s, c, receipt);
      Step(Host(s, map[0 := Submitting(c, receipt)], multiset{}), Submit(0)) ==
        if begun.result.Ok?
        then Host(begun.store, map[0 := Turning(begun.result.value, receipt)], multiset{})
        else Alone(s)
  {
    hide BeginDelivery;
    FailedDeliveryStays(s, c, receipt);
    assert map[0 := Submitting(c, receipt)] - {0} == map[];
    if BeginDelivery(s, c, receipt).result.Ok? {
      var started := BeginDelivery(s, c, receipt).result.value;
      assert map[0 := Submitting(c, receipt)][0 := Turning(started, receipt)]
          == map[0 := Turning(started, receipt)];
    }
  }

  lemma FinishedStays(h: Host, turn: TurnEnd)
    ensures 0 !in h.callers ==> FinishTurn(h, turn) == h
  {
    hide Step;
  }

  lemma FailedDeliveryStays(s: Store, c: Continuation, receipt: TerminalReceipt)
    ensures !BeginDelivery(s, c, receipt).result.Ok? ==> BeginDelivery(s, c, receipt).store == s
  {
  }

  // ---------------------------------------------------------------- the object

  class CollaborationHarness {
    const store: InMemoryStore

    constructor (store: InMemoryStore)
      ensures this.store == store
    {
      this.store := store;
    }

    /** The head of the eligible routes sorted by rank and route id. */
    method SelectRoute(m: Mission, key: string) returns (r: Option<Route>)
      ensures var routes := EligibleRoutes(store.State().truth, m, key, m.routes);
        r == if routes == [] then None else Some(Least(routes))
    {
      hide InMemoryStore.State;
      r := FirstInOrder(store.State().truth, m, key);
    }

    /** `plan`. */
    method PlanPacket(m: Mission, context: Option<ContextBinding>) returns (r: Result<TaskPacket>)
      modifies store
      ensures store.State() == Plan(old(store.State()), m, context).store
      ensures r == Plan(old(store.State()), m, context).result
      ensures old(store.Valid()) && MissionWellFormed(m) ==> store.Valid()
    {
      hide Inv, MissionWellFormed, FirstFalse, EligibleRoutes, Least, RegisterMission,
           InMemoryStore.State;
      var registered := store.RegisterMissionRecord(m);
      if !registered.Ok? { return Fail(registered); }
      var scan := store.FirstFalsePredicate(m);
      if !scan.Ok? { return Fail(scan); }
      if scan.value.None? { return Rejected(MissionIsComplete, AllSatisfied); }
      var key := scan.value.value.key;
      var route := SelectRoute(m, key);
      if route.None? { return Rejected(NoRoute, NoRouteLeft); }
      r := Ok(PacketFor(store.State(), m, key, route.value, context));
    }

    /** `execute`, the executor ending as told once it runs. */
    method ExecutePacket(p: TaskPacket, l: Lease, executorId: string, ending: ExecutorReturn)
      returns (r: Result<TerminalReceipt>)
      modifies store
      ensures store.State() == ExecuteAlone(old(store.State()), p, l, executorId, ending).store
      ensures 0 !in ExecuteAlone(old(store.State()), p, l, executorId, ending).callers
      ensures r.Ok? ==> Authoritative(store.State().work, r.value)
      ensures var begun := BeginExecution(old(store.State()), p, l);
        executorId == p.body.executorId && begun.result.Ok? ==>
          EndIsReported(begun.store, store.State(), p, l, ending, r)
      ensures old(store.Valid()) && EndingWellFormed(ending) ==> store.Valid()
    {
      hide Inv, EndIsReported, BeginExecution, TerminalizePreExecution, Apply, OutcomeCall, ExecuteAlone,
           EndingWellFormed, Authoritative, InMemoryStore.State;
      ExecuteAloneShape(store.State(), p, l, executorId, ending);
      if executorId != p.body.executorId {
        r := store.BlockPacket(p, l, StaleIdentity, SelectedExecutorDiffers);
        BlockIsAuthoritative(old(store.State()), p, l, StaleIdentity, SelectedExecutorDiffers);
        return;
      }
      var begun := store.BeginPacket(p, l);
      if !begun.Ok? {
        FailedBeginChangesNothing(old(store.State()), p, l);
        if begun.Rejected? && begun.code == StaleIdentity {
          r := store.BlockPacket(p, l, begun.code, begun.detail);
          BlockIsAuthoritative(old(store.State()), p, l, begun.code, begun.detail);
          return;
        }
        return Fail(begun);
      }
      r := EndExecution(p, l, ending);
    }

    /** What `execute` does with the executor's end, and what it tells its caller. */
    method EndExecution(p: TaskPacket, l: Lease, ending: ExecutorReturn)
      returns (r: Result<TerminalReceipt>)
      modifies store
      ensures store.State() == AfterCall(old(store.State()), OutcomeCall(p, l, ending))
      ensures r.Ok? ==> Authoritative(store.State().work, r.value)
      ensures EndIsReported(old(store.State()), store.State(), p, l, ending, r)
      ensures old(store.Valid()) && EndingWellFormed(ending) ==> store.Valid()
    {
      hide Inv, RecordExecution, RecordExecutionFailure, ResultWellFormed, EvidenceText,
           FailureCodeAllowed, Authoritative, InMemoryStore.State;
      ghost var told := OutcomeCall(p, l, ending);
      if told.Some? && told.value.DoFail? {
        NewFailure(store.State(), p, l, told.value.code, told.value.evidence, told.value.observed,
                   told.value.origin);
      }
      match ending {
        case Returned(result) =>
          r := store.RecordResult(p, l, result);
          ResultIsAuthoritative(old(store.State()), p, l, result);
        case Malformed(typeName) =>
          var failed := store.RecordFailure(p, l, ExecutorError, MalformedResult(typeName), None,
                                            HarnessOrigin);
          r := if failed.Ok? then Rejected(ExecutorError, ExecutorResultMalformed) else Fail(failed);
        case Signals(f) =>
          var code, detail := f.body.code, f.body.detailDigest;
          if f.body.packetId != p.id || f.body.leaseId != l.leaseId {
            code, detail := StaleIdentity, SignalMismatch(f.body.detailDigest);
          }
          var failed := store.RecordFailure(p, l, code, detail, f.body.observedEffectId,
                                            ExecutorOrigin);
          r := if failed.Ok? then Rejected(code, ExecutorReportedFailure) else Fail(failed);
        case Violates(raised, message) =>
          var code := if ExecutorCode(raised) then raised else InvalidFailureCode;
          var failed := store.RecordFailure(p, l, code, RejectedExecutorCode(raised, message), None,
                                            ExecutorOrigin);
          r := if failed.Ok? then Rejected(code, ExecutorCodeRejected) else Fail(failed);
        case Raises(errorType, message) =>
          var failed := store.RecordFailure(p, l, ExecutorError,
                                            ExecutorException(errorType, message), None,
                                            ExecutorOrigin);
          r := if failed.Ok? then Rejected(ExecutorError, ExecutorFailed) else Fail(failed);
        case Interrupted =>
          r := Raised;
      }
    }

    /** `continue_existing`, the transport answering as told where it is asked.  Once the delivery may
        begin it ends as reported; otherwise nothing changes and the refusal is the store's own. */
    method ContinueExisting(c: Continuation, receipt: TerminalReceipt, resume: Option<ResumeProof>,
                            turn: TurnEnd)
      returns (r: Continued)
      modifies store
      ensures store.State() == ContinueAlone(old(store.State()), c, receipt, resume, turn).store
      ensures 0 !in ContinueAlone(old(store.State()), c, receipt, resume, turn).callers
      ensures if MayBegin(old(store.State()), c, receipt, resume)
              then TurnIsReported(old(store.State()), store.State(), c, receipt, turn, r)
              else (r.Refused? || r.Lost?) && store.State() == old(store.State())
      ensures old(store.Valid()) ==> store.Valid()
    {
      hide Inv, ValidatePreparedContinuation, ValidateResume, ContinueAlone, FinishTurn,
           TurnIsReported, MayBegin, InMemoryStore.State;
      ContinueAloneShape(store.State(), c, receipt, resume, turn);
      ghost var s := store.State();
      BeginsIff(s, c, receipt, resume);
      var checked := store.CheckPrepared(c, receipt);
      if !checked.Ok? { return Refusal(checked); }
      if resume.None? { return Lost; }
      var prepared := store.CheckResume(c, resume.value);
      if !prepared.Ok? { return Refusal(prepared); }
      var begun := store.StartDelivery(prepared.value, receipt);
      r := EndTurn(begun.value, receipt, turn);
      BegunReports(s, c, begun.value, receipt, store.State(), turn, r);
    }

    /** The turn's end is recorded whatever it was, unless the caller is interrupted. */
    method EndTurn(started: Continuation, receipt: TerminalReceipt, turn: TurnEnd)
      returns (r: Continued)
      requires IsCurrent(store.State().callbacks, started) && started.state == DeliveryStarted
      requires started.receiptId == receipt.id
      modifies store
      ensures var h := Host(old(store.State()), map[0 := Turning(started, receipt)], multiset{});
        && store.State() == FinishTurn(h, turn).store && 0 !in FinishTurn(h, turn).callers
      ensures TurnIsReported(old(store.State()), store.State(), started, receipt, turn, r)
      ensures old(store.Valid()) ==> store.Valid()
    {
      hide Inv, AcknowledgeDelivery, FinishTurn, InMemoryStore.State, TurnCompletes;
      FinishTurnShape(store.State(), started, receipt, turn);
      ghost var s := store.State();
      var fault: TurnFault;
      match turn {
        case TurnInterrupted => return Cut;
        case TurnFailed(errorType, message) => fault := TurnError(errorType, message);
        case Turned(proof) =>
          var acked := store.Acknowledge(started, receipt, proof, DeliveryStarted);
          AcknowledgesIff(s, started, receipt, proof);
          if acked.Ok? { return Delivered(acked.value.0, acked.value.1); }
          FailedAcknowledgementStays(s, started, receipt, proof);
          fault := TurnRefused(acked.code, acked.detail);
      }
      var unsettled := store.MarkUnsettled(started, receipt);
      r := Undelivered(unsettled.value, fault, started.turnRequestId);
    }
  }

  // ---------------------------------------------------------------- facts about single calls

  /** The three checks before a delivery accept exactly the continuations from which it may begin. */
  lemma BeginsIff(s: Store, c: Continuation, receipt: TerminalReceipt, resume: Option<ResumeProof>)
    ensures MayBegin(s, c, receipt, resume) <==>
            && ValidatePreparedContinuation(s, c, receipt).Ok? && resume.Some?
            && ValidateResume(s, c, resume.value).Ok?
    ensures resume.Some? && ValidateResume(s, c, resume.value).Ok? ==>
              ValidateResume(s, c, resume.value).value == c
    ensures ValidatePreparedContinuation(s, c, receipt).Ok? ==> BeginDelivery(s, c, receipt).result.Ok?
  {
  }

  lemma NewFailure(s: Store, p: TaskPacket, l: Lease, code: FailureCode, e: Evidence,
                   seen: Option<string>, origin: FailureOrigin)
    ensures var o := RecordExecutionFailure(s, p, l, code, e, seen, origin);
      if o.result.Ok?
      then && p.id !in s.work.failures && p.id in o.store.work.failures
           && o.store.work.failures[p.id].body.code == code
      else o.store == s
  {
    hide HoldsLease, EvidenceText, FailureCodeAllowed;
  }

  lemma BegunReports(s: Store, c: Continuation, started: Continuation, receipt: TerminalReceipt,
                     t: Store, turn: TurnEnd, r: Continued)
    requires BeginDelivery(s, c, receipt).result == Ok(started)
    requires TurnIsReported(BeginDelivery(s, c, receipt).store, t, started, receipt, turn, r)
    ensures TurnIsReported(s, t, c, receipt, turn, r)
  {
  }

  lemma AcknowledgesIff(s: Store, n: Continuation, receipt: TerminalReceipt, proof: ConvergenceProof)
    requires IsCurrent(s.callbacks, n) && n.state == DeliveryStarted && n.receiptId == receipt.id
    ensures var o := AcknowledgeDelivery(s, n, receipt, proof, DeliveryStarted);
      && !o.result.Raised? && (o.result.Ok? <==> TurnCompletes(n, receipt, proof))
      && (o.result.Ok? ==>
            TurnIsReported(s, o.store, n, receipt, Turned(proof),
                           Delivered(o.result.value.0, o.result.value.1)))
  {
    hide NonBlank;
  }

  lemma BlockIsAuthoritative(s: Store, p: TaskPacket, l: Lease, code: FailureCode, d: Detail)
    ensures var o := TerminalizePreExecution(s, p, l, code, d);
      o.result.Ok? ==> Authoritative(o.store.work, o.result.value)
  {
  }

  lemma ResultIsAuthoritative(s: Store, p: TaskPacket, l: Lease, r: ExecutionResult)
    ensures var o := RecordExecution(s, p, l, r);
      o.result.Ok? ==> Authoritative(o.store.work, o.result.value)
  {
    hide HoldsLease, HasUnsettledStep, RecordExecutionFailure;
  }

  lemma FailedAcknowledgementStays(s: Store, n: Continuation, receipt: TerminalReceipt,
                                   proof: ConvergenceProof)
    requires !AcknowledgeDelivery(s, n, receipt, proof, DeliveryStarted).result.Ok?
    ensures AcknowledgeDelivery(s, n, receipt, proof, DeliveryStarted).store == s
  {
  }
}
