/** Short concrete plays in which an executor's end, a delivery or an adapter's report is lost. */
module HarnessWitnesses {
  import opened Records
  import opened StoreSpec
  import opened Cycle
  import opened Witnesses
  import opened Harness
  import opened HarnessSafety
  import opened HostSafety
  import opened HarnessTheorems
  import opened TuraAdapter

  const CLAIMS: seq<Event> := [Api(DoRegister(MISSION)), Api(DoClaim(PACKET))]
  const EXECUTES: seq<Event> := CLAIMS + [Execute(0, PACKET, LEASE, "x")]
  const RUNNING: Host :=
    Host(Cycle.Started(REGISTERED, PACKET), map[0 := Executing(PACKET, LEASE)], multiset{PACKET.id})

  lemma PlayMore(events: seq<Event>, e: Event)
    ensures Play(events + [e]) == Step(Play(events), e)
    ensures AllEventsWellFormed(events) && EventWellFormed(e) ==> AllEventsWellFormed(events + [e])
  {
    hide Step, EventWellFormed;
    assert (events + [e])[..|events|] == events;
  }

  lemma ClaimsPlay()
    ensures AllEventsWellFormed(CLAIMS)
    ensures Play(CLAIMS) == Host(Claimed(REGISTERED, PACKET), map[], multiset{})
  {
    hide PACKET, Claim, MissionWellFormed, MISSION, RegisterMission;
    MissionIsWellFormed();
    PlayMore([], Api(DoRegister(MISSION)));
    PlayMore([Api(DoRegister(MISSION))], Api(DoClaim(PACKET)));
    assert [] + [Api(DoRegister(MISSION))] == [Api(DoRegister(MISSION))];
    assert [Api(DoRegister(MISSION))] + [Api(DoClaim(PACKET))] == CLAIMS;
  }

  lemma ExecutionRuns()
    ensures AllEventsWellFormed(EXECUTES) && Play(EXECUTES) == RUNNING
  {
    hide PACKET, Claim, BeginExecution, Cycle.Started, LeaseFor, ValidateClaim, HoldsLease;
    ClaimsPlay();
    StartIsGranted();
    ExecutorIsX();
    PlayMore(CLAIMS, Execute(0, PACKET, LEASE, "x"));
  }

  lemma ExecutorIsX()
    ensures PACKET.body.executorId == "x" && PACKET.body.context.None?
  {
  }

  // ---------------------------------------------------------------- lost outcomes

  /** A signal of the packet's own under a code the harness keeps to itself. */
  const RESERVED: ExecutorReturn :=
    Signals(Seal(FailureBody(PACKET.id, LEASE.leaseId, DuplicateOrReplay, Given("detail"), None,
                             HarnessOrigin)))
  const STEPS: seq<Event> := EXECUTES + [Api(DoStep(PACKET, LEASE, STEP))]

  lemma ReservedIsWellFormed()
    ensures EndingWellFormed(RESERVED) && !Recordable(RUNNING.store, PACKET, LEASE, RESERVED)
  {
    hide PACKET, LeaseFor;
    assert "detail"[0] == 'd';
  }

  lemma EndOrphans(events: seq<Event>, r: ExecutorReturn)
    requires AllEventsWellFormed(events) && EndingWellFormed(r)
    requires 0 in Play(events).callers && Play(events).callers[0] == Executing(PACKET, LEASE)
    requires !Recordable(Play(events).store, PACKET, LEASE, r)
    ensures AllEventsWellFormed(events + [ExecutorEnds(0, r)])
    ensures Orphaned(Play(events + [ExecutorEnds(0, r)]), PACKET.id)
  {
    hide Step, PACKET, LeaseFor, EndingWellFormed, Recordable, Orphaned;
    PlayMore(events, ExecutorEnds(0, r));
    var h := PlayHasHistory(events);
    UnrecordedOutcomeOrphans(h, events, |events|, 0, r);
  }

  /** Each of the three ends that are not recorded happens in some play, and leaves an orphan
      (`OrphansNeverClose`): a reserved code, an interruption, a result over an open step. */
  lemma OrphansHappen()
    ensures AllEventsWellFormed(EXECUTES + [ExecutorEnds(0, RESERVED)])
    ensures Orphaned(Play(EXECUTES + [ExecutorEnds(0, RESERVED)]), PACKET.id)
    ensures AllEventsWellFormed(EXECUTES + [ExecutorEnds(0, Interrupted)])
    ensures Orphaned(Play(EXECUTES + [ExecutorEnds(0, Interrupted)]), PACKET.id)
    ensures AllEventsWellFormed(STEPS + [ExecutorEnds(0, Returned(RESULT))])
    ensures Orphaned(Play(STEPS + [ExecutorEnds(0, Returned(RESULT))]), PACKET.id)
  {
    hide PACKET, LeaseFor, Cycle.Started, RESERVED, RESULT, Orphaned, HasUnsettledStep, STEP,
         RecordStepAttempt, EndingWellFormed, Play, AllEventsWellFormed;
    ExecutionRuns();
    ReservedIsWellFormed();
    EndOrphans(EXECUTES, RESERVED);
    InterruptionIsLost();
    EndOrphans(EXECUTES, Interrupted);
    OpenStepIsLost();
    EndOrphans(STEPS, Returned(RESULT));
  }

  lemma InterruptionIsLost()
    ensures EndingWellFormed(Interrupted) && !Recordable(RUNNING.store, PACKET, LEASE, Interrupted)
  {
  }

  lemma OpenStepIsLost()
    ensures AllEventsWellFormed(STEPS) && 0 in Play(STEPS).callers
    ensures Play(STEPS).callers[0] == Executing(PACKET, LEASE)
    ensures EndingWellFormed(Returned(RESULT))
    ensures !Recordable(Play(STEPS).store, PACKET, LEASE, Returned(RESULT))
  {
    hide PACKET, LeaseFor, Cycle.Started, RecordStepAttempt, HasUnsettledStep, ResultWellFormed,
         StepWellFormed, ValidateClaim, HoldsLease, RESULT;
    ExecutionRuns();
    StepIsText();
    ResultIsWellFormed();
    StartIsGranted();
    NothingStepped();
    PlayMore(EXECUTES, Api(DoStep(PACKET, LEASE, STEP)));
    StepStaysOpen(RUNNING.store, PACKET, LEASE, STEP);
  }

  // ---------------------------------------------------------------- lost reports

  /** Naming gives every identity a text. */
  ghost predicate NamesAreText(names: Naming) {
    && NonBlank(names.packet(PACKET.id)) && NonBlank(names.lease(LEASE.leaseId))
    && forall id: RequestId :: NonBlank(names.request(id))
  }

  function RequestFor(): (r: Request)
    ensures BuildRequest(PACKET, LEASE) == Request(r)
  {
    BuildRequest(PACKET, LEASE).request
  }

  /** A failure envelope of the client's own making, sound but for a white-space detail. */
  function BlankFailure(names: Naming): Envelope {
    Envelope(PROTOCOL_VERSION, names.request(RequestFor().id), names.packet(PACKET.id),
             names.lease(LEASE.leaseId), "x", FailureKind, Settled, Some("e"), "output", false,
             Some(StaleIdentity), Some(" "))
  }

  /** A result envelope of the client's own making, sound but for a white-space effect. */
  function BlankResult(names: Naming): Envelope {
    Envelope(PROTOCOL_VERSION, names.request(RequestFor().id), names.packet(PACKET.id),
             names.lease(LEASE.leaseId), "x", ResultKind, Settled, Some(" "), "output", true, None,
             None)
  }

  lemma BlanksAreSound(names: Naming)
    requires NamesAreText(names)
    ensures CheckEnvelope(BlankFailure(names)) == Sound && CheckEnvelope(BlankResult(names)) == Sound
    ensures BlankDetail(names, "x", PACKET, LEASE, Object(BlankFailure(names)))
    ensures BlankEffect(names, "x", PACKET, LEASE, Object(BlankResult(names)))
  {
    hide PROTOCOL_VERSION, LeaseFor, BuildRequest, RequestFor, PACKET;
    var r := RequestFor();
    TextsAreText();
    ExecutorIsX();
    RequestNames();
  }

  lemma RequestNames()
    ensures RequestFor().body.packetId == PACKET.id && RequestFor().body.leaseId == LEASE.leaseId
    ensures RequestFor().body.executorId == "x"
  {
    hide LeaseFor;
  }

  lemma BlankDispatch(names: Naming)
    requires NamesAreText(names)
    ensures var o := Dispatch(names, "x", PACKET, LEASE, Object(BlankFailure(names)));
      && o.Failure? && o.failure.body.code == StaleIdentity
      && o.failure.body.observedEffectId == Some("e")
  {
    hide PROTOCOL_VERSION, LeaseFor, BuildRequest, PACKET, NonBlank;
    BlanksAreSound(names);
    ExecutorIsX();
  }

  /** The adapter's two lossy replies in a play: a failure that names its code and effect, and a
      result, both end on record as an unexplained error without an effect. */
  lemma BlankReportsAreLost(names: Naming, e: Envelope)
    requires NamesAreText(names) && (e == BlankFailure(names) || e == BlankResult(names))
    ensures ReplyWellFormed(Object(e))
    ensures var o := Dispatch(names, "x", PACKET, LEASE, Object(e));
            var w := Play(EXECUTES + [ExecutorEnds(0, Ending(PACKET, LEASE, o))]).store.work;
      && (if e == BlankFailure(names)
          then o.Failure? && o.failure.body.code == StaleIdentity
               && o.failure.body.observedEffectId == Some("e")
          else o.Escaped?)
      && PACKET.id in w.failures && w.failures[PACKET.id].body.code == ExecutorError
      && w.failures[PACKET.id].body.observedEffectId == None
  {
    hide PACKET, LeaseFor, Cycle.Started, Dispatch, Ending, Step, CheckEnvelope, BlankFailure,
         BlankResult, BlankDetail, BlankEffect, Play, Report, EventWellFormed;
    BlanksAreSound(names);
    BlankDispatch(names);
    ExecutionRuns();
    var h := PlayHasHistory(EXECUTES);
    var o := Dispatch(names, "x", PACKET, LEASE, Object(e));
    PlayMore(EXECUTES, ExecutorEnds(0, Ending(PACKET, LEASE, o)));
    DispatchEscapesIff(names, "x", PACKET, LEASE, Object(e));
    AdapterOutcomeIsKept(h, EXECUTES, |EXECUTES|, 0, names, "x", Object(e));
  }

  // ---------------------------------------------------------------- an unattended delivery

  const RETURNS: seq<Event> := EXECUTES + [ExecutorEnds(0, Returned(RESULT))]
  const PREPARES: seq<Event> := RETURNS + [Api(DoPrepare(RECEIPT))]
  const CONTINUES: seq<Event> := PREPARES + [Continue(0, PREPARED, RECEIPT)]
  const RESUMES: seq<Event> := CONTINUES + [Resumed(0, Some(ResumeOf(PREPARED, WORLD)))]
  const SUBMITS: seq<Event> := RESUMES + [Submit(0)]
  const INTERRUPTED: seq<Event> := SUBMITS + [TurnEnds(0, TurnInterrupted)]

  /** What `PrepareContinuation` returned passes every check up to the delivery. */
  lemma PreparedMayBegin(s: Store, receipt: TerminalReceipt, d: Destination, w: Outside)
    requires Authoritative(s.work, receipt) && s.callbacks == EMPTY.callbacks
    requires receipt.body.packetId in s.claims.packets
    requires s.claims.packets[receipt.body.packetId].body.destination == d
    requires NonBlank(w.resumeToken)
    ensures var n := ContinuationFor(receipt.id, d);
            var a := PrepareContinuation(s, receipt).store;
      && ValidatePreparedContinuation(a, n, receipt).Ok?
      && ValidateResume(a, n, ResumeOf(n, w)).Ok?
      && BeginDelivery(a, n, receipt).result == Ok(n.(state := DeliveryStarted))
  {
    hide NonBlank;
  }

  lemma ResultReturns()
    ensures AllEventsWellFormed(PREPARES)
    ensures Play(PREPARES) == Host(PrepareContinuation(EXECUTED, RECEIPT).store, map[],
                                   multiset{PACKET.id})
  {
    hide PACKET, LeaseFor, Cycle.Started, RESULT, RECEIPT, EXECUTED, PrepareContinuation,
         RecordExecution, ResultWellFormed;
    ExecutionRuns();
    ResultIsWellFormed();
    ExecutedIsApply();
    PlayMore(EXECUTES, ExecutorEnds(0, Returned(RESULT)));
    assert map[0 := Executing(PACKET, LEASE)] - {0} == map[];
    PlayMore(RETURNS, Api(DoPrepare(RECEIPT)));
  }

  /** An undisturbed caller gets from the check to the turn. */
  lemma DeliveryBegins(events: seq<Event>, s: Store, ran: multiset<PacketId>, n: Continuation,
                       receipt: TerminalReceipt, proof: ResumeProof)
    requires AllEventsWellFormed(events) && Play(events) == Host(s, map[], ran)
    requires ValidatePreparedContinuation(s, n, receipt).Ok? && ValidateResume(s, n, proof).Ok?
    requires BeginDelivery(s, n, receipt).result == Ok(n.(state := DeliveryStarted))
    ensures var more := events + [Continue(0, n, receipt)] + [Resumed(0, Some(proof))] + [Submit(0)];
      && AllEventsWellFormed(more) && 0 in Play(more).callers
      && Play(more).callers[0] == Turning(n.(state := DeliveryStarted), receipt)
  {
    hide ValidatePreparedContinuation, ValidateResume, BeginDelivery, Play, AllEventsWellFormed;
    PlayMore(events, Continue(0, n, receipt));
    PlayMore(events + [Continue(0, n, receipt)], Resumed(0, Some(proof)));
    PlayMore(events + [Continue(0, n, receipt)] + [Resumed(0, Some(proof))], Submit(0));
  }

  /** A turn interrupted in a play leaves its delivery started with nobody to record its end. */
  lemma UnattendedHappens()
    ensures AllEventsWellFormed(INTERRUPTED)
    ensures Unattended(Play(INTERRUPTED), PREPARED.continuationId)
  {
    hide PACKET, RECEIPT, EXECUTED, ContinuationFor, Play, AllEventsWellFormed, PrepareContinuation,
         ValidatePreparedContinuation, ValidateResume, BeginDelivery, HostInv, Step, Unattended,
         MISSION, Authoritative, NonBlank, ResumeOf;
    ExecutionSucceeds();
    ForeignNamesPacket();
    TextsAreText();
    ResultReturns();
    PreparedMayBegin(EXECUTED, RECEIPT, MISSION.destination, WORLD);
    DeliveryBegins(PREPARES, PrepareContinuation(EXECUTED, RECEIPT).store, multiset{PACKET.id},
                   PREPARED, RECEIPT, ResumeOf(PREPARED, WORLD));
    PlayKeepsHost(SUBMITS);
    PlayMore(SUBMITS, TurnEnds(0, TurnInterrupted));
    CutIsUnattended(Play(SUBMITS), TurnEnds(0, TurnInterrupted), PREPARED.continuationId);
  }
}
