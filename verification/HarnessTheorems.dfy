/** What the harness guarantees of every play, and what it does not. */
module HarnessTheorems {
  import opened Records
  import opened StoreSpec
  import opened StoreInvariant
  import opened StoreSafety
  import opened Frames
  import opened Delivery
  import opened Closing
  import opened Stranding
  import opened Harness
  import opened HarnessSafety
  import opened HostSafety

  lemma HostParts(h: Host)
    requires HostInv(h)
    ensures Inv(h.store) && OutcomesInv(h.store.work) && AcksInv(h.store.work, h.store.callbacks)
    ensures RanOnce(h.ran, h.store.work.started)
    ensures CallersFit(h.store, h.callers) && CallersApart(h.callers)
  {
    hide Inv, OutcomesInv, AcksInv, RanOnce, CallersFit, CallersApart;
  }

  // ---------------------------------------------------------------- one-shot execution

  /** A packet's executor runs at most once, and exactly once when it was started; its receipt is
      BLOCKED exactly when the executor never ran. */
  lemma ExecutorRunsAtMostOnce(h: seq<Host>, events: seq<Event>, n: nat, pid: PacketId)
    requires IsPlay(h, events) && n <= |events|
    ensures var g := h[n];
      && g.ran[pid] <= 1
      && (g.ran[pid] == 1 <==> pid in g.store.work.started)
      && (pid in g.store.work.receiptOf ==>
            (g.store.work.receiptOf[pid].body.status == Blocked <==> g.ran[pid] == 0))
  {
    hide Step, EventWellFormed, HostInv, Inv, OutcomesInv, AcksInv, CallersFit, CallersApart,
         TruthInv, ClaimsInv, StepsInv, RecoveryInv, CallbacksInv, PacketsHaveMissions,
         ReceiptsIndexed, AttemptsFit, FailuresFit, Partitioned, StartedFit, RecoveryStepsInv;
    PlayedHostHolds(h, events, n);
    var g := h[n];
    HostParts(g);
    InvParts(g.store);
    if pid in g.store.work.receiptOf { assert ReceiptFits(g.store.claims, g.store.work, pid); }
  }

  /** A packet has a result or a failure on record, never both. */
  lemma AttemptOrFailure(h: seq<Host>, events: seq<Event>, n: nat, pid: PacketId)
    requires IsPlay(h, events) && n <= |events|
    ensures !(pid in h[n].store.work.attempts && pid in h[n].store.work.failures)
  {
    hide Step, EventWellFormed, HostInv, Inv, OwnersFit, AcksInv, CallersFit, CallersApart;
    PlayedHostHolds(h, events, n);
    HostParts(h[n]);
  }

  // ---------------------------------------------------------------- acknowledgements and delivery

  /** In the harness the acknowledgement correspondence needs no side condition. */
  lemma HarnessAcknowledgesOneToOne(h: seq<Host>, events: seq<Event>, n: nat)
    requires IsPlay(h, events) && n <= |events|
    ensures AcknowledgedOneToOne(h[n].store)
  {
    hide Step, EventWellFormed, HostInv, Inv, OutcomesInv, AcksInv, CallersFit, CallersApart,
         TruthInv, ClaimsInv, StepsInv, RecoveryInv, CallbacksInv, PacketsHaveMissions,
         ReceiptsIndexed, AttemptsFit, FailuresFit, Partitioned, StartedFit, RecoveryStepsInv,
         ReceiptsFit, AcknowledgedOneToOne;
    PlayedHostHolds(h, events, n);
    HostParts(h[n]);
    InvParts(h[n].store);
    CorrespondenceHolds(h[n].store);
  }

  /** The end of a started turn is recorded unless the caller is interrupted: the delivery is
      acknowledged, or the caller goes on to mark it unsettled, and that mark cannot fail.  An
      interrupted turn leaves the store as it is and nobody in charge. */
  lemma TurnsAlwaysLand(h: seq<Host>, events: seq<Event>, n: nat, k: nat, turn: TurnEnd)
    requires IsPlay(h, events) && n <= |events| && k in h[n].callers
    ensures var g := h[n];
      g.callers[k].Turning? ==>
        var t := Step(g, TurnEnds(k, turn));
        if turn.TurnInterrupted? then k !in t.callers && t.store == g.store
        else if k in t.callers
        then t.callers[k] == Marking(g.callers[k].continuation, g.callers[k].receipt)
        else IsCurrent(t.store.callbacks, g.callers[k].continuation.(state := Acknowledged))
    ensures var g := h[n];
      g.callers[k].Marking? ==>
        var t := Step(g, MarkUnsettled(k));
        && k !in t.callers
        && IsCurrent(t.store.callbacks, g.callers[k].continuation.(state := DeliveryUnsettled))
  {
    hide Step, EventWellFormed, HostInv, Inv, OutcomesInv, AcksInv, RanOnce, CallersApart;
    PlayedHostHolds(h, events, n);
    var g := h[n];
    HostParts(g);
    assert PhaseFits(g.store, g.callers[k]);
    if g.callers[k].Turning? {
      TurnLands(g, k, turn);
    } else if g.callers[k].Marking? {
      MarkLands(g, k);
    }
  }

  lemma TurnLands(h: Host, k: nat, turn: TurnEnd)
    requires k in h.callers && h.callers[k].Turning?
    ensures var t := Step(h, TurnEnds(k, turn));
      if turn.TurnInterrupted? then k !in t.callers && t.store == h.store
      else if k in t.callers
      then t.callers[k] == Marking(h.callers[k].continuation, h.callers[k].receipt)
      else IsCurrent(t.store.callbacks, h.callers[k].continuation.(state := Acknowledged))
  {
    hide NonBlank;
  }

  lemma MarkLands(h: Host, k: nat)
    requires k in h.callers && h.callers[k].Marking?
    requires TurnFits(h.store, h.callers[k].continuation, h.callers[k].receipt)
    ensures var t := Step(h, MarkUnsettled(k));
      && k !in t.callers
      && IsCurrent(t.store.callbacks, h.callers[k].continuation.(state := DeliveryUnsettled))
  {
    hide Authoritative;
  }

  ghost predicate TakesTurn(h: Host, k: nat, id: ContinuationId) {
    k in h.callers && InTurn(h.callers[k]) && h.callers[k].continuation.continuationId == id
  }

  ghost predicate Started(h: Host, id: ContinuationId) {
    && id in h.store.callbacks.continuations
    && h.store.callbacks.continuations[id].state == DeliveryStarted
  }

  /** A started delivery whose end nobody is going to record. */
  ghost predicate Unattended(h: Host, id: ContinuationId) {
    Started(h, id) && !exists k :: TakesTurn(h, k, id)
  }

  /** The event interrupts the caller in charge of the delivery. */
  ghost predicate CutsTurn(h: Host, e: Event, id: ContinuationId) {
    && Enabled(h, e) && (e.Interrupt? || (e.TurnEnds? && e.turn.TurnInterrupted?))
    && TakesTurn(h, e.caller, id)
  }

  lemma StepsToStarted(s: Store, c: Call, id: ContinuationId)
    requires Inv(s)
    requires var x := Apply(s, c).callbacks.continuations; id in x && x[id].state == DeliveryStarted
    ensures || (c.DoDeliver? && c.continuation.continuationId == id
                && BeginDelivery(s, c.continuation, c.receipt).result.Ok?)
            || (id in s.callbacks.continuations
                && s.callbacks.continuations[id].state == DeliveryStarted)
  {
    hide Inv, Authoritative, AbsenceExact, NonBlank, AckFor;
    if TouchesCallbacks(c) {
    } else {
      hide Apply;
      ApplyFrame(s, c);
    }
  }

  lemma AttendedAfter(h: Host, e: Event, id: ContinuationId)
    requires Enabled(h, e) && CallersFit(h.store, h.callers)
    requires !Unattended(h, id) && !CutsTurn(h, e, id) && Started(Step(h, e), id)
    requires CallOf(h, e).Some? ==>
               || (CallOf(h, e).value.DoDeliver? && CallOf(h, e).value.continuation.continuationId == id
                   && BeginDelivery(h.store, CallOf(h, e).value.continuation,
                                    CallOf(h, e).value.receipt).result.Ok?)
               || Started(h, id)
    ensures exists k :: TakesTurn(Step(h, e), k, id)
  {
    hide CallersFit, BeginExecution, AcknowledgeAfterConvergence, MarkDeliveryUnsettled, Apply,
         ValidatePreparedContinuation, ValidateResume, IsCurrent, Authoritative;
    if e.Submit? && h.callers[e.caller].continuation.continuationId == id
       && BeginDelivery(h.store, h.callers[e.caller].continuation, h.callers[e.caller].receipt).result.Ok?
    {
      assert TakesTurn(Step(h, e), e.caller, id);
    } else {
      var k :| TakesTurn(h, k, id);
      if !e.Api? && e.caller == k {
        assert PhaseFits(h.store, h.callers[k]) by { PhaseOf(h, k); }
        OwnTurnGoesOn(h, e, k, id);
      } else {
        assert TakesTurn(Step(h, e), k, id);
      }
    }
  }

  lemma PhaseOf(h: Host, k: nat)
    requires CallersFit(h.store, h.callers) && k in h.callers
    ensures PhaseFits(h.store, h.callers[k])
  {
  }

  lemma OwnTurnGoesOn(h: Host, e: Event, k: nat, id: ContinuationId)
    requires Enabled(h, e) && !e.Api? && e.caller == k && TakesTurn(h, k, id)
    requires PhaseFits(h.store, h.callers[k]) && !CutsTurn(h, e, id) && Started(Step(h, e), id)
    ensures TakesTurn(Step(h, e), k, id)
  {
    if e.TurnEnds? { TurnLands(h, k, e.turn); } else { MarkLands(h, k); }
    hide Step, CallOf, NextPhase;
  }

  /** A started delivery nobody is in charge of stays one: only its own caller acknowledges it or
      marks it unsettled, and nothing else moves a started delivery. */
  lemma UnattendedStays(h: Host, e: Event, id: ContinuationId)
    requires HostInv(h) && EventWellFormed(e) && Enabled(h, e) && Unattended(h, id)
    ensures Unattended(Step(h, e), id)
  {
    hide HostInv, Inv, OutcomesInv, AcksInv, RanOnce, CallersFit, CallersApart, Apply, IsCurrent,
         BeginDelivery, BeginExecution, AcknowledgeAfterConvergence, MarkDeliveryUnsettled,
         ValidatePreparedContinuation, ValidateResume, EventWellFormed, TakesTurn, Step;
    HostParts(h);
    StartedStaysStarted(h, e, id);
    forall k | TakesTurn(Step(h, e), k, id) ensures TakesTurn(h, k, id) {
      TurnsAreTaken(h, e, k, id);
    }
  }

  /** Nobody begins a delivery that has been started. */
  lemma TurnsAreTaken(h: Host, e: Event, k: nat, id: ContinuationId)
    requires Enabled(h, e) && Started(h, id) && TakesTurn(Step(h, e), k, id)
    ensures TakesTurn(h, k, id)
  {
    hide Apply, BeginDelivery, BeginExecution, AcknowledgeAfterConvergence, MarkDeliveryUnsettled,
         ValidatePreparedContinuation, ValidateResume;
    if e.Submit? && k == e.caller {
      var phase := h.callers[k];
      if BeginDelivery(h.store, phase.continuation, phase.receipt).result.Ok? {
        BegunTurnFits(h.store, phase.continuation, phase.receipt);
      }
    }
  }

  lemma StartedStaysStarted(h: Host, e: Event, id: ContinuationId)
    requires Inv(h.store) && EventWellFormed(e) && Enabled(h, e) && Unattended(h, id)
    ensures Started(Step(h, e), id)
  {
    hide Inv, Apply, EventWellFormed, NextPhase;
    if CallOf(h, e).Some? {
      var c, n := CallOf(h, e).value, h.store.callbacks.continuations[id];
      OthersSpareTurn(h, e, id);
      CurrentIsKeyed(h.store, id);
      if TouchesCallbacks(c) { CallbackSparesTurn(h.store, c, n); } else { ApplyFrame(h.store, c); }
    }
  }

  lemma OthersSpareTurn(h: Host, e: Event, id: ContinuationId)
    requires Enabled(h, e) && CallOf(h, e).Some? && !exists k :: TakesTurn(h, k, id)
    ensures SparesTurn(CallOf(h, e).value, id)
  {
    match e
    case TurnEnds(k, _) => assert !TakesTurn(h, k, id);
    case MarkUnsettled(k) => assert !TakesTurn(h, k, id);
    case _ =>
  }

  lemma CurrentIsKeyed(s: Store, id: ContinuationId)
    requires Inv(s) && id in s.callbacks.continuations
    ensures IsCurrent(s.callbacks, s.callbacks.continuations[id])
    ensures s.callbacks.continuations[id].continuationId == id
  {
    hide TruthInv, ClaimsInv, WorkInv, StepsInv, RecoveryInv, PacketsHaveMissions;
  }

  /** An interrupted turn is nobody else's. */
  lemma CutIsUnattended(h: Host, e: Event, id: ContinuationId)
    requires HostInv(h) && CutsTurn(h, e, id)
    ensures Unattended(Step(h, e), id)
  {
    hide Inv, OutcomesInv, AcksInv, RanOnce, Authoritative;
    HostParts(h);
    assert PhaseFits(h.store, h.callers[e.caller]);
    forall k ensures !TakesTurn(Step(h, e), k, id) { OnlyOneTakes(h, e.caller, k, id); }
  }

  lemma OnlyOneTakes(h: Host, j: nat, k: nat, id: ContinuationId)
    requires CallersApart(h.callers) && TakesTurn(h, j, id)
    ensures TakesTurn(h, k, id) ==> k == j
  {
    assert k in h.callers && SameTurn(h.callers[k], h.callers[j]) ==> k == j;
  }

  lemma AttendedStays(h: Host, e: Event, id: ContinuationId)
    requires HostInv(h) && Enabled(h, e) && !Unattended(h, id) && !CutsTurn(h, e, id)
    ensures !Unattended(Step(h, e), id)
  {
    hide HostInv, CutsTurn, CallOf, Apply, BeginDelivery, TakesTurn, Enabled;
    if Started(Step(h, e), id) {
      HostParts(h);
      StartedWasOrBegins(h, e, id);
      hide Step, Started, CallersFit;
      AttendedAfter(h, e, id);
    }
  }

  lemma StartedWasOrBegins(h: Host, e: Event, id: ContinuationId)
    requires Inv(h.store) && Enabled(h, e) && Started(Step(h, e), id)
    ensures CallOf(h, e).Some? ==>
              || (CallOf(h, e).value.DoDeliver? && CallOf(h, e).value.continuation.continuationId == id
                  && BeginDelivery(h.store, CallOf(h, e).value.continuation,
                                   CallOf(h, e).value.receipt).result.Ok?)
              || Started(h, id)
  {
    hide Inv, CallOf, Apply, BeginDelivery, Enabled;
    if CallOf(h, e).Some? { StepsToStarted(h.store, CallOf(h, e).value, id); }
  }

  /** One step leaves a delivery unattended exactly if it was, or if the step interrupts its caller. */
  lemma UnattendedAfter(h: Host, e: Event, id: ContinuationId)
    requires HostInv(h) && EventWellFormed(e) && Enabled(h, e)
    ensures Unattended(Step(h, e), id) <==> Unattended(h, id) || CutsTurn(h, e, id)
  {
    hide HostInv, Unattended, CutsTurn, EventWellFormed, Step, Enabled;
    if Unattended(h, id) {
      UnattendedStays(h, e, id);
    } else if CutsTurn(h, e, id) {
      CutIsUnattended(h, e, id);
    } else {
      AttendedStays(h, e, id);
    }
  }

  lemma NoneStarted(id: ContinuationId)
    ensures !Unattended(START, id)
  {
  }

  lemma DisabledStays(h: Host, e: Event, id: ContinuationId)
    requires !Enabled(h, e)
    ensures Step(h, e) == h && !CutsTurn(h, e, id)
  {
  }

  /** A started delivery has nobody to record its end if and only if at some moment its caller was
      interrupted, and then it stays that way. */
  lemma {:induction false} StartedDeliveriesAreAttendedIff(h: seq<Host>, events: seq<Event>, n: nat,
                                                           id: ContinuationId)
    requires IsPlay(h, events) && n <= |events|
    ensures Unattended(h[n], id) <==> exists i: nat :: i < n && CutsTurn(h[i], events[i], id)
  {
    hide HostInv, Unattended, CutsTurn, EventWellFormed, Step;
    if n == 0 {
      NoneStarted(id);
    } else {
      StartedDeliveriesAreAttendedIff(h, events, n - 1, id);
      PlayedHostHolds(h, events, n - 1);
      var g, e := h[n - 1], events[n - 1];
      if Enabled(g, e) {
        UnattendedAfter(g, e, id);
      } else {
        DisabledStays(g, e, id);
      }
    }
  }

  // ---------------------------------------------------------------- lost outcomes

  /** What it takes for the end of an execution to be recorded. */
  predicate Recordable(s: Store, p: TaskPacket, l: Lease, r: ExecutorReturn) {
    match r
    case Returned(_) => !HasUnsettledStep(s.steps, p.id)
    case Signals(f) =>
      f.body.packetId != p.id || f.body.leaseId != l.leaseId || ExecutorCode(f.body.code)
    case Interrupted => false
    case _ => true
  }

  lemma FailureIsRecorded(s: Store, p: TaskPacket, l: Lease, code: FailureCode, e: Evidence,
                          seen: Option<string>, origin: FailureOrigin)
    requires RunningFits(s, p, l)
    ensures var w := RecordExecutionFailure(s, p, l, code, e, seen, origin).store.work;
      && (NoOutcome(w, p.id) <==> !(EvidenceText(e) && FailureCodeAllowed(code, origin)))
      && (!NoOutcome(w, p.id) ==>
            && p.id in w.failures
            && w.failures[p.id] == Seal(FailureBody(p.id, l.leaseId, code, e, seen, origin)))
      && (NoOutcome(w, p.id) ==> RecordExecutionFailure(s, p, l, code, e, seen, origin).store == s)
  {
  }

  lemma ResultIsRecorded(s: Store, p: TaskPacket, l: Lease, r: ExecutionResult)
    requires RunningFits(s, p, l)
    ensures NoOutcome(RecordExecution(s, p, l, r).store.work, p.id) <==> HasUnsettledStep(s.steps, p.id)
    ensures HasUnsettledStep(s.steps, p.id) ==> RecordExecution(s, p, l, r).store == s
  {
    hide HoldsLease, HasUnsettledStep, RecordExecutionFailure, PersistTerminal;
    FailureIsRecorded(s, p, l, StaleIdentity, ResultMismatch(p.id, l.leaseId), Some(r.effectId),
                      HarnessOrigin);
    if r.effectId in s.work.owner {
      FailureIsRecorded(s, p, l, DuplicateOrReplay,
                        DuplicateEffect(r.effectId, s.work.owner[r.effectId]), Some(r.effectId),
                        HarnessOrigin);
    }
    var x := s.(work := s.work.(attempts := s.work.attempts[p.id := r],
                                owner := s.work.owner[r.effectId := p.id]));
    PersistKeepsAttempts(x, p, l, Succeeded, Some(r.effectId), r.effectState, r.outputDigest,
                         Some(r.outputDigest), r.predicateSatisfied, None, None);
  }

  lemma PersistKeepsAttempts(s: Store, p: TaskPacket, l: Lease, status: TerminalStatus,
                             effect: Option<string>, state: EffectState, output: Evidence,
                             proof: Option<Evidence>, flag: bool, code: Option<FailureCode>,
                             origin: Option<FailureOrigin>)
    ensures PersistTerminal(s, p, l, status, effect, state, output, proof, flag, code,
                            origin).store.work.attempts == s.work.attempts
  {
  }

  /** The end of an execution is recorded if and only if it is recordable: a result, unless one of
      the packet's steps is still unsettled; a structured failure of this packet, unless its code is
      one only the harness may use; any other end unless it is an interruption. */
  lemma OutcomeIsRecordedIff(s: Store, p: TaskPacket, l: Lease, r: ExecutorReturn)
    requires RunningFits(s, p, l) && EndingWellFormed(r)
    ensures var t := AfterCall(s, OutcomeCall(p, l, r));
      && (NoOutcome(t.work, p.id) <==> !Recordable(s, p, l, r))
      && (NoOutcome(t.work, p.id) ==> t == s)
  {
    hide RunningFits, NoOutcome, RecordExecution, RecordExecutionFailure, HasUnsettledStep;
    match r
    case Returned(result) => ResultIsRecorded(s, p, l, result);
    case Malformed(typeName) =>
      FailureIsRecorded(s, p, l, ExecutorError, MalformedResult(typeName), None, HarnessOrigin);
    case Signals(f) =>
      FailureIsRecorded(s, p, l, StaleIdentity, SignalMismatch(f.body.detailDigest),
                        f.body.observedEffectId, ExecutorOrigin);
      FailureIsRecorded(s, p, l, f.body.code, f.body.detailDigest, f.body.observedEffectId,
                        ExecutorOrigin);
    case Violates(code, message) =>
      FailureIsRecorded(s, p, l, if ExecutorCode(code) then code else InvalidFailureCode,
                        RejectedExecutorCode(code, message), None, ExecutorOrigin);
    case Raises(errorType, message) =>
      FailureIsRecorded(s, p, l, ExecutorError, ExecutorException(errorType, message), None,
                        ExecutorOrigin);
    case Interrupted => RunIsLeased(s, p, l);
  }

  /** The executor has run, its end is on no record, and nobody is running it. */
  ghost predicate Orphaned(h: Host, pid: PacketId) {
    && Leased(h.store, pid) && pid in h.store.work.started && NoOutcome(h.store.work, pid)
    && forall k :: k in h.callers && h.callers[k].Executing? ==> h.callers[k].packet.id != pid
  }

  /** An end that is not recordable orphans its packet. */
  lemma UnrecordedOutcomeOrphans(h: seq<Host>, events: seq<Event>, n: nat, k: nat, r: ExecutorReturn)
    requires IsPlay(h, events) && n <= |events| && EndingWellFormed(r)
    requires k in h[n].callers && h[n].callers[k].Executing?
    ensures var g := h[n];
            var p, l := g.callers[k].packet, g.callers[k].lease;
      Orphaned(Step(g, ExecutorEnds(k, r)), p.id) <==> !Recordable(g.store, p, l, r)
  {
    hide EventWellFormed, HostInv, Inv, OutcomesInv, AcksInv, RanOnce, HasUnsettledStep,
         RunningFits, Apply, Recordable, EndingWellFormed, NoOutcome, Leased;
    PlayedHostHolds(h, events, n);
    var g := h[n];
    var p, l := g.callers[k].packet, g.callers[k].lease;
    HostParts(g);
    assert RunningFits(g.store, p, l) by { assert PhaseFits(g.store, g.callers[k]); }
    OutcomeIsRecordedIff(g.store, p, l, r);
    forall j | j in g.callers && g.callers[j].Executing? && g.callers[j].packet.id == p.id
      ensures j == k
    {
      assert SamePacket(g.callers[j], g.callers[k]);
    }
    RunIsLeased(g.store, p, l);
  }

  lemma RunIsLeased(s: Store, p: TaskPacket, l: Lease)
    requires RunningFits(s, p, l)
    ensures Leased(s, p.id) && p.id in s.work.started && NoOutcome(s.work, p.id)
  {
  }

  lemma OrphanStays(h: Host, e: Event, pid: PacketId)
    requires HostInv(h) && EventWellFormed(e) && Orphaned(h, pid)
    ensures Orphaned(Step(h, e), pid)
  {
    hide HostInv, Inv, OutcomesInv, AcksInv, RanOnce, CallersFit, CallersApart, Leased, Apply,
         EventWellFormed, NoOutcome, BeginExecution, BeginDelivery, AcknowledgeAfterConvergence,
         ValidatePreparedContinuation, ValidateResume, WellFormed;
    HostParts(h);
    if Enabled(h, e) {
      if CallOf(h, e).Some? {
        CallIsWellFormed(h, e);
        OrphanIsSpared(h, e, pid);
        NoOutcomeStays(h.store, CallOf(h, e).value, pid);
        OpenKeepsLease(h.store, CallOf(h, e).value, pid);
        ApplyGrows(h.store, CallOf(h, e).value);
      }
      assert forall k | k in Step(h, e).callers && Step(h, e).callers[k].Executing?
               && k !in h.callers :: Step(h, e).callers[k].packet.id != pid by {
        if e.Execute? && BeginExecution(h.store, e.packet, e.lease).result.Ok? {
          BegunRunFits(h.store, e.packet, e.lease);
        }
      }
    }
  }

  lemma OrphanIsSpared(h: Host, e: Event, pid: PacketId)
    requires Orphaned(h, pid) && Enabled(h, e) && CallOf(h, e).Some?
    ensures SparesRun(CallOf(h, e).value, pid)
  {
  }

  lemma OpenKeepsLease(s: Store, c: Call, pid: PacketId)
    requires Inv(s) && WellFormed(c) && Leased(s, pid) && NoOutcome(Apply(s, c).work, pid)
    ensures Leased(Apply(s, c), pid)
  {
    hide Inv, Apply, WellFormed, TruthInv, StepsInv, RecoveryInv, RecoveryStepsInv, CallbacksInv,
         PacketsHaveMissions, ReceiptsFit, AttemptsFit, FailuresFit, StartedFit, ReceiptsIndexed,
         ClaimsInv, IsActive;
    ApplyGrows(s, c);
    ApplyKeepsInv(s, c);
    InvParts(Apply(s, c));
  }

  /** An orphaned packet keeps its lease for ever: nothing a caller of the harness can do records an
      outcome for it or releases its scope. */
  lemma {:induction false} OrphansNeverClose(events: seq<Event>, more: seq<Event>, pid: PacketId)
    requires AllEventsWellFormed(events + more) && Orphaned(Play(events), pid)
    ensures Orphaned(Play(events + more), pid)
    decreases |more|
  {
    hide Step, EventWellFormed, HostInv, Orphaned;
    if |more| == 0 {
      assert events + more == events;
    } else {
      var all := events + more;
      assert all[..|all| - 1] == events + more[..|more| - 1];
      OrphansNeverClose(events, more[..|more| - 1], pid);
      PlayKeepsHost(all[..|all| - 1]);
      OrphanStays(Play(all[..|all| - 1]), all[|all| - 1], pid);
    }
  }

  // ---------------------------------------------------------------- what the harness can close

  function ApiEvents(calls: seq<Call>): (events: seq<Event>)
    ensures |events| == |calls| && forall i :: 0 <= i < |calls| ==> events[i] == Api(calls[i])
  {
    seq(|calls|, i requires 0 <= i < |calls| => Api(calls[i]))
  }

  /** Reconciling calls reach the store unchanged. */
  lemma {:induction false} ApiRuns(events: seq<Event>, calls: seq<Call>)
    requires AllReconcile(calls)
    ensures Play(events + ApiEvents(calls)).store == Run(Play(events).store, calls)
    decreases |calls|
  {
    hide Apply;
    if |calls| == 0 {
      assert events + ApiEvents(calls) == events;
    } else {
      var front := calls[..|calls| - 1];
      var all := events + ApiEvents(calls);
      assert all[..|all| - 1] == events + ApiEvents(front);
      ApiRuns(events, front);
    }
  }

  lemma {:induction false} TraceExtends(events: seq<Event>, more: seq<Event>) returns (calls: seq<Call>)
    ensures Trace(events + more) == Trace(events) + calls
    decreases |more|
  {
    hide CallOf, Enabled, Step;
    if |more| == 0 {
      assert events + more == events;
      calls := [];
    } else {
      var all := events + more;
      assert all[..|all| - 1] == events + more[..|more| - 1];
      calls := TraceExtends(events, more[..|more| - 1]);
      var h, e := Play(all[..|all| - 1]), all[|all| - 1];
      calls := calls + if Enabled(h, e) && CallOf(h, e).Some? then [CallOf(h, e).value] else [];
    }
  }

  /** The packet was started and its executor is not running any more. */
  ghost predicate Ended(h: Host, pid: PacketId) {
    && Leased(h.store, pid) && pid in h.store.work.started
    && forall k :: k in h.callers && h.callers[k].Executing? ==> h.callers[k].packet.id != pid
  }

  lemma RecordedCloses(events: seq<Event>, pid: PacketId) returns (more: seq<Event>)
    requires AllEventsWellFormed(events) && Leased(Play(events).store, pid)
    requires HasOutcome(Play(events).store.work, pid) && Closable(Play(events).store, pid)
    ensures AllEventsWellFormed(events + more)
    ensures pid in Play(events + more).store.work.receiptOf
  {
    hide Play, Run, Leased, Closable, HostInv, WellFormed, Trace, HasOutcome, Reconciles, Reopenable;
    PlayKeepsHost(events);
    HostParts(Play(events));
    PlayIsARun(events);
    ReachableIsReopenable(Trace(events));
    var calls := OpenPath(Play(events).store, pid);
    more := ApiEvents(calls);
    ApiRuns(events, calls);
  }

  /** After its executor has ended, a leased packet can still reach its receipt through the harness
      if and only if the outcome was recorded and the packet is closable. */
  lemma HarnessClosesIff(events: seq<Event>, pid: PacketId)
    requires AllEventsWellFormed(events) && Ended(Play(events), pid)
    ensures HasOutcome(Play(events).store.work, pid) && Closable(Play(events).store, pid) ==>
              exists more :: AllEventsWellFormed(events + more)
                             && pid in Play(events + more).store.work.receiptOf
    ensures !(HasOutcome(Play(events).store.work, pid) && Closable(Play(events).store, pid)) ==>
              forall more :: AllEventsWellFormed(events + more) ==>
                               pid !in Play(events + more).store.work.receiptOf
  {
    hide Play, EventWellFormed, Closable, HostInv, WellFormed, Trace, Run, IsActive, HasUnsettledStep;
    if HasOutcome(Play(events).store.work, pid) && Closable(Play(events).store, pid) {
      var more := RecordedCloses(events, pid);
    } else {
      forall more | AllEventsWellFormed(events + more)
        ensures pid !in Play(events + more).store.work.receiptOf
      {
        if Closable(Play(events).store, pid) {
          EndedIsOrphaned(events, pid);
          OrphansNeverClose(events, more, pid);
        } else {
          StrandedInHarness(events, more, pid);
        }
      }
    }
  }

  lemma EndedIsOrphaned(events: seq<Event>, pid: PacketId)
    requires AllEventsWellFormed(events) && Ended(Play(events), pid)
    requires !HasOutcome(Play(events).store.work, pid)
    ensures Orphaned(Play(events), pid)
  {
    hide Play, EventWellFormed, HostInv, Inv, OutcomesInv, AcksInv, RanOnce, CallersFit,
         CallersApart, Leased;
    PlayKeepsHost(events);
    HostParts(Play(events));
    LeaseIsHeld(Play(events).store, pid);
  }

  lemma StrandedInHarness(events: seq<Event>, more: seq<Event>, pid: PacketId)
    requires AllEventsWellFormed(events + more) && Leased(Play(events).store, pid)
    requires !Closable(Play(events).store, pid)
    ensures pid !in Play(events + more).store.work.receiptOf
  {
    hide Play, EventWellFormed, Closable, HostInv, WellFormed, Trace, Run, Leased;
    assert AllEventsWellFormed(events) by {
      assert forall i :: 0 <= i < |events| ==> (events + more)[i] == events[i];
    }
    PlayIsARun(events);
    PlayIsARun(events + more);
    var calls := TraceExtends(events, more);
    LeasesCloseIffClosable(Trace(events), pid);
  }
}
