/** How a caller gets from one phase to the next, what an executor's end leaves on record, and which
    effects a packet then holds, whatever the other callers do. */
module HarnessLaws {
  import opened Records
  import opened StoreSpec
  import opened StoreInvariant
  import opened Frames
  import opened LedgerLaws
  import opened RouteLaws
  import opened EffectLaws
  import opened DeliveryLaws
  import opened StepLaws
  import opened Harness
  import opened HarnessSafety
  import opened HostSafety
  import opened HarnessTheorems

  // ---------------------------------------------------------------- phases

  /** `execute` runs its executor exactly when the executor is the packet's and the packet starts; a
      stale identity goes on to block the packet, anything else ends the call. */
  lemma ExecutionBegins(h: Host, k: nat, p: TaskPacket, l: Lease, x: string)
    requires Inv(h.store) && k !in h.callers
    ensures var e, s := Execute(k, p, l, x), h.store;
            var t := Step(h, e);
            var starts := x == p.body.executorId && Stands(s, p, l) && p.id !in s.work.started;
      && (k in t.callers && t.callers[k] == Executing(p, l) <==> starts)
      && (starts ==> t.store == s.(work := s.work.(started := s.work.started + {p.id})))
      && t.ran == h.ran + (if starts then multiset{p.id} else multiset{})
      && (x == p.body.executorId && !starts ==> t.store == s)
      && (k in t.callers && t.callers[k].Blocking? ==>
            && x == p.body.executorId && !starts && t.callers[k].code == StaleIdentity
            && t.callers[k].packet == p && t.callers[k].lease == l)
      && (x == p.body.executorId && p.id !in s.work.started && p.id !in s.work.receiptOf
          && p.id == Of(p.body) && !Open(s, p, l) && Acceptable(s.truth, p) ==>
            k in t.callers && t.callers[k].Blocking?)
      && (k in t.callers ==> t.callers[k].Executing? || t.callers[k].Blocking?)
  {
    hide Inv, BeginExecution, TerminalizePreExecution, Acceptable, Open, ValidateClaim;
    StartAnsweredIff(h.store, p, l);
    StaleStart(h.store, p, l);
    assert k !in h.callers ==> h.callers - {k} == h.callers;
  }

  lemma StaleStart(s: Store, p: TaskPacket, l: Lease)
    requires Inv(s)
    ensures p.id !in s.work.started && p.id !in s.work.receiptOf && Acceptable(s.truth, p)
            && !Open(s, p, l) ==>
              BeginExecution(s, p, l).result.Rejected?
              && BeginExecution(s, p, l).result.code == StaleIdentity
  {
    hide Inv, ValidateClaim, Acceptable, Open;
    ClaimStandsIff(s, p, l);
  }

  /** With another executor than the packet's nothing runs: the packet is blocked, if it still can be,
      for a stale identity. */
  lemma WrongExecutorBlocks(h: Host, k: nat, p: TaskPacket, l: Lease, x: string)
    requires Inv(h.store) && k !in h.callers && x != p.body.executorId
    ensures var t := Step(h, Execute(k, p, l, x));
      && t.callers == h.callers && t.ran == h.ran
      && (if Open(h.store, p, l) && p.id !in h.store.work.started && !HasOpenStep(h.store, p.id) then
            && p.id in t.store.work.receiptOf
            && EndedWith(h.store, t.store, p, l, t.store.work.receiptOf[p.id], Blocked, None,
                         PreExecutionBlock(StaleIdentity, SelectedExecutorDiffers), None, false,
                         Some(StaleIdentity), Some(HarnessOrigin))
          else t.store == h.store)
  {
    hide Inv, TerminalizePreExecution, Open, HasOpenStep;
    BlockAnsweredIff(h.store, p, l, StaleIdentity, SelectedExecutorDiffers);
    assert h.callers - {k} == h.callers;
  }

  /** A caller of `h` besides `h`'s own. */
  function With(h: Host, k: nat, phase: Phase): Host { Host(h.store, h.callers[k := phase], h.ran) }

  lemma OneCallerMoves(h: Host, k: nat, phase: Phase, next: Phase)
    requires k !in h.callers
    ensures Put(With(h, k, phase).callers, k, None) == h.callers
    ensures Put(With(h, k, phase).callers, k, Some(next)) == With(h, k, next).callers
    ensures h.callers - {k} == h.callers
  {
    assert h.callers[k := phase][k := next] == h.callers[k := next];
  }

  /** A delivery is first checked: exactly the current prepared continuation of the stored receipt
      passes. */
  lemma CheckAdvances(h: Host, k: nat, c: Continuation, receipt: TerminalReceipt)
    requires k !in h.callers
    ensures Step(h, Continue(k, c, receipt)) ==
            if StandsAt(h.store.callbacks, c, Prepared) && c.receiptId == receipt.id
               && Stored(h.store.work, receipt)
            then With(h, k, Resuming(c, receipt)) else h
  {
    hide ValidatePreparedContinuation, StandsAt, Stored;
    PreparedAnsweredIff(h.store, c, receipt);
    OneCallerMoves(h, k, Resuming(c, receipt), Resuming(c, receipt));
  }

  /** Then resumed: exactly a proof of this continuation and its destination passes. */
  lemma ResumeAdvances(h: Host, k: nat, c: Continuation, receipt: TerminalReceipt,
                       proof: Option<ResumeProof>)
    requires k !in h.callers
    ensures Step(With(h, k, Resuming(c, receipt)), Resumed(k, proof)) ==
            if && proof.Some? && StandsAt(h.store.callbacks, c, Prepared)
               && proof.value.continuationId == c.continuationId
               && proof.value.destination == c.destination && NonBlank(proof.value.resumeToken)
            then With(h, k, Submitting(c, receipt)) else h
  {
    hide ValidateResume, StandsAt, NonBlank;
    if proof.Some? { ResumeAnsweredIff(h.store, c, proof.value); }
    OneCallerMoves(h, k, Resuming(c, receipt), Submitting(c, receipt));
  }

  /** Then submitted: the delivery starts if nobody has moved it in the meantime. */
  lemma SubmissionAdvances(h: Host, k: nat, c: Continuation, receipt: TerminalReceipt)
    requires k !in h.callers
    ensures var t := Step(With(h, k, Submitting(c, receipt)), Submit(k));
      if StandsAt(h.store.callbacks, c, Prepared) && c.receiptId == receipt.id
         && Stored(h.store.work, receipt) then
        && t.callers == h.callers[k := Turning(c.(state := DeliveryStarted), receipt)]
        && OnlyMoves(h.store, t.store, c, DeliveryStarted) && t.ran == h.ran
      else t == h
  {
    hide BeginDelivery, StandsAt, Stored, OnlyMoves;
    DeliveryAnsweredIff(h.store, c, receipt);
    OneCallerMoves(h, k, Submitting(c, receipt), Turning(c.(state := DeliveryStarted), receipt));
  }

  // ---------------------------------------------------------------- executors' ends

  /** The packet's failure on record, with these values and its observed effect held if it was free. */
  predicate FailedAs(w: WorkLedger, x: WorkLedger, p: TaskPacket, l: Lease, code: FailureCode,
                     e: Evidence, seen: Option<string>, origin: FailureOrigin)
  {
    && p.id in x.failures && FailureAdded(w, x, x.failures[p.id])
    && x.failures[p.id].body == FailureBody(p.id, l.leaseId, code, e, seen, origin)
  }

  lemma EndsInFailure(s: Store, p: TaskPacket, l: Lease, code: FailureCode, e: Evidence,
                      seen: Option<string>, origin: FailureOrigin)
    requires Inv(s) && RunningFits(s, p, l)
    ensures var t := RecordExecutionFailure(s, p, l, code, e, seen, origin).store;
      if (e.Given? ==> NonBlank(e.text)) && CodeSuits(code, origin)
      then FailedAs(s.work, t.work, p, l, code, e, seen, origin) else t == s
  {
    hide Inv, RecordExecutionFailure, FailureAdded, NonBlank, CodeSuits, Open;
    FailureAnsweredIff(s, p, l, code, e, seen, origin);
    HeldIffOpen(s, p, l);
    RunsFirst(s, p, l);
    if RecordExecutionFailure(s, p, l, code, e, seen, origin).result.Ok? {
      FailureIsAdded(s, p, l, code, e, seen, origin);
    }
  }

  lemma RunsFirst(s: Store, p: TaskPacket, l: Lease)
    requires RunningFits(s, p, l)
    ensures HoldsLease(s.claims, p, l) && p.id in s.work.started && p.id !in s.work.failures
    ensures p.id !in s.work.attempts
  {
  }

  /** What the end of a running execution leaves on record, by how it ended. */
  ghost predicate EndRecorded(s: Store, t: Store, p: TaskPacket, l: Lease, r: ExecutorReturn) {
    match r
    case Malformed(typeName) =>
      FailedAs(s.work, t.work, p, l, ExecutorError, MalformedResult(typeName), None, HarnessOrigin)
    case Raises(errorType, message) =>
      FailedAs(s.work, t.work, p, l, ExecutorError, ExecutorException(errorType, message), None,
               ExecutorOrigin)
    case Violates(code, message) =>
      FailedAs(s.work, t.work, p, l,
               if CodeSuits(code, ExecutorOrigin) then code else InvalidFailureCode,
               RejectedExecutorCode(code, message), None, ExecutorOrigin)
    case Signals(f) =>
      if f.body.packetId != p.id || f.body.leaseId != l.leaseId then
        FailedAs(s.work, t.work, p, l, StaleIdentity, SignalMismatch(f.body.detailDigest),
                 f.body.observedEffectId, ExecutorOrigin)
      else if CodeSuits(f.body.code, ExecutorOrigin) then
        FailedAs(s.work, t.work, p, l, f.body.code, f.body.detailDigest, f.body.observedEffectId,
                 ExecutorOrigin)
      else t == s
    case Interrupted => t == s
    case Returned(result) =>
      if HasOpenStep(s, p.id) then t == s
      else if !NamesRun(p, l, result) then
        FailedAs(s.work, t.work, p, l, StaleIdentity, ResultMismatch(p.id, l.leaseId),
                 Some(result.effectId), HarnessOrigin)
      else if result.effectId in s.work.owner then
        FailedAs(s.work, t.work, p, l, DuplicateOrReplay,
                 DuplicateEffect(result.effectId, s.work.owner[result.effectId]),
                 Some(result.effectId), HarnessOrigin)
      else && t.work.attempts == s.work.attempts[p.id := result]
           && t.work.owner == s.work.owner[result.effectId := p.id]
           && (p.id in t.work.receiptOf <==> result.effectState == Settled)
  }

  lemma EndIsRecorded(h: seq<Host>, events: seq<Event>, n: nat, k: nat, r: ExecutorReturn)
    requires IsPlay(h, events) && n <= |events| && EndingWellFormed(r)
    requires k in h[n].callers && h[n].callers[k].Executing?
    ensures EndRecorded(h[n].store, Step(h[n], ExecutorEnds(k, r)).store, h[n].callers[k].packet,
                        h[n].callers[k].lease, r)
  {
    hide EventWellFormed, HostInv, Inv, OutcomesInv, AcksInv, RanOnce, CallersApart, Apply, RunningFits,
         EndRecorded;
    PlayedHostHolds(h, events, n);
    var g := h[n];
    HostParts(g);
    assert RunningFits(g.store, g.callers[k].packet, g.callers[k].lease) by {
      assert PhaseFits(g.store, g.callers[k]);
    }
    OutcomeIsRecorded(g.store, g.callers[k].packet, g.callers[k].lease, r);
  }

  lemma OutcomeIsRecorded(s: Store, p: TaskPacket, l: Lease, r: ExecutorReturn)
    requires Inv(s) && RunningFits(s, p, l) && EndingWellFormed(r)
    ensures EndRecorded(s, AfterCall(s, OutcomeCall(p, l, r)), p, l, r)
  {
    hide Inv, RunningFits, FailedAs, RecordExecutionFailure, RecordExecution, NonBlank, HasOpenStep,
         NamesRun, ReconcilableCode;
    match r
    case Malformed(typeName) =>
      EndsInFailure(s, p, l, ExecutorError, MalformedResult(typeName), None, HarnessOrigin);
    case Raises(errorType, message) =>
      EndsInFailure(s, p, l, ExecutorError, ExecutorException(errorType, message), None, ExecutorOrigin);
    case Violates(code, message) =>
      EndsInFailure(s, p, l, if CodeSuits(code, ExecutorOrigin) then code else InvalidFailureCode,
                    RejectedExecutorCode(code, message), None, ExecutorOrigin);
    case Signals(f) =>
      EndsInFailure(s, p, l, StaleIdentity, SignalMismatch(f.body.detailDigest),
                    f.body.observedEffectId, ExecutorOrigin);
      EndsInFailure(s, p, l, f.body.code, f.body.detailDigest, f.body.observedEffectId, ExecutorOrigin);
    case Interrupted =>
    case Returned(result) => ReturnIsRecorded(s, p, l, result);
  }

  lemma ReturnIsRecorded(s: Store, p: TaskPacket, l: Lease, r: ExecutionResult)
    requires Inv(s) && RunningFits(s, p, l)
    ensures EndRecorded(s, RecordExecution(s, p, l, r).store, p, l, Returned(r))
  {
    hide Inv, RecordExecution, HasOpenStep, NamesRun, FailureAdded, EndedWith, NoOutcome, HoldsLease;
    HeldIffOpen(s, p, l);
    RunsFirst(s, p, l);
    if HasOpenStep(s, p.id) {
      ResultRefused(s, p, l, r);
    } else if !NamesRun(p, l, r) || r.effectId in s.work.owner {
      ResultBecomesFailure(s, p, l, r);
    } else {
      ResultIsAdded(s, p, l, r);
      if r.effectState == Settled { EndIsFiled(s, p, l, r); }
    }
  }

  lemma EndIsFiled(s: Store, p: TaskPacket, l: Lease, r: ExecutionResult)
    requires Inv(s) && Awaits(s, p, l) && NamesRun(p, l, r) && r.effectId !in s.work.owner
    requires r.effectState == Settled
    ensures p.id in RecordExecution(s, p, l, r).store.work.receiptOf
  {
    hide Inv, RecordExecution, HasOpenStep, NamesRun, Awaits;
    ResultIsAdded(s, p, l, r);
  }

  // ---------------------------------------------------------------- who holds what

  /** A call that records no outcome of the packet gives it no effect, short of its receipt. */
  lemma NothingAcquired(s: Store, c: Call, pid: PacketId, e: string)
    requires Inv(s) && WellFormed(c) && SparesRun(c, pid)
    requires var w := Apply(s, c).work; e in w.owner && w.owner[e] == pid && pid !in w.receiptOf
    ensures e in s.work.owner && s.work.owner[e] == pid
  {
    hide Inv, WellFormed, Apply;
    if TouchesReceipts(c) {
      ReceiptCallGivesNothing(s, c, pid, e);
    } else if TouchesWork(c) {
      OutcomeGivesNothing(s, c, pid, e);
    } else {
      OthersKeepWork(s, c);
    }
  }

  lemma OutcomeGivesNothing(s: Store, c: Call, pid: PacketId, e: string)
    requires Inv(s) && SparesRun(c, pid) && (c.DoBegin? || c.DoFail?)
    requires var w := Apply(s, c).work; e in w.owner && w.owner[e] == pid
    ensures e in s.work.owner && s.work.owner[e] == pid
  {
    hide Inv, RecordExecutionFailure, ValidateClaim;
    if c.DoFail? {
      FailGivesOthersNothing(s, c.packet, c.lease, c.code, c.evidence, c.observed, c.origin, pid, e);
    }
  }

  lemma ReceiptCallGivesNothing(s: Store, c: Call, pid: PacketId, e: string)
    requires Inv(s) && WellFormed(c) && SparesRun(c, pid) && TouchesReceipts(c)
    requires var w := Apply(s, c).work; e in w.owner && w.owner[e] == pid && pid !in w.receiptOf
    ensures e in s.work.owner && s.work.owner[e] == pid
  {
    hide Inv, RecordExecution, ReconcileFailure, ReconcileEffect, TerminalizePreExecution, WellFormed,
         EndedWith, HasOpenStep, Open;
    CallIsReconcilable(c);
    match c
    case DoBlock(p, l, code, d) => BlockAnsweredIff(s, p, l, code, d);
    case DoReconcileFailure(p, l, r) => SettlementGivesOthersNothing(s, p, l, r, pid, e);
    case DoReconcileEffect(p, l, r) => EffectSettledIff(s, p, l, r);
    case DoResult(p, l, r) => ResultGivesOthersNothing(s, p, l, r, pid, e);
  }

  lemma CallIsReconcilable(c: Call)
    requires WellFormed(c)
    ensures c.DoReconcileFailure? ==> FailureReconciliationWellFormed(c.failureProof)
  {
  }

  lemma SettlementGivesOthersNothing(s: Store, p: TaskPacket, l: Lease, r: FailureReconciliation,
                                     pid: PacketId, e: string)
    requires Inv(s) && FailureReconciliationWellFormed(r)
    requires var w := ReconcileFailure(s, p, l, r).store.work;
      e in w.owner && w.owner[e] == pid && pid !in w.receiptOf
    ensures e in s.work.owner && s.work.owner[e] == pid
  {
    hide Inv, ReconcileFailure, FailureReconciliationWellFormed, HasOpenStep, Open, FreeFor;
    FailureSettledIff(s, p, l, r);
  }

  lemma FailGivesOthersNothing(s: Store, p: TaskPacket, l: Lease, code: FailureCode, x: Evidence,
                               seen: Option<string>, origin: FailureOrigin, pid: PacketId, e: string)
    requires Inv(s) && p.id != pid
    requires var w := RecordExecutionFailure(s, p, l, code, x, seen, origin).store.work;
      e in w.owner && w.owner[e] == pid
    ensures e in s.work.owner && s.work.owner[e] == pid
  {
    hide Inv, RecordExecutionFailure, CodeSuits, NonBlank, Open;
    FailureAnsweredIff(s, p, l, code, x, seen, origin);
    if RecordExecutionFailure(s, p, l, code, x, seen, origin).result.Ok? {
      FailureIsAdded(s, p, l, code, x, seen, origin);
    }
  }

  lemma ResultGivesOthersNothing(s: Store, p: TaskPacket, l: Lease, r: ExecutionResult, pid: PacketId,
                                 e: string)
    requires Inv(s) && p.id != pid
    requires var w := RecordExecution(s, p, l, r).store.work; e in w.owner && w.owner[e] == pid
    ensures e in s.work.owner && s.work.owner[e] == pid
  {
    hide Inv, RecordExecution, HasOpenStep, Awaits, NamesRun, Open, EndedWith;
    if !Awaits(s, p, l) {
      ResultRefused(s, p, l, r);
    } else if !NamesRun(p, l, r) || r.effectId in s.work.owner {
      ResultBecomesFailure(s, p, l, r);
    } else {
      ResultIsAdded(s, p, l, r);
    }
  }

  /** The packet holds exactly these effects. */
  ghost predicate Holds(w: WorkLedger, pid: PacketId, effects: set<string>) {
    forall e :: e in effects <==> e in w.owner && w.owner[e] == pid
  }

  lemma StepKeepsHolding(h: Host, event: Event, pid: PacketId, e: string)
    requires HostInv(h) && EventWellFormed(event)
    requires pid in h.store.work.failures && pid !in Step(h, event).store.work.receiptOf
    ensures var w, x := h.store.work, Step(h, event).store.work;
      e in x.owner && x.owner[e] == pid <==> e in w.owner && w.owner[e] == pid
  {
    hide HostInv, Inv, Apply, WellFormed, EventWellFormed, OutcomesInv, AcksInv, RanOnce, CallersFit,
         CallersApart, NextPhase, CallOf;
    HostParts(h);
    if Enabled(h, event) && CallOf(h, event).Some? {
      var c := CallOf(h, event).value;
      CallIsWellFormed(h, event);
      EventsAreAllowed(h, event);
      AllowedSpares(h, c, pid);
      if e in h.store.work.owner { OwnerStays(h.store, c, e); }
      if e in Apply(h.store, c).work.owner && Apply(h.store, c).work.owner[e] == pid {
        NothingAcquired(h.store, c, pid, e);
      }
    }
  }

  /** Nobody records an outcome of a packet that has one. */
  lemma AllowedSpares(h: Host, c: Call, pid: PacketId)
    requires Allowed(h, c) && pid in h.store.work.failures
    ensures SparesRun(c, pid)
  {
  }

  /** The moment the packet's failure came on record: nobody else held its observed effect then if and
      only if the packet holds it now. */
  lemma {:induction false} ObservedEffectIsHeldIff(h: seq<Host>, events: seq<Event>, n: nat,
                                                   pid: PacketId, e: string) returns (i: nat)
    requires IsPlay(h, events) && n <= |events|
    requires pid in h[n].store.work.failures && pid !in h[n].store.work.receiptOf
    requires h[n].store.work.failures[pid].body.observedEffectId == Some(e)
    ensures i < n && pid !in h[i].store.work.failures && pid in h[i + 1].store.work.failures
    ensures FreeFor(h[i].store.work, e, pid)
       <==> e in h[n].store.work.owner && h[n].store.work.owner[e] == pid
  {
    hide HostInv, Inv, Step, EventWellFormed, Apply, FreeFor;
    var g, event := h[n - 1], events[n - 1];
    PlayedHostHolds(h, events, n - 1);
    HostParts(g);
    PlayedHostHolds(h, events, n);
    HostParts(h[n]);
    FailureNamesPacket(h[n].store, pid);
    if pid in g.store.work.failures {
      StepKeepsFailure(g, event, pid);
      i := ObservedEffectIsHeldIff(h, events, n - 1, pid, e);
      StepKeepsHolding(g, event, pid, e);
    } else {
      i := n - 1;
      StepAddsFailure(g, event, pid, e);
    }
  }

  lemma FailuresPersist(s: Store, c: Call, pid: PacketId)
    requires Inv(s) && pid in s.work.failures
    ensures pid in Apply(s, c).work.failures && Apply(s, c).work.failures[pid] == s.work.failures[pid]
  {
    hide Inv, RecordExecution, RecordExecutionFailure, ReconcileFailure, ReconcileEffect,
         TerminalizePreExecution, ValidateClaim, HasOpenStep, Open, EndedWith, OwnsAfterFailure,
         NonBlank, CodeSuits;
    match c
    case DoFail(p, l, code, x, seen, origin) =>
      FailureAnsweredIff(s, p, l, code, x, seen, origin);
      if RecordExecutionFailure(s, p, l, code, x, seen, origin).result.Ok? {
        FailureIsAdded(s, p, l, code, x, seen, origin);
      }
    case DoResult(p, l, r) => ResultKeepsFailures(s, p, l, r, pid);
    case _ => OthersAddNoFailure(s, c);
  }

  lemma ResultKeepsFailures(s: Store, p: TaskPacket, l: Lease, r: ExecutionResult, pid: PacketId)
    requires Inv(s) && pid in s.work.failures
    ensures var w := RecordExecution(s, p, l, r).store.work;
      pid in w.failures && w.failures[pid] == s.work.failures[pid]
  {
    hide Inv, RecordExecution, HasOpenStep, Open, Awaits, NamesRun, EndedWith;
    if !Awaits(s, p, l) {
      ResultRefused(s, p, l, r);
    } else if !NamesRun(p, l, r) || r.effectId in s.work.owner {
      ResultBecomesFailure(s, p, l, r);
    } else {
      ResultIsAdded(s, p, l, r);
    }
  }

  lemma StepKeepsFailure(g: Host, event: Event, pid: PacketId)
    requires HostInv(g) && EventWellFormed(event) && pid in g.store.work.failures
    ensures var w := Step(g, event).store.work;
      && pid in w.failures && w.failures[pid] == g.store.work.failures[pid]
      && (pid in g.store.work.receiptOf ==> pid in w.receiptOf)
  {
    hide HostInv, Inv, Apply, WellFormed, EventWellFormed, NextPhase, CallOf, Enabled;
    HostParts(g);
    if Enabled(g, event) && CallOf(g, event).Some? {
      CallIsWellFormed(g, event);
      FailuresPersist(g.store, CallOf(g, event).value, pid);
      ApplyGrows(g.store, CallOf(g, event).value);
    }
  }

  lemma StepAddsFailure(g: Host, event: Event, pid: PacketId, e: string)
    requires HostInv(g) && pid !in g.store.work.failures && pid in Step(g, event).store.work.failures
    requires Step(g, event).store.work.failures[pid].body.observedEffectId == Some(e)
    requires Step(g, event).store.work.failures[pid].body.packetId == pid
    ensures var x := Step(g, event).store.work;
      FreeFor(g.store.work, e, pid) <==> e in x.owner && x.owner[e] == pid
  {
    hide HostInv, Inv, Apply, NextPhase, CallOf, Enabled, FreeFor;
    HostParts(g);
    if Enabled(g, event) && CallOf(g, event).Some? {
      FailuresAreAdded(g.store, CallOf(g, event).value, pid);
    }
  }

  /** Whatever the callers do, what a packet holds is exactly: the effect of its receipt; before that the
      effect of its recorded result, or the effect its failure observed if nobody else held it when the
      failure came on record; and nothing while it has no outcome. */
  lemma EffectsAreExact(h: seq<Host>, events: seq<Event>, n: nat, pid: PacketId)
    requires IsPlay(h, events) && n <= |events|
    ensures var w := h[n].store.work;
      if pid in w.receiptOf then Holds(w, pid, EffectSet(w.receiptOf[pid].body.effectId))
      else if pid in w.attempts then Holds(w, pid, {w.attempts[pid].effectId})
      else if pid in w.failures && w.failures[pid].body.observedEffectId.Some? then
        var e := w.failures[pid].body.observedEffectId.value;
        exists i: nat :: i < n && pid !in h[i].store.work.failures
                         && pid in h[i + 1].store.work.failures
                         && Holds(w, pid, if FreeFor(h[i].store.work, e, pid) then {e} else {})
      else Holds(w, pid, {})
  {
    hide Step, EventWellFormed, HostInv, Inv, AcksInv, CallersFit, CallersApart, FreeFor, OutcomesInv,
         RanOnce, Holds;
    PlayedHostHolds(h, events, n);
    HostParts(h[n]);
    HeldIsOnRecord(h[n].store, pid);
    var w := h[n].store.work;
    if pid !in w.receiptOf && pid !in w.attempts && pid in w.failures
       && w.failures[pid].body.observedEffectId.Some?
    {
      var i := ObservedEffectIsHeldIff(h, events, n, pid, w.failures[pid].body.observedEffectId.value);
    }
  }

  function EffectSet(e: Option<string>): set<string> { if e.Some? then {e.value} else {} }

  lemma HeldIsOnRecord(s: Store, pid: PacketId)
    requires Inv(s) && OutcomesInv(s.work)
    ensures var w := s.work;
      if pid in w.receiptOf then Holds(w, pid, EffectSet(w.receiptOf[pid].body.effectId))
      else if pid in w.attempts then Holds(w, pid, {w.attempts[pid].effectId})
      else if pid in w.failures && w.failures[pid].body.observedEffectId.Some? then
        var e := w.failures[pid].body.observedEffectId.value;
        Holds(w, pid, if e in w.owner && w.owner[e] == pid then {e} else {})
      else Holds(w, pid, {})
  {
    hide Inv, TruthInv, ClaimsInv, StepsInv, RecoveryInv, CallbacksInv, PacketsHaveMissions,
         ReceiptsIndexed, FailuresFit, Partitioned, StartedFit, RecoveryStepsInv;
    InvParts(s);
    var w := s.work;
    if pid in w.receiptOf { assert ReceiptFits(s.claims, w, pid); }
    if pid in w.attempts { assert AttemptFits(s.claims, w, pid); }
    forall e | e in w.owner && w.owner[e] == pid ensures OwnerFits(w, e) {}
  }

  // ---------------------------------------------------------------- blocked packets

  /** Blocking callers act on a stale identity, and so does every blocked receipt. */
  ghost predicate BlockedForStaleness(h: Host) {
    && (forall k :: k in h.callers && h.callers[k].Blocking? ==> h.callers[k].code == StaleIdentity)
    && (forall id :: id in h.store.work.receipts && h.store.work.receipts[id].body.status == Blocked ==>
          h.store.work.receipts[id].body.failureCode == Some(StaleIdentity))
  }

  ghost predicate BlocksForStaleness(c: Call) { c.DoBlock? ==> c.code == StaleIdentity }

  lemma ReceiptsAfter(s: Store, c: Call, id: ReceiptId)
    requires Inv(s) && WellFormed(c) && BlocksForStaleness(c)
    requires id in Apply(s, c).work.receipts && id !in s.work.receipts
    ensures var b := Apply(s, c).work.receipts[id].body;
      b.status == Blocked ==> b.failureCode == Some(StaleIdentity)
  {
    hide Inv, WellFormed, Apply;
    if TouchesReceipts(c) {
      ReceiptCallsFile(s, c, id);
    } else if TouchesWork(c) {
      OutcomesFileNothing(s, c);
    } else {
      OthersKeepWork(s, c);
    }
  }

  lemma OutcomesFileNothing(s: Store, c: Call)
    requires c.DoBegin? || c.DoFail?
    ensures Apply(s, c).work.receipts == s.work.receipts
  {
    hide RecordExecutionFailure, ValidateClaim;
    if c.DoFail? {
      FailureWritesNoReceipt(s, c.packet, c.lease, c.code, c.evidence, c.observed, c.origin);
    }
  }

  lemma ReceiptCallsFile(s: Store, c: Call, id: ReceiptId)
    requires Inv(s) && WellFormed(c) && BlocksForStaleness(c) && TouchesReceipts(c)
    requires id in Apply(s, c).work.receipts && id !in s.work.receipts
    ensures var b := Apply(s, c).work.receipts[id].body;
      b.status == Blocked ==> b.failureCode == Some(StaleIdentity)
  {
    hide Inv, RecordExecution, ReconcileFailure, ReconcileEffect, TerminalizePreExecution, WellFormed,
         HasOpenStep, Open, OwnsAfterFailure;
    CallIsReconcilable(c);
    match c
    case DoBlock(p, l, code, d) => BlockAnsweredIff(s, p, l, code, d);
    case DoReconcileFailure(p, l, r) => FailureSettledIff(s, p, l, r);
    case DoReconcileEffect(p, l, r) => EffectSettledIff(s, p, l, r);
    case DoResult(p, l, r) => ResultReceiptSucceeds(s, p, l, r, id);
  }

  lemma FailureWritesNoReceipt(s: Store, p: TaskPacket, l: Lease, code: FailureCode, x: Evidence,
                               seen: Option<string>, origin: FailureOrigin)
    ensures RecordExecutionFailure(s, p, l, code, x, seen, origin).store.work.receipts
            == s.work.receipts
  {
    hide HoldsLease, EvidenceText, FailureCodeAllowed;
  }

  lemma ResultReceiptSucceeds(s: Store, p: TaskPacket, l: Lease, r: ExecutionResult, id: ReceiptId)
    requires Inv(s) && id !in s.work.receipts
    requires id in RecordExecution(s, p, l, r).store.work.receipts
    ensures RecordExecution(s, p, l, r).store.work.receipts[id].body.status == Succeeded
  {
    hide Inv, RecordExecution, HasOpenStep, Open, Awaits, NamesRun;
    if !Awaits(s, p, l) {
      ResultRefused(s, p, l, r);
    } else if !NamesRun(p, l, r) || r.effectId in s.work.owner {
      ResultBecomesFailure(s, p, l, r);
    } else {
      ResultIsAdded(s, p, l, r);
    }
  }

  lemma StepBlocksForStaleness(h: Host, e: Event)
    requires HostInv(h) && EventWellFormed(e) && BlockedForStaleness(h)
    ensures BlockedForStaleness(Step(h, e))
  {
    hide HostInv, Inv, Apply, WellFormed, EventWellFormed, BeginExecution, BeginDelivery,
         AcknowledgeAfterConvergence, ValidatePreparedContinuation, ValidateResume, OutcomesInv,
         AcksInv, RanOnce, CallersFit, CallersApart;
    HostParts(h);
    if Enabled(h, e) && CallOf(h, e).Some? {
      var c := CallOf(h, e).value;
      CallIsWellFormed(h, e);
      BlockingEvents(h, e);
      ApplyGrows(h.store, c);
      forall id | id in Apply(h.store, c).work.receipts
        && Apply(h.store, c).work.receipts[id].body.status == Blocked
        ensures Apply(h.store, c).work.receipts[id].body.failureCode == Some(StaleIdentity)
      {
        if id !in h.store.work.receipts { ReceiptsAfter(h.store, c, id); }
      }
    }
  }

  lemma BlockingEvents(h: Host, e: Event)
    requires BlockedForStaleness(h) && Enabled(h, e) && CallOf(h, e).Some?
    ensures BlocksForStaleness(CallOf(h, e).value)
  {
  }

  /** Through the harness a packet is blocked for a stale identity and for nothing else. */
  lemma {:induction false} HarnessBlocksForStaleness(h: seq<Host>, events: seq<Event>, n: nat,
                                                     id: ReceiptId)
    requires IsPlay(h, events) && n <= |events| && id in h[n].store.work.receipts
    requires h[n].store.work.receipts[id].body.status == Blocked
    ensures h[n].store.work.receipts[id].body.failureCode == Some(StaleIdentity)
  {
    PlayBlocksForStaleness(h, events, n);
  }

  lemma {:induction false} PlayBlocksForStaleness(h: seq<Host>, events: seq<Event>, n: nat)
    requires IsPlay(h, events) && n <= |events|
    ensures BlockedForStaleness(h[n])
  {
    hide HostInv, Step, EventWellFormed;
    if n > 0 {
      PlayBlocksForStaleness(h, events, n - 1);
      PlayedHostHolds(h, events, n - 1);
      StepBlocksForStaleness(h[n - 1], events[n - 1]);
    }
  }
}
