/** Every step of the machine of callers keeps the host invariant. */
module HostSafety {
  import opened Records
  import opened StoreSpec
  import opened StoreInvariant
  import opened LedgerSafety
  import opened StoreSafety
  import opened Frames
  import opened Delivery
  import opened Harness
  import opened HarnessSafety

  // ---------------------------------------------------------------- the store call of an event

  /** The call is one the host state allows: outcomes come from a running execution, turns from a
      started delivery. */
  ghost predicate Allowed(h: Host, c: Call) {
    && ((c.DoResult? || c.DoFail?) ==> RunningFits(h.store, c.packet, c.lease))
    && ((c.DoAcknowledge? || c.DoUnsettle?) ==> TurnFits(h.store, c.continuation, c.receipt))
  }

  lemma EventsAreAllowed(h: Host, e: Event)
    requires CallersFit(h.store, h.callers) && Enabled(h, e) && CallOf(h, e).Some?
    ensures Allowed(h, CallOf(h, e).value)
  {
    hide RunningFits, TurnFits;
    match e
    case Api(_) =>
    case Execute(_, _, _, _) =>
    case Block(_) =>
    case ExecutorEnds(k, r) => assert PhaseFits(h.store, h.callers[k]);
    case Submit(_) =>
    case TurnEnds(k, _) => assert PhaseFits(h.store, h.callers[k]);
    case MarkUnsettled(k) => assert PhaseFits(h.store, h.callers[k]);
  }

  lemma RunHasNoOutcome(s: Store, p: TaskPacket, l: Lease)
    requires RunningFits(s, p, l)
    ensures NoOutcome(s.work, p.id)
  {
  }

  /** A started delivery presents the stored receipt, hence one of its own packet. */
  lemma TurnNamesOwnPacket(s: Store, n: Continuation, receipt: TerminalReceipt)
    requires TurnFits(s, n, receipt)
    ensures NamesOwnPacket(s.work, receipt)
  {
  }

  lemma AllowedKeepsStore(h: Host, c: Call)
    requires Inv(h.store) && OutcomesInv(h.store.work) && AcksInv(h.store.work, h.store.callbacks)
    requires WellFormed(c) && Allowed(h, c)
    ensures var t := Apply(h.store, c);
      Inv(t) && OutcomesInv(t.work) && AcksInv(t.work, t.callbacks)
  {
    hide Inv, OutcomesInv, AcksInv, WellFormed, Apply, RunningFits, TurnFits, NoOutcome,
         NamesOwnPacket, AcknowledgeAfterConvergence;
    if c.DoResult? || c.DoFail? { RunHasNoOutcome(h.store, c.packet, c.lease); }
    if c.DoAcknowledge? { TurnNamesOwnPacket(h.store, c.continuation, c.receipt); }
    ApplyKeepsInv(h.store, c);
    CallKeepsOutcomes(h.store, c);
    ApplyKeepsAcksIff(h.store, c);
  }

  // ---------------------------------------------------------------- other callers

  lemma OtherCallerStays(h: Host, e: Event, k: nat)
    requires HostInv(h) && EventWellFormed(e) && Enabled(h, e) && CallOf(h, e).Some?
    requires k in h.callers && (!e.Api? ==> e.caller != k)
    ensures PhaseFits(Apply(h.store, CallOf(h, e).value), h.callers[k])
  {
    hide Inv, OutcomesInv, AcksInv, WellFormed, Apply, RunningFits, TurnFits, RanOnce;
    var c := CallOf(h, e).value;
    CallIsWellFormed(h, e);
    assert PhaseFits(h.store, h.callers[k]);
    if h.callers[k].Executing? {
      RunIsSpared(h, e, k);
      CallSparesRun(h.store, c, h.callers[k].packet, h.callers[k].lease);
    } else if InTurn(h.callers[k]) {
      TurnIsSpared(h, e, k);
      CallSparesTurn(h.store, c, h.callers[k].continuation, h.callers[k].receipt);
    }
  }

  lemma RunIsSpared(h: Host, e: Event, k: nat)
    requires CallersApart(h.callers) && Enabled(h, e) && CallOf(h, e).Some?
    requires k in h.callers && h.callers[k].Executing? && (!e.Api? ==> e.caller != k)
    ensures SparesRun(CallOf(h, e).value, h.callers[k].packet.id)
  {
    match e
    case ExecutorEnds(j, r) =>
      assert SamePacket(h.callers[j], h.callers[k]) ==> j == k;
    case _ =>
  }

  lemma TurnIsSpared(h: Host, e: Event, k: nat)
    requires CallersApart(h.callers) && Enabled(h, e) && CallOf(h, e).Some?
    requires k in h.callers && InTurn(h.callers[k]) && (!e.Api? ==> e.caller != k)
    ensures SparesTurn(CallOf(h, e).value, h.callers[k].continuation.continuationId)
  {
    match e
    case TurnEnds(j, _) => assert SameTurn(h.callers[j], h.callers[k]) ==> j == k;
    case MarkUnsettled(j) => assert SameTurn(h.callers[j], h.callers[k]) ==> j == k;
    case _ =>
  }

  // ---------------------------------------------------------------- the caller itself

  lemma UnstartedHasNoOutcome(s: Store, pid: PacketId)
    requires Inv(s) && pid !in s.work.started && pid !in s.work.receiptOf
    ensures NoOutcome(s.work, pid)
  {
    hide TruthInv, ClaimsInv, StepsInv, RecoveryInv, CallbacksInv, PacketsHaveMissions, ReceiptsFit,
         ReceiptsIndexed, Partitioned;
    assert pid in s.work.attempts ==> AttemptFits(s.claims, s.work, pid);
    assert pid in s.work.failures ==> FailureFits(s.claims, s.work, pid);
  }

  lemma BegunRunFits(s: Store, p: TaskPacket, l: Lease)
    requires Inv(s) && BeginExecution(s, p, l).result.Ok?
    ensures RunningFits(BeginExecution(s, p, l).store, p, l)
    ensures p.id !in s.work.started
    ensures BeginExecution(s, p, l).store.work.started == s.work.started + {p.id}
  {
    hide Inv, ValidatePacket;
    UnstartedHasNoOutcome(s, p.id);
  }

  lemma BegunTurnFits(s: Store, n: Continuation, receipt: TerminalReceipt)
    requires BeginDelivery(s, n, receipt).result.Ok?
    ensures TurnFits(BeginDelivery(s, n, receipt).store, BeginDelivery(s, n, receipt).result.value,
                     receipt)
    ensures BeginDelivery(s, n, receipt).result.value == n.(state := DeliveryStarted)
    ensures IsCurrent(s.callbacks, n) && n.state == Prepared
  {
  }

  lemma FailedAcknowledgementChangesNothing(s: Store, n: Continuation, receipt: TerminalReceipt,
                                            proof: ConvergenceProof)
    requires !AcknowledgeAfterConvergence(s, n, receipt, proof).result.Ok?
    ensures AcknowledgeAfterConvergence(s, n, receipt, proof).store == s
  {
  }

  lemma NextPhaseFits(h: Host, e: Event)
    requires HostInv(h) && Enabled(h, e) && NextPhase(h, e).Some?
    ensures PhaseFits(StoreAfter(h, e), NextPhase(h, e).value)
  {
    hide Inv, OutcomesInv, AcksInv, RunningFits, TurnFits, RanOnce, BeginExecution, BeginDelivery,
         AcknowledgeAfterConvergence, ValidatePreparedContinuation, ValidateResume, CallersApart;
    match e
    case Execute(k, p, l, x) =>
      if BeginExecution(h.store, p, l).result.Ok? { BegunRunFits(h.store, p, l); }
    case Submit(k) =>
      var phase := h.callers[k];
      if BeginDelivery(h.store, phase.continuation, phase.receipt).result.Ok? {
        BegunTurnFits(h.store, phase.continuation, phase.receipt);
      }
    case TurnEnds(k, turn) =>
      var phase := h.callers[k];
      assert PhaseFits(h.store, phase);
      if turn.Turned? {
        if !AcknowledgeAfterConvergence(h.store, phase.continuation, phase.receipt,
                                        turn.proof).result.Ok? {
          FailedAcknowledgementChangesNothing(h.store, phase.continuation, phase.receipt, turn.proof);
        }
      }
    case _ =>
  }

  /** A newly begun execution or delivery is nobody else's. */
  lemma NextPhaseIsApart(h: Host, e: Event, k: nat)
    requires HostInv(h) && Enabled(h, e) && !e.Api? && NextPhase(h, e).Some?
    requires k in h.callers && k != e.caller
    ensures !SamePacket(NextPhase(h, e).value, h.callers[k])
    ensures !SameTurn(NextPhase(h, e).value, h.callers[k])
  {
    hide Inv, OutcomesInv, AcksInv, RanOnce, BeginExecution, BeginDelivery, CallersApart,
         AcknowledgeAfterConvergence, ValidatePreparedContinuation, ValidateResume, HoldsLease,
         NoOutcome, Authoritative;
    assert PhaseFits(h.store, h.callers[k]);
    match e
    case Execute(_, p, l, x) =>
      if BeginExecution(h.store, p, l).result.Ok? { BegunRunFits(h.store, p, l); }
    case Submit(j) =>
      var phase := h.callers[j];
      if BeginDelivery(h.store, phase.continuation, phase.receipt).result.Ok? {
        BegunTurnFits(h.store, phase.continuation, phase.receipt);
      }
    case TurnEnds(j, turn) => TurnStaysApart(h, j, k);
    case _ =>
  }

  lemma TurnStaysApart(h: Host, j: nat, k: nat)
    requires CallersApart(h.callers) && j in h.callers && k in h.callers && j != k
    ensures !SameTurn(h.callers[j], h.callers[k])
  {
  }

  // ---------------------------------------------------------------- the step

  lemma StepKeepsCallers(h: Host, e: Event)
    requires HostInv(h) && EventWellFormed(e) && Enabled(h, e)
    ensures CallersFit(Step(h, e).store, Step(h, e).callers)
  {
    hide HostInv, CallOf, NextPhase, EventWellFormed, PhaseFits, Enabled;
    var t := Step(h, e);
    forall k | k in t.callers ensures PhaseFits(t.store, t.callers[k]) {
      if !e.Api? && k == e.caller {
        NextPhaseFits(h, e);
      } else if CallOf(h, e).Some? {
        OtherCallerStays(h, e, k);
      } else {
        OldPhaseFits(h, k);
      }
    }
  }

  lemma OldPhaseFits(h: Host, k: nat)
    requires HostInv(h) && k in h.callers
    ensures PhaseFits(h.store, h.callers[k])
  {
    hide Inv, OutcomesInv, AcksInv, RanOnce, PhaseFits, CallersApart;
  }

  lemma StepKeepsApart(h: Host, e: Event)
    requires HostInv(h) && EventWellFormed(e) && Enabled(h, e)
    ensures CallersApart(Step(h, e).callers)
  {
    hide HostInv, CallOf, NextPhase, EventWellFormed, SamePacket, SameTurn, Enabled, StoreAfter;
    assert CallersApart(h.callers) by { ApartOf(h); }
    var t := Step(h, e);
    forall j, k | j in t.callers && k in t.callers
      && (SamePacket(t.callers[j], t.callers[k]) || SameTurn(t.callers[j], t.callers[k]))
      ensures j == k
    {
      if j != k && !e.Api? && (j == e.caller || k == e.caller) {
        var other := if j == e.caller then k else j;
        NextPhaseIsApart(h, e, other);
        Symmetric(t.callers[j], t.callers[k]);
      }
    }
  }

  lemma Symmetric(a: Phase, b: Phase)
    ensures SamePacket(a, b) == SamePacket(b, a) && SameTurn(a, b) == SameTurn(b, a)
  {
  }

  lemma ApartOf(h: Host)
    requires HostInv(h)
    ensures CallersApart(h.callers)
  {
    hide Inv, OutcomesInv, AcksInv, RanOnce, CallersFit, CallersApart;
  }

  lemma StepKeepsRuns(h: Host, e: Event)
    requires Inv(h.store) && RanOnce(h.ran, h.store.work.started) && Enabled(h, e)
    ensures RanOnce(Step(h, e).ran, Step(h, e).store.work.started)
  {
    hide Inv, BeginExecution, Apply;
    if e.Execute? && e.executorId == e.packet.body.executorId {
      BeginIsApply(h.store, e.packet, e.lease);
      if BeginExecution(h.store, e.packet, e.lease).result.Ok? {
        BegunRunFits(h.store, e.packet, e.lease);
      } else {
        FailedBeginChangesNothing(h.store, e.packet, e.lease);
      }
    } else if CallOf(h, e).Some? {
      StartedStays(h.store, CallOf(h, e).value);
    }
  }

  lemma BeginIsApply(s: Store, p: TaskPacket, l: Lease)
    ensures Apply(s, DoBegin(p, l)) == BeginExecution(s, p, l).store
  {
  }

  lemma FailedBeginChangesNothing(s: Store, p: TaskPacket, l: Lease)
    requires !BeginExecution(s, p, l).result.Ok?
    ensures BeginExecution(s, p, l).store == s
  {
  }

  lemma StartedStays(s: Store, c: Call)
    requires !c.DoBegin?
    ensures Apply(s, c).work.started == s.work.started
  {
    if TouchesWork(c) {
      hide HasUnsettledStep, HoldsLease, EvidenceText, FailureCodeAllowed;
    } else {
      OthersKeepWork(s, c);
    }
  }

  lemma StepKeepsHost(h: Host, e: Event)
    requires HostInv(h) && EventWellFormed(e)
    ensures HostInv(Step(h, e))
  {
    hide Inv, OutcomesInv, AcksInv, RanOnce, CallersFit, CallersApart, CallOf, NextPhase, Enabled,
         EventWellFormed, Allowed, Apply, WellFormed;
    if Enabled(h, e) {
      if CallOf(h, e).Some? {
        CallIsWellFormed(h, e);
        EventsAreAllowed(h, e);
        AllowedKeepsStore(h, CallOf(h, e).value);
      }
      StepKeepsRuns(h, e);
      StepKeepsCallers(h, e);
      StepKeepsApart(h, e);
    }
  }

  lemma StartHoldsHost()
    ensures HostInv(START)
  {
    EmptyHoldsInv();
    hide Inv;
  }

  /** Every state of every play, however its callers interleave. */
  lemma {:induction false} PlayKeepsHost(events: seq<Event>)
    requires AllEventsWellFormed(events)
    ensures HostInv(Play(events))
  {
    hide HostInv, Step, EventWellFormed;
    if |events| == 0 {
      StartHoldsHost();
    } else {
      PlayKeepsHost(events[..|events| - 1]);
      StepKeepsHost(Play(events[..|events| - 1]), events[|events| - 1]);
    }
  }

  lemma PlayedHostHolds(h: seq<Host>, events: seq<Event>, n: nat)
    requires IsPlay(h, events) && n <= |events|
    ensures HostInv(h[n])
  {
    hide HostInv, Play, Step, EventWellFormed;
    PlayIsReached(h, events, n);
    PlayKeepsHost(events[..n]);
  }
}
