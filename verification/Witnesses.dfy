/** Short concrete runs in which the failures described elsewhere do happen. */
module Witnesses {
  import opened Records
  import opened StoreSpec
  import opened StoreInvariant
  import opened LedgerSafety
  import opened StoreSafety
  import opened Histories
  import opened Planning
  import opened Cycle
  import opened Stranding
  import opened Delivery

  // ---------------------------------------------------------------- a small mission

  const ROUTE: Route := Route("r", "k", "x", ["a"], "delta", "unless", 0, 0)
  const MISSION: Mission :=
    Mission("m", 1, "mode", [ExitPredicate("k", false)], [ROUTE], Destination("c", "t"))
  const PACKET: TaskPacket :=
    Seal(PacketBody("m", 1, "mode", "k", "r", "x", ["a"], [("a", 0)], "delta", "unless", 0,
                    Destination("c", "t"), None))
  const LEASE: Lease := LeaseFor(PACKET)

  lemma LettersAreText(c: char)
    requires !IsSpace(c)
    ensures NonBlank([c])
  {
    assert [c][0] == c;
  }

  lemma MissionIsWellFormed()
    ensures MissionWellFormed(MISSION) && MissionWellFormed(MISSION.(revision := 2))
  {
    LettersAreText('m');
    LettersAreText('k');
    LettersAreText('r');
    LettersAreText('x');
    LettersAreText('c');
    LettersAreText('t');
    assert MISSION.predicates[0].key == MISSION.routes[0].predicateKey;
    assert "mode"[0] == 'm' && "delta"[0] == 'd' && "unless"[0] == 'u';
  }

  lemma PlanIsPacket()
    ensures Plan(EMPTY, MISSION, None) == Outcome(Apply(EMPTY, DoRegister(MISSION)), Ok(PACKET))
  {
    var t := RegisterMission(EMPTY, MISSION).store;
    assert FirstFalse(t.truth, MISSION) == Ok(Some(MISSION.predicates[0]));
    assert EligibleRoutes(t.truth, MISSION, "k", [ROUTE]) == [ROUTE];
    assert ScopeSnapshot(t.claims.versions, ["a"]) == [("a", 0)];
  }

  // ---------------------------------------------------------------- a claimed packet

  const REGISTERED: Store := Apply(EMPTY, DoRegister(MISSION))
  const CLAIMING: seq<Call> := [DoRegister(MISSION), DoClaim(PACKET)]
  const STARTING: seq<Call> := CLAIMING + [DoBegin(PACKET, LEASE)]

  lemma RunMore(calls: seq<Call>, c: Call)
    ensures Run(EMPTY, calls + [c]) == Apply(Run(EMPTY, calls), c)
    ensures AllWellFormed(calls) && WellFormed(c) ==> AllWellFormed(calls + [c])
  {
    hide Apply, WellFormed;
    assert (calls + [c])[..|calls|] == calls;
  }

  lemma ClaimIsGranted()
    ensures AllWellFormed(CLAIMING) && Run(EMPTY, CLAIMING) == Claimed(REGISTERED, PACKET)
    ensures Claim(REGISTERED, PACKET).result == Ok(LEASE)
  {
    hide MissionWellFormed, Claim, LeaseFor, PACKET, MISSION, FirstFalse;
    MissionIsWellFormed();
    PlanIsPacket();
    FreshPlansAreNeverStale([EMPTY], [], 0, MISSION, None);
    RunMore([], DoRegister(MISSION));
    RunMore([DoRegister(MISSION)], DoClaim(PACKET));
    assert [] + [DoRegister(MISSION)] == [DoRegister(MISSION)];
    assert [DoRegister(MISSION)] + [DoClaim(PACKET)] == CLAIMING;
  }

  lemma NothingSeen()
    ensures Inv(REGISTERED) && Unseen(REGISTERED, PACKET.id)
  {
    hide Inv, MissionWellFormed, PACKET, Unseen;
    MissionIsWellFormed();
    ReachableKeepsInv([DoRegister(MISSION)]);
    RunMore([], DoRegister(MISSION));
    assert [] + [DoRegister(MISSION)] == [DoRegister(MISSION)];
    UnclaimedIsUnseen(REGISTERED, PACKET.id);
  }

  lemma StartIsGranted()
    ensures AllWellFormed(STARTING) && Run(EMPTY, STARTING) == Cycle.Started(REGISTERED, PACKET)
    ensures var s := Cycle.Started(REGISTERED, PACKET);
      && BeginExecution(Claimed(REGISTERED, PACKET), PACKET, LEASE) == Outcome(s, Ok(()))
      && s == Claimed(REGISTERED, PACKET).(work := s.work)
      && PACKET.id in s.work.started && HoldsLease(s.claims, PACKET, LEASE)
      && ValidateClaim(s, PACKET, LEASE).Ok?
  {
    hide Inv, Claim, LeaseFor, PACKET, REGISTERED, Unseen, ValidatePacket, HoldsLease, Issue, Run;
    ClaimIsGranted();
    NothingSeen();
    UnseenStarts(REGISTERED, PACKET);
    RunMore(CLAIMING, DoBegin(PACKET, LEASE));
  }

  lemma UnseenStarts(s: Store, p: TaskPacket)
    requires Unseen(s, p.id) && Claim(s, p).result == Ok(LeaseFor(p))
    ensures var t := Cycle.Started(s, p);
      && BeginExecution(Claimed(s, p), p, LeaseFor(p)) == Outcome(t, Ok(()))
      && t == Claimed(s, p).(work := t.work) && p.id in t.work.started
      && HoldsLease(t.claims, p, LeaseFor(p)) && ValidateClaim(t, p, LeaseFor(p)).Ok?
      && t.steps == s.steps
  {
    hide ValidatePacket, Claim, LeaseFor, Issue, HoldsLease;
    CycleClaims(s, p);
  }

  // ---------------------------------------------------------------- a stranded lease

  const STEP: StepAttempt :=
    Seal(StepBody(PACKET.id, LEASE.leaseId, "operation", "tool", "before", ReversibleLocal,
                  Some("effect"), Unsettled, "result", None))
  const STEPPING: seq<Call> := STARTING + [DoStep(PACKET, LEASE, STEP)]
  const STRANDING: seq<Call> := STEPPING + [DoRegister(MISSION.(revision := 2))]

  lemma StepIsText()
    ensures StepWellFormed(STEP.body)
  {
    assert "operation"[0] == 'o' && "tool"[0] == 't' && "before"[0] == 'b' && "result"[0] == 'r'
        && "effect"[0] == 'e';
  }

  /** A first step of a started packet is recorded and open. */
  lemma StepStaysOpen(s: Store, p: TaskPacket, l: Lease, step: StepAttempt)
    requires ValidateClaim(s, p, l).Ok? && p.id in s.work.started && s.steps == EMPTY.steps
    requires step.body.packetId == p.id && step.body.leaseId == l.leaseId && step.Authentic()
    requires step.body.recovery.None? && step.body.effectState == Unsettled
    ensures var t := RecordStepAttempt(s, p, l, step).store;
      t == s.(steps := t.steps) && HasUnsettledStep(t.steps, p.id)
  {
    hide ValidateClaim;
    var t := RecordStepAttempt(s, p, l, step).store;
    assert step.id in StepsOf(t.steps, p.id) && EffectiveState(t.steps, step.id) == Unsettled;
  }

  /** A step left open when the mission's next revision is registered: from then on the lease cannot be
      released (`StrandedForEver`). */
  lemma StrandingHappens()
    ensures AllWellFormed(STRANDING) && Stranded(Run(EMPTY, STRANDING), PACKET.id)
  {
    hide Inv, LeaseFor, PACKET, ValidateClaim, Run, StepWellFormed, MissionWellFormed, HoldsLease,
         RecordStepAttempt, HasUnsettledStep, Stranded, REGISTERED;
    StartIsGranted();
    StepIsText();
    MissionIsWellFormed();
    RunMore(STARTING, DoStep(PACKET, LEASE, STEP));
    RunMore(STEPPING, DoRegister(MISSION.(revision := 2)));
    var s := Cycle.Started(REGISTERED, PACKET);
    NothingStepped();
    StepStaysOpen(s, PACKET, LEASE, STEP);
    SupersededStrands(RecordStepAttempt(s, PACKET, LEASE, STEP).store);
  }

  lemma NothingStepped()
    ensures var s := Cycle.Started(REGISTERED, PACKET);
      s.steps == EMPTY.steps && s.truth.missions == map["m" := MISSION]
  {
    hide PACKET, LeaseFor, ValidatePacket, Issue;
  }

  lemma SupersededStrands(s: Store)
    requires HoldsLease(s.claims, PACKET, LEASE) && HasUnsettledStep(s.steps, PACKET.id)
    requires s.truth.missions == map["m" := MISSION]
    ensures Stranded(RegisterMission(s, MISSION.(revision := 2)).store, PACKET.id)
  {
    hide HasUnsettledStep, LeaseFor;
  }

  // ---------------------------------------------------------------- a foreign acknowledgement

  const WORLD: Outside :=
    Outside("effect", "output", true, "token", "turn",
            Seal(ReadbackBody("m", 1, "state", 0, [], "evidence")))
  const RESULT: ExecutionResult := ResultOf(PACKET, LEASE, WORLD)
  const RECEIPT: TerminalReceipt := ReceiptOf(PACKET, WORLD)
  const EXECUTED: Store := Executed(REGISTERED, PACKET, WORLD).store
  const PREPARED: Continuation := ContinuationFor(RECEIPT.id, MISSION.destination)
  const FOREIGN: TerminalReceipt := Sealed(RECEIPT.body.(packetId := Raw("other")), RECEIPT.id)
  const TURN: ConvergenceProof := TurnOf(PREPARED, RECEIPT, WORLD)

  const EXECUTING: seq<Call> := STARTING + [DoResult(PACKET, LEASE, RESULT)]
  const PREPARING: seq<Call> := EXECUTING + [DoPrepare(RECEIPT)]
  const DELIVERING: seq<Call> := PREPARING + [DoDeliver(PREPARED, RECEIPT)]
  const ACKNOWLEDGING: seq<Call> :=
    DELIVERING + [DoAcknowledge(PREPARED.(state := DeliveryStarted), FOREIGN, TURN)]

  lemma TextsAreText()
    ensures NonBlank("effect") && NonBlank("output") && NonBlank("token") && NonBlank("turn")
    ensures NonBlank("x")
  {
    LettersAreText('x');
    assert "effect"[0] == 'e' && "output"[0] == 'o' && "token"[0] == 't' && "turn"[0] == 't';
  }

  lemma ResultIsWellFormed()
    ensures ResultWellFormed(RESULT)
  {
    hide NonBlank;
    TextsAreText();
  }

  lemma ExecutionSucceeds()
    ensures AllWellFormed(EXECUTING) && Run(EMPTY, EXECUTING) == EXECUTED
    ensures Authoritative(EXECUTED.work, RECEIPT) && EXECUTED.callbacks == EMPTY.callbacks
    ensures PACKET.id in EXECUTED.claims.packets && EXECUTED.claims.packets[PACKET.id] == PACKET
  {
    hide Inv, Claim, PACKET, REGISTERED, Unseen, Issue, Run, ResultWellFormed, ReceiptOf, Executed,
         Release, Cycle.Started, HoldsLease, ValidateClaim;
    ClaimIsGranted();
    StartIsGranted();
    NothingSeen();
    ResultIsWellFormed();
    NothingOwned();
    CycleExecutes(REGISTERED, PACKET, WORLD);
    ClaimStays(REGISTERED, PACKET);
    RunMore(STARTING, DoResult(PACKET, LEASE, RESULT));
    ExecutedIsApply();
  }

  lemma ExecutedIsApply()
    ensures Apply(Cycle.Started(REGISTERED, PACKET), DoResult(PACKET, LEASE, RESULT)) == EXECUTED
  {
  }

  lemma NothingOwned()
    ensures REGISTERED.callbacks == EMPTY.callbacks && REGISTERED.work == EMPTY.work
  {
  }

  /** The store compares a continuation's receipt by its id only. */
  lemma ForeignReceiptIsAccepted(s: Store, receipt: TerminalReceipt, foreign: TerminalReceipt,
                                 d: Destination, w: Outside)
    requires Authoritative(s.work, receipt) && s.callbacks == EMPTY.callbacks
    requires receipt.body.packetId in s.claims.packets
    requires s.claims.packets[receipt.body.packetId].body.destination == d
    requires foreign.id == receipt.id && NonBlank(w.turnId)
    ensures var n := ContinuationFor(receipt.id, d);
            var a := PrepareContinuation(s, receipt).store;
            var b := BeginDelivery(a, n, receipt).store;
      && BeginDelivery(a, n, receipt).result.Ok? && b.work == s.work
      && AcknowledgeAfterConvergence(b, n.(state := DeliveryStarted), foreign,
                                     TurnOf(n, receipt, w)).result.Ok?
  {
    hide NonBlank;
  }

  lemma ForeignRun()
    ensures AllWellFormed(ACKNOWLEDGING)
    ensures var s := Run(EMPTY, DELIVERING);
      s.work == EXECUTED.work && !AcknowledgesOwnPacket(s, ACKNOWLEDGING[|DELIVERING|])
  {
    hide PACKET, EXECUTED, Run, ReceiptOf, ContinuationFor, TurnOf, Authoritative, BeginDelivery,
         PrepareContinuation, AcknowledgeAfterConvergence, MISSION, NonBlank;
    ExecutionSucceeds();
    TextsAreText();
    ForeignNamesPacket();
    ForeignReceiptIsAccepted(EXECUTED, RECEIPT, FOREIGN, MISSION.destination, WORLD);
    RunMore(EXECUTING, DoPrepare(RECEIPT));
    RunMore(PREPARING, DoDeliver(PREPARED, RECEIPT));
    TurnIsWellFormed();
    RunMore(DELIVERING, DoAcknowledge(PREPARED.(state := DeliveryStarted), FOREIGN, TURN));
    ForeignIsForeign(Run(EMPTY, DELIVERING));
  }

  lemma ForeignNamesPacket()
    ensures RECEIPT.body.packetId == PACKET.id && FOREIGN.id == RECEIPT.id
    ensures PACKET.body.destination == MISSION.destination
  {
    hide LeaseFor;
  }

  lemma TurnIsWellFormed()
    ensures WellFormed(DoAcknowledge(PREPARED.(state := DeliveryStarted), FOREIGN, TURN))
  {
    hide ReceiptOf, PACKET;
  }

  lemma ForeignIsForeign(s: Store)
    requires Authoritative(s.work, RECEIPT)
    ensures !NamesOwnPacket(s.work, FOREIGN)
  {
    hide LeaseFor;
  }

  /** A well-formed run whose last call acknowledges a delivery with a receipt that keeps the stored
      receipt's id under another packet: it is accepted, and the correspondence is gone. */
  lemma ForeignAcknowledgementHappens() returns (h: seq<Store>)
    ensures IsHistory(h, ACKNOWLEDGING)
    ensures !AcknowledgesOwnPacket(h[|DELIVERING|], ACKNOWLEDGING[|DELIVERING|])
    ensures AcknowledgedOneToOne(h[|DELIVERING|]) && !AcknowledgedOneToOne(h[|ACKNOWLEDGING|])
  {
    hide Apply, WellFormed, AcknowledgesOwnPacket, AcknowledgedOneToOne, PACKET, PREPARED, FOREIGN,
         TURN, RECEIPT, EXECUTED, RESULT, LEASE, Run;
    ForeignRun();
    h := RunHasHistory(ACKNOWLEDGING);
    var n := |DELIVERING|;
    assert ACKNOWLEDGING[..n] == DELIVERING;
    HistoryIsRun(h, ACKNOWLEDGING, n);
    forall i: nat | i < n ensures AcknowledgesOwnPacket(h[i], ACKNOWLEDGING[i]) {
      OthersAcknowledgeNothing(h[i], ACKNOWLEDGING[i]);
    }
    AcknowledgementsExactIff(h, ACKNOWLEDGING, n);
    AcknowledgementsExactIff(h, ACKNOWLEDGING, n + 1);
  }

  lemma OthersAcknowledgeNothing(s: Store, c: Call)
    requires !c.DoAcknowledge?
    ensures AcknowledgesOwnPacket(s, c)
  {
  }
}
