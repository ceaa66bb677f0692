/** Callback delivery over whole runs: no blind redelivery, fixed identities, exact
    acknowledgements. */
module Delivery {
  import opened Records
  import opened StoreSpec
  import opened StoreInvariant
  import opened LedgerSafety
  import opened StoreSafety
  import opened Frames
  import opened Histories
  import opened DeliveryLaws

  // ---------------------------------------------------------------- counting

  /** The call starts a delivery of continuation `id`: it presents the stored prepared continuation
      with its stored receipt. */
  predicate StartsDelivery(s: Store, c: Call, id: ContinuationId) {
    && c.DoDeliver? && c.continuation.continuationId == id
    && StandsAt(s.callbacks, c.continuation, Prepared)
    && c.continuation.receiptId == c.receipt.id && Stored(s.work, c.receipt)
  }

  /** The call presents an authentic proof that the unsettled turn of continuation `id` itself was not
      delivered: of that continuation, for its receipt, at its destination, under its turn request. */
  predicate ProvesAbsence(s: Store, c: Call, id: ContinuationId) {
    && c.DoReconcileContinuation? && c.reconciliation.continuationId == id
    && c.reconciliation.state == NotCommitted && OfUnsettled(s, c.receipt, c.reconciliation)
    && c.proof.Some? && c.proof.value.Absent?
    && ProvesTurnAbsent(s.callbacks.continuations[id], c.reconciliation, c.proof.value.absence)
  }

  function Starts(calls: seq<Call>, id: ContinuationId): nat {
    if |calls| == 0 then 0
    else
      var front, last := calls[..|calls| - 1], calls[|calls| - 1];
      Starts(front, id) + if StartsDelivery(Run(EMPTY, front), last, id) then 1 else 0
  }

  function Absences(calls: seq<Call>, id: ContinuationId): nat {
    if |calls| == 0 then 0
    else
      var front, last := calls[..|calls| - 1], calls[|calls| - 1];
      Absences(front, id) + if ProvesAbsence(Run(EMPTY, front), last, id) then 1 else 0
  }

  /** One while a delivery of `id` is in the world: started and not proven absent. */
  function Outstanding(k: CallbackLedger, id: ContinuationId): nat {
    if id in k.continuations && k.continuations[id].state != Prepared then 1 else 0
  }

  // ---------------------------------------------------------------- one call

  ghost predicate SameIdentity(a: Continuation, b: Continuation) {
    b == a.(state := b.state) && (a.state == Acknowledged ==> b == a)
  }

  /** What one call does to one continuation. */
  ghost predicate CallbackStep(k: CallbackLedger, x: CallbackLedger, id: ContinuationId,
                               starts: bool, absent: bool) {
    && (id in k.continuations ==>
          id in x.continuations && SameIdentity(k.continuations[id], x.continuations[id]))
    && Outstanding(x, id) + (if absent then 1 else 0) == Outstanding(k, id) + (if starts then 1 else 0)
  }

  lemma PrepareSteps(s: Store, receipt: TerminalReceipt, id: ContinuationId)
    requires CallbacksInv(s.claims, s.work, s.callbacks)
    ensures CallbackStep(s.callbacks, PrepareContinuation(s, receipt).store.callbacks, id, false,
                         false)
  {
    hide CallbacksInv, Authoritative;
    var o := PrepareContinuation(s, receipt);
    if o.store != s {
      PrepareIsNew(s.claims, s.work, s.callbacks, receipt, o.result.value.destination);
    }
  }

  lemma DeliverSteps(s: Store, n: Continuation, receipt: TerminalReceipt, id: ContinuationId)
    ensures CallbackStep(s.callbacks, BeginDelivery(s, n, receipt).store.callbacks, id,
                         StartsDelivery(s, DoDeliver(n, receipt), id), false)
  {
  }

  lemma UnsettleSteps(s: Store, n: Continuation, receipt: TerminalReceipt, id: ContinuationId)
    ensures CallbackStep(s.callbacks, MarkDeliveryUnsettled(s, n, receipt).store.callbacks, id,
                         false, false)
  {
  }

  lemma AcknowledgeSteps(s: Store, n: Continuation, receipt: TerminalReceipt,
                         proof: ConvergenceProof, expected: ContinuationState, id: ContinuationId)
    requires expected != Prepared && expected != Acknowledged
    ensures CallbackStep(s.callbacks,
                         AcknowledgeDelivery(s, n, receipt, proof, expected).store.callbacks, id,
                         false, false)
  {
    hide NonBlank;
  }

  lemma ReconcileSteps(s: Store, receipt: TerminalReceipt, r: ContinuationReconciliation,
                       proof: Option<DeliveryProof>, id: ContinuationId)
    requires Inv(s)
    ensures CallbackStep(s.callbacks, ReconcileContinuation(s, receipt, r, proof).store.callbacks,
                         id, false,
                         ProvesAbsence(s, DoReconcileContinuation(receipt, r, proof), id))
  {
    hide Inv, ReconcileContinuation, ProvesTurnAbsent, NamesTurn, Completed, Stored;
    if !OfUnsettled(s, receipt, r) {
      UnboundReconciliation(s, receipt, r, proof);
    } else if r.state == NotCommitted {
      AbsenceAcceptedIff(s, receipt, r, proof);
      KeyedById(s, r.continuationId);
    } else {
      ConvergenceAcceptedIff(s, receipt, r, proof);
      KeyedById(s, r.continuationId);
    }
  }

  lemma KeyedById(s: Store, id: ContinuationId)
    requires Inv(s) && id in s.callbacks.continuations
    ensures s.callbacks.continuations[id].continuationId == id
  {
    hide Inv, CallbacksInv, TruthInv, ClaimsInv, WorkInv, StepsInv, RecoveryInv, RecoveryStepsInv,
         PacketsHaveMissions;
    InvParts(s);
    CurrentHasId(s, id);
  }

  lemma ApplySteps(s: Store, c: Call, id: ContinuationId)
    requires Inv(s)
    ensures CallbackStep(s.callbacks, Apply(s, c).callbacks, id, StartsDelivery(s, c, id),
                         ProvesAbsence(s, c, id))
  {
    ApplyFrame(s, c);
    InvParts(s);
    hide Inv, CallbacksInv, PrepareContinuation, BeginDelivery, MarkDeliveryUnsettled,
         AcknowledgeDelivery, ReconcileContinuation, Outstanding, SameIdentity;
    if c.DoPrepare? {
      PrepareSteps(s, c.receipt, id);
    } else if c.DoDeliver? {
      DeliverSteps(s, c.continuation, c.receipt, id);
    } else if c.DoUnsettle? {
      UnsettleSteps(s, c.continuation, c.receipt, id);
    } else if c.DoAcknowledge? {
      AcknowledgeSteps(s, c.continuation, c.receipt, c.turn, DeliveryStarted, id);
    } else if c.DoReconcileContinuation? {
      ReconcileSteps(s, c.receipt, c.reconciliation, c.proof, id);
    } else {
      hide Apply;
      Untouched(s.callbacks, id);
    }
  }

  lemma Untouched(k: CallbackLedger, id: ContinuationId)
    ensures CallbackStep(k, k, id, false, false)
  {
  }

  // ---------------------------------------------------------------- whole runs

  /** Every start but the last has been proven absent, and the last one too once the continuation
      is PREPARED again: nothing is ever delivered twice on a guess. */
  lemma {:induction false} NoBlindRedelivery(calls: seq<Call>, id: ContinuationId)
    requires AllWellFormed(calls)
    ensures var k := Run(EMPTY, calls).callbacks;
      Starts(calls, id) == Absences(calls, id)
        + if id in k.continuations && k.continuations[id].state != Prepared then 1 else 0
  {
    hide Apply, WellFormed, StartsDelivery, ProvesAbsence, Inv, SameIdentity;
    if |calls| > 0 {
      var front := calls[..|calls| - 1];
      NoBlindRedelivery(front, id);
      ReachableKeepsInv(front);
      ApplySteps(Run(EMPTY, front), calls[|calls| - 1], id);
    }
  }

  /** Once prepared, a continuation keeps its id, receipt, destination and turn request for ever,
      and once acknowledged it never changes at all. */
  lemma {:induction false} ContinuationsKeepIdentity(calls: seq<Call>, early: nat,
                                                     id: ContinuationId)
    requires AllWellFormed(calls) && early <= |calls|
    requires id in Run(EMPTY, calls[..early]).callbacks.continuations
    ensures id in Run(EMPTY, calls).callbacks.continuations
    ensures var a := Run(EMPTY, calls[..early]).callbacks.continuations[id];
            var b := Run(EMPTY, calls).callbacks.continuations[id];
      && b.continuationId == a.continuationId == id && b.receiptId == a.receiptId
      && b.destination == a.destination && b.turnRequestId == a.turnRequestId
      && (a.state == Acknowledged ==> b == a)
    decreases |calls|
  {
    hide Apply, WellFormed, StartsDelivery, ProvesAbsence, Inv, Outstanding;
    if early == |calls| {
      assert calls[..early] == calls;
      ReachableKeepsInv(calls);
      InvParts(Run(EMPTY, calls));
      CurrentHasId(Run(EMPTY, calls), id);
    } else {
      var front := calls[..|calls| - 1];
      assert front[..early] == calls[..early];
      ContinuationsKeepIdentity(front, early, id);
      ReachableKeepsInv(front);
      ApplySteps(Run(EMPTY, front), calls[|calls| - 1], id);
    }
  }

  // ---------------------------------------------------------------- acknowledgements

  /** An accepted `acknowledge_after_convergence` presents a receipt of the continuation's own
      packet.  The harness passes the stored receipt; the store itself does not compare it. */
  ghost predicate AcknowledgesOwnPacket(s: Store, c: Call) {
    (c.DoAcknowledge? && AcknowledgeAfterConvergence(s, c.continuation, c.receipt, c.turn).result.Ok?)
      ==> NamesOwnPacket(s.work, c.receipt)
  }

  ghost predicate CallbacksMoved(s: Store, c: Call) { AcksInv(s.work, Apply(s, c).callbacks) }

  lemma PrepareMoves(s: Store, receipt: TerminalReceipt)
    requires CallbacksInv(s.claims, s.work, s.callbacks) && ReceiptsIndexed(s.work)
    requires AcksInv(s.work, s.callbacks)
    ensures AcksInv(s.work, PrepareContinuation(s, receipt).store.callbacks)
  {
    hide CallbacksInv, AcksInv, ReceiptsIndexed, AddContinuation;
    var o := PrepareContinuation(s, receipt);
    if o.store != s {
      PrepareKeepsAcks(s.claims, s.work, s.callbacks, receipt, o.result.value);
    }
  }

  lemma DeliverMoves(s: Store, n: Continuation, receipt: TerminalReceipt)
    requires AcksInv(s.work, s.callbacks)
    ensures AcksInv(s.work, BeginDelivery(s, n, receipt).store.callbacks)
    ensures AcksInv(s.work, MarkDeliveryUnsettled(s, n, receipt).store.callbacks)
  {
    hide AcksInv, PutContinuation, Authoritative;
    var o, u := BeginDelivery(s, n, receipt), MarkDeliveryUnsettled(s, n, receipt);
    if o.result.Ok? { MoveKeepsAcks(s.work, s.callbacks, o.result.value); }
    if u.result.Ok? { MoveKeepsAcks(s.work, s.callbacks, u.result.value); }
  }

  lemma AcknowledgeMoves(s: Store, n: Continuation, receipt: TerminalReceipt,
                         proof: ConvergenceProof, expected: ContinuationState)
    requires CallbacksInv(s.claims, s.work, s.callbacks) && ReceiptsIndexed(s.work)
    requires AcksInv(s.work, s.callbacks) && expected != Acknowledged
    ensures var o := AcknowledgeDelivery(s, n, receipt, proof, expected);
      AcksInv(s.work, o.store.callbacks) <==> (o.result.Ok? ==> NamesOwnPacket(s.work, receipt))
  {
    hide CallbacksInv, AcksInv, ReceiptsIndexed, AddAck, AckFor, NonBlank, NamesOwnPacket;
    var o := AcknowledgeDelivery(s, n, receipt, proof, expected);
    if o.result.Ok? {
      AckKeepsAcksIffReceiptNamesPacket(s.claims, s.work, s.callbacks, n, receipt, proof);
    }
  }

  lemma ReconcileMoves(s: Store, receipt: TerminalReceipt, r: ContinuationReconciliation,
                       proof: Option<DeliveryProof>)
    requires CallbacksInv(s.claims, s.work, s.callbacks) && ReceiptsIndexed(s.work)
    requires AcksInv(s.work, s.callbacks)
    ensures AcksInv(s.work, ReconcileContinuation(s, receipt, r, proof).store.callbacks)
  {
    hide CallbacksInv, AcksInv, ReceiptsIndexed, AbsenceExact, AcknowledgeDelivery,
         PutContinuation;
    var k := s.callbacks.continuations;
    if r.continuationId in k && Authoritative(s.work, receipt)
       && k[r.continuationId].state == DeliveryUnsettled {
      CurrentHasId(s, r.continuationId);
      MoveKeepsAcks(s.work, s.callbacks, k[r.continuationId].(state := Prepared));
      if proof.Some? && proof.value.Converged? {
        AcknowledgeMoves(s, k[r.continuationId], receipt, proof.value.proof, DeliveryUnsettled);
      }
    }
  }

  lemma CallbackCallMoves(s: Store, c: Call)
    requires Inv(s) && AcksInv(s.work, s.callbacks) && TouchesCallbacks(c)
    ensures CallbacksMoved(s, c) <==> AcknowledgesOwnPacket(s, c)
  {
    InvParts(s);
    hide Inv, CallbacksInv, AcksInv, PrepareContinuation, BeginDelivery, MarkDeliveryUnsettled,
         AcknowledgeDelivery, ReconcileContinuation, NamesOwnPacket, ReceiptsFit, AttemptsFit,
         FailuresFit, StartedFit, Partitioned, ReceiptsIndexed, StepsInv, ClaimsInv, RecoveryInv;
    if c.DoPrepare? {
      PrepareMoves(s, c.receipt);
    } else if c.DoReconcileContinuation? {
      ReconcileMoves(s, c.receipt, c.reconciliation, c.proof);
    } else if c.DoAcknowledge? {
      AcknowledgeMoves(s, c.continuation, c.receipt, c.turn, DeliveryStarted);
    } else {
      DeliverMoves(s, c.continuation, c.receipt);
    }
  }

  /** One call keeps acknowledgements exact if and only if it acknowledges its own packet. */
  lemma ApplyKeepsAcksIff(s: Store, c: Call)
    requires Inv(s) && WellFormed(c) && AcksInv(s.work, s.callbacks)
    ensures AcksInv(Apply(s, c).work, Apply(s, c).callbacks) <==> AcknowledgesOwnPacket(s, c)
  {
    ApplyFrame(s, c);
    InvParts(s);
    ApplyGrows(s, c);
    hide Inv, AcksInv, Apply, CallbacksInv, StepsInv, ClaimsInv, RecoveryInv, WorkInv, WellFormed;
    if TouchesCallbacks(c) {
      CallbackCallMoves(s, c);
    } else {
      AcksSurvive(s, Apply(s, c));
    }
  }

  lemma AcksSurvive(s: Store, t: Store)
    requires CallbacksInv(s.claims, s.work, s.callbacks) && AcksInv(s.work, s.callbacks)
    requires Grows(s, t) && t.callbacks == s.callbacks
    ensures AcksInv(t.work, t.callbacks)
  {
    hide AcksInv, ContinuationFits;
    AcksSurviveReceipts(s.claims, s.work, t.work, s.callbacks);
  }

  // ---------------------------------------------------------------- the correspondence spelt out

  /** An acknowledgement names an acknowledged continuation, that continuation's receipt and the
      receipt's packet, under which it is filed. */
  ghost predicate AckBound(s: Store, a: AckId)
    requires a in s.callbacks.acks
  {
    var k, base := s.callbacks, s.callbacks.acks[a].base;
    && k.acks[a].Authentic() && k.acks[a].acknowledgementId == a
    && base.continuationId in k.continuations
    && k.continuations[base.continuationId].state == Acknowledged
    && k.continuations[base.continuationId].receiptId == base.receiptId
    && base.packetId in s.work.receiptOf && s.work.receiptOf[base.packetId].id == base.receiptId
    && base.packetId in k.ackOf && k.ackOf[base.packetId] == k.acks[a]
  }

  /** Acknowledgements, acknowledged continuations and acknowledged packets are in bijection. */
  ghost predicate AcknowledgedOneToOne(s: Store) {
    var k := s.callbacks;
    && (forall id :: id in k.continuations && k.continuations[id].state == Acknowledged ==>
          exists a :: a in k.acks && k.acks[a].base.continuationId == id
                      && k.acks[a].base.receiptId == k.continuations[id].receiptId)
    && (forall pid :: pid in k.ackOf ==>
          && k.ackOf[pid].base.packetId == pid
          && exists a :: a in k.acks && k.acks[a] == k.ackOf[pid])
    && (forall a :: a in k.acks ==> AckBound(s, a))
    && (forall a, b | a in k.acks && b in k.acks ::
          (k.acks[a].base.continuationId == k.acks[b].base.continuationId
           || k.acks[a].base.packetId == k.acks[b].base.packetId) ==> a == b)
  }

  lemma AckIsBound(s: Store, a: AckId)
    requires AcksInv(s.work, s.callbacks) && CallbacksInv(s.claims, s.work, s.callbacks)
    requires ReceiptsIndexed(s.work) && ReceiptsFit(s.claims, s.work) && a in s.callbacks.acks
    ensures AckBound(s, a)
    ensures s.callbacks.acks[a].base.receiptId in s.work.receipts
    ensures s.work.receipts[s.callbacks.acks[a].base.receiptId].body.packetId
            == s.callbacks.acks[a].base.packetId
  {
  }

  lemma AcknowledgedHasAck(s: Store, id: ContinuationId)
    requires AcksInv(s.work, s.callbacks) && CallbacksInv(s.claims, s.work, s.callbacks)
    requires ReceiptsIndexed(s.work) && ReceiptsFit(s.claims, s.work)
    requires id in s.callbacks.continuations && s.callbacks.continuations[id].state == Acknowledged
    ensures var k := s.callbacks;
      exists a :: a in k.acks && k.acks[a].base.continuationId == id
                  && k.acks[a].base.receiptId == k.continuations[id].receiptId
  {
  }

  lemma FiledUnderPacket(s: Store, pid: PacketId)
    requires AcksInv(s.work, s.callbacks) && pid in s.callbacks.ackOf
    ensures var k := s.callbacks;
      && k.ackOf[pid].base.packetId == pid && exists a :: a in k.acks && k.acks[a] == k.ackOf[pid]
  {
    assert AckFits(s.work, s.callbacks, pid);
  }

  lemma AcksDiffer(s: Store, a: AckId, b: AckId)
    requires AcksInv(s.work, s.callbacks) && CallbacksInv(s.claims, s.work, s.callbacks)
    requires ReceiptsIndexed(s.work) && ReceiptsFit(s.claims, s.work)
    requires a in s.callbacks.acks && b in s.callbacks.acks
    requires var k := s.callbacks;
      || k.acks[a].base.continuationId == k.acks[b].base.continuationId
      || k.acks[a].base.packetId == k.acks[b].base.packetId
    ensures a == b
  {
    hide AcksInv, CallbacksInv, ReceiptsIndexed, ReceiptsFit;
    AckIsBound(s, a);
    AckIsBound(s, b);
  }

  lemma CorrespondenceHolds(s: Store)
    requires AcksInv(s.work, s.callbacks) && CallbacksInv(s.claims, s.work, s.callbacks)
    requires ReceiptsIndexed(s.work) && ReceiptsFit(s.claims, s.work)
    ensures AcknowledgedOneToOne(s)
  {
    hide AcksInv, CallbacksInv, ReceiptsIndexed, ReceiptsFit, AckBound;
    var k := s.callbacks;
    forall id | id in k.continuations && k.continuations[id].state == Acknowledged
      ensures exists a :: a in k.acks && k.acks[a].base.continuationId == id
                          && k.acks[a].base.receiptId == k.continuations[id].receiptId
    {
      AcknowledgedHasAck(s, id);
    }
    forall pid | pid in k.ackOf
      ensures k.ackOf[pid].base.packetId == pid
      ensures exists a :: a in k.acks && k.acks[a] == k.ackOf[pid]
    {
      FiledUnderPacket(s, pid);
    }
    forall a | a in k.acks ensures AckBound(s, a) { AckIsBound(s, a); }
    forall a, b | a in k.acks && b in k.acks
      && (k.acks[a].base.continuationId == k.acks[b].base.continuationId
          || k.acks[a].base.packetId == k.acks[b].base.packetId)
      ensures a == b
    {
      AcksDiffer(s, a, b);
    }
  }

  lemma AcknowledgedIsFiled(s: Store, id: ContinuationId)
    requires AcknowledgedOneToOne(s) && ReceiptsIndexed(s.work) && ReceiptsFit(s.claims, s.work)
    requires id in s.callbacks.continuations
    requires s.callbacks.continuations[id].receiptId in s.work.receipts
    requires s.callbacks.continuations[id].state == Acknowledged
    ensures s.work.receipts[s.callbacks.continuations[id].receiptId].body.packetId in s.callbacks.ackOf
  {
    var k := s.callbacks;
    var a :| a in k.acks && k.acks[a].base.continuationId == id
             && k.acks[a].base.receiptId == k.continuations[id].receiptId;
    assert AckBound(s, a);
    assert ReceiptFits(s.claims, s.work, k.acks[a].base.packetId);
  }

  /** A receipt has one continuation, so the one whose packet is acknowledged is the acknowledged one. */
  lemma FiledIsAcknowledged(s: Store, id: ContinuationId)
    requires AcknowledgedOneToOne(s) && CallbacksInv(s.claims, s.work, s.callbacks)
    requires ReceiptsIndexed(s.work) && id in s.callbacks.continuations
    requires s.callbacks.continuations[id].receiptId in s.work.receipts
    requires s.work.receipts[s.callbacks.continuations[id].receiptId].body.packetId in s.callbacks.ackOf
    ensures s.callbacks.continuations[id].state == Acknowledged
  {
    hide ContinuationsFit, ByReceiptFit, ContinuationFor;
    var k := s.callbacks;
    var pid := s.work.receipts[k.continuations[id].receiptId].body.packetId;
    var a :| a in k.acks && k.acks[a] == k.ackOf[pid];
    assert AckBound(s, a);
    OneContinuation(s, id, k.acks[a].base.continuationId);
  }

  lemma OneContinuation(s: Store, i: ContinuationId, j: ContinuationId)
    requires CallbacksInv(s.claims, s.work, s.callbacks)
    requires i in s.callbacks.continuations && j in s.callbacks.continuations
    requires s.callbacks.continuations[i].receiptId == s.callbacks.continuations[j].receiptId
    ensures i == j
  {
    assert ContinuationFits(s.claims, s.work, s.callbacks, i);
    assert ContinuationFits(s.claims, s.work, s.callbacks, j);
  }

  lemma StateOfFiled(s: Store, id: ContinuationId)
    requires AcknowledgedOneToOne(s) && CallbacksInv(s.claims, s.work, s.callbacks)
    requires ReceiptsIndexed(s.work) && ReceiptsFit(s.claims, s.work)
    requires id in s.callbacks.continuations
    requires s.callbacks.continuations[id].receiptId in s.work.receipts
    ensures s.callbacks.continuations[id].state == Acknowledged
       <==> s.work.receipts[s.callbacks.continuations[id].receiptId].body.packetId in s.callbacks.ackOf
  {
    hide AcknowledgedOneToOne, CallbacksInv, ReceiptsIndexed, ReceiptsFit;
    if s.callbacks.continuations[id].state == Acknowledged {
      AcknowledgedIsFiled(s, id);
    } else if s.work.receipts[s.callbacks.continuations[id].receiptId].body.packetId in s.callbacks.ackOf {
      FiledIsAcknowledged(s, id);
    }
  }

  lemma FiledFits(s: Store, pid: PacketId)
    requires AcknowledgedOneToOne(s) && CallbacksInv(s.claims, s.work, s.callbacks)
    requires pid in s.callbacks.ackOf
    ensures AckFits(s.work, s.callbacks, pid)
  {
    var k := s.callbacks;
    var a :| a in k.acks && k.acks[a] == k.ackOf[pid];
    assert AckBound(s, a);
    assert ContinuationFits(s.claims, s.work, k, k.acks[a].base.continuationId);
  }

  /** The invariant `AcksInv` and the bijection are the same thing. */
  lemma CorrespondenceIff(s: Store)
    requires CallbacksInv(s.claims, s.work, s.callbacks)
    requires ReceiptsIndexed(s.work) && ReceiptsFit(s.claims, s.work)
    ensures AcksInv(s.work, s.callbacks) <==> AcknowledgedOneToOne(s)
  {
    hide CallbacksInv, ReceiptsIndexed, ReceiptsFit, AckFits;
    if AcksInv(s.work, s.callbacks) {
      CorrespondenceHolds(s);
    } else if AcknowledgedOneToOne(s) {
      hide AcknowledgedOneToOne, AckBound;
      forall id | id in s.callbacks.continuations
        && s.callbacks.continuations[id].receiptId in s.work.receipts
        ensures s.callbacks.continuations[id].state == Acknowledged
           <==> s.work.receipts[s.callbacks.continuations[id].receiptId].body.packetId
                in s.callbacks.ackOf
      {
        StateOfFiled(s, id);
      }
      forall pid | pid in s.callbacks.ackOf ensures AckFits(s.work, s.callbacks, pid) {
        FiledFits(s, pid);
      }
      BoundAcksAreIndexed(s);
    }
  }

  lemma BoundAcksAreIndexed(s: Store)
    requires AcknowledgedOneToOne(s)
    ensures AcksIndexed(s.callbacks)
  {
    forall a | a in s.callbacks.acks ensures AckBound(s, a) {}
  }

  lemma ExactIsOneToOne(s: Store)
    requires Inv(s)
    ensures AcksInv(s.work, s.callbacks) <==> AcknowledgedOneToOne(s)
  {
    hide Inv, TruthInv, ClaimsInv, StepsInv, RecoveryInv, PacketsHaveMissions, AttemptsFit,
         FailuresFit, StartedFit, Partitioned, ReceiptsIndexed, ReceiptsFit, CallbacksInv, AcksInv,
         AcknowledgedOneToOne, RecoveryStepsInv;
    InvParts(s);
    CorrespondenceIff(s);
  }

  /** Over a whole run: acknowledgements, acknowledged continuations and acknowledged packets are in
      bijection up to some moment exactly when every acknowledgement accepted so far presented a
      receipt of its own packet. */
  lemma {:induction false} AcknowledgementsExactIff(h: seq<Store>, calls: seq<Call>, n: nat)
    requires IsHistory(h, calls) && n <= |calls|
    ensures (forall i: nat :: i <= n ==> AcknowledgedOneToOne(h[i]))
       <==> (forall i: nat :: i < n ==> AcknowledgesOwnPacket(h[i], calls[i]))
  {
    hide Apply, AcksInv, AcknowledgesOwnPacket, Inv, WellFormed, AcknowledgedOneToOne;
    HistoryKeepsInv(h, calls, n);
    ExactIsOneToOne(h[n]);
    if n == 0 {
      NothingIsExact();
    } else {
      AcknowledgementsExactIff(h, calls, n - 1);
      HistoryKeepsInv(h, calls, n - 1);
      ExactIsOneToOne(h[n - 1]);
      if AcksInv(h[n - 1].work, h[n - 1].callbacks) { ApplyKeepsAcksIff(h[n - 1], calls[n - 1]); }
    }
  }

  lemma NothingIsExact()
    ensures AcksInv(EMPTY.work, EMPTY.callbacks)
  {
  }

  // ---------------------------------------------------------------- what the checks accept

  /** The check before a delivery accepts exactly the continuation that preparing the receipt again
      would give back. */
  lemma PreparedIsPrepared(s: Store, c: Continuation, receipt: TerminalReceipt)
    requires Inv(s)
    ensures ValidatePreparedContinuation(s, c, receipt).Ok?
       <==> PrepareContinuation(s, receipt) == Outcome(s, Ok(c))
  {
    hide Inv, TruthInv, ClaimsInv, WorkInv, StepsInv, RecoveryInv, PacketsHaveMissions, Authoritative;
    InvParts(s);
  }

  /** Once a resume is accepted the delivery can begin, and with the stored receipt only. */
  lemma ResumedCanBegin(s: Store, c: Continuation, proof: ResumeProof)
    requires Inv(s) && ValidateResume(s, c, proof).Ok?
    ensures ValidateResume(s, c, proof) == Ok(c) && c.receiptId in s.work.receipts
    ensures forall receipt ::
              BeginDelivery(s, c, receipt).result.Ok? <==> receipt == s.work.receipts[c.receiptId]
  {
    hide Inv, TruthInv, ClaimsInv, StepsInv, RecoveryInv, PacketsHaveMissions, AttemptsFit,
         FailuresFit, StartedFit, Partitioned, ReceiptsFit, NonBlank;
    InvParts(s);
  }

  /** While acknowledgements correspond, exactly the current acknowledged continuations replay, each
      for the packet whose acknowledgement names it. */
  lemma ReplayNamesItsPacket(s: Store, c: Continuation)
    requires Inv(s) && AcksInv(s.work, s.callbacks)
    ensures var r := ReplayAcknowledged(s, c);
      && (r.Ok? <==> IsCurrent(s.callbacks, c) && c.state == Acknowledged)
      && (r.Ok? ==> r.value in s.callbacks.ackOf
                    && s.callbacks.ackOf[r.value].base.continuationId == c.continuationId)
  {
    hide Inv, TruthInv, ClaimsInv, StepsInv, RecoveryInv, PacketsHaveMissions, AttemptsFit,
         FailuresFit, StartedFit, Partitioned;
    InvParts(s);
  }
}
