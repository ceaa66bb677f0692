/** What it takes to move a callback, field by field. */
module DeliveryLaws {
  import opened Records
  import opened StoreSpec
  import opened StoreInvariant
  import opened Frames

  // ---------------------------------------------------------------- preparing

  predicate Stored(w: WorkLedger, receipt: TerminalReceipt) {
    receipt.id in w.receipts && w.receipts[receipt.id] == receipt
  }

  /** The continuation of the receipt, if there is one. */
  predicate ContinuationOf(k: CallbackLedger, receipt: ReceiptId, id: ContinuationId) {
    id in k.continuations && k.continuations[id].receiptId == receipt
  }

  lemma ReceiptHasContinuationIff(s: Store, receipt: ReceiptId)
    requires Inv(s)
    ensures forall id :: ContinuationOf(s.callbacks, receipt, id) ==>
              receipt in s.callbacks.byReceipt && s.callbacks.byReceipt[receipt] == id
    ensures receipt in s.callbacks.byReceipt ==>
              ContinuationOf(s.callbacks, receipt, s.callbacks.byReceipt[receipt])
    ensures receipt in s.callbacks.byReceipt <==> exists id :: ContinuationOf(s.callbacks, receipt, id)
  {
    hide Inv, TruthInv, ClaimsInv, WorkInv, StepsInv, RecoveryInv, RecoveryStepsInv,
         PacketsHaveMissions;
    InvParts(s);
    forall id | ContinuationOf(s.callbacks, receipt, id)
      ensures receipt in s.callbacks.byReceipt && s.callbacks.byReceipt[receipt] == id
    {
      assert ContinuationFits(s.claims, s.work, s.callbacks, id);
    }
  }

  /** What each answer of `prepare_continuation` means. */
  lemma PrepareAnsweredIff(s: Store, receipt: TerminalReceipt)
    requires Inv(s)
    ensures var o := PrepareContinuation(s, receipt);
            var begun := exists id :: ContinuationOf(s.callbacks, receipt.id, id);
      && !o.result.Raised?
      && (o.result.Ok? <==>
            && Stored(s.work, receipt)
            && forall id :: ContinuationOf(s.callbacks, receipt.id, id) ==>
                              s.callbacks.continuations[id].state == Prepared)
      && (o.result.Rejected? && o.result.code == StaleIdentity <==> !Stored(s.work, receipt))
      && (o.result.Rejected? && o.result.code == CallbackDeliveryUnsettled <==>
            && Stored(s.work, receipt)
            && exists id :: ContinuationOf(s.callbacks, receipt.id, id)
                            && s.callbacks.continuations[id].state == DeliveryUnsettled)
      && (o.result.Rejected? ==>
            o.result.code in {StaleIdentity, CallbackDeliveryUnsettled, DuplicateOrReplay})
      && (!o.result.Ok? || begun ==> o.store == s)
      && (o.result.Ok? && begun ==> ContinuationOf(s.callbacks, receipt.id, o.result.value.continuationId)
                                    && s.callbacks.continuations[o.result.value.continuationId]
                                       == o.result.value)
  {
    hide Inv, ContinuationOf, AddContinuation, ContinuationFor;
    ReceiptHasContinuationIff(s, receipt.id);
    StoredReceiptIsClaimed(s, receipt);
    if receipt.id in s.callbacks.byReceipt { KeyedByItself(s, s.callbacks.byReceipt[receipt.id]); }
  }

  lemma KeyedByItself(s: Store, id: ContinuationId)
    requires Inv(s)
    ensures forall r :: ContinuationOf(s.callbacks, r, id) ==>
              s.callbacks.continuations[id].continuationId == id && id in s.callbacks.continuations
  {
    hide Inv, TruthInv, ClaimsInv, WorkInv, StepsInv, RecoveryInv, RecoveryStepsInv,
         PacketsHaveMissions;
    InvParts(s);
  }

  lemma StoredReceiptIsClaimed(s: Store, receipt: TerminalReceipt)
    requires Inv(s)
    ensures Stored(s.work, receipt) ==> receipt.body.packetId in s.claims.packets
  {
    hide Inv, TruthInv, ClaimsInv, StepsInv, RecoveryInv, RecoveryStepsInv, CallbacksInv,
         PacketsHaveMissions, AttemptsFit, FailuresFit, StartedFit;
    InvParts(s);
  }

  /** A first preparation: the continuation of this receipt, addressed to its packet's destination, and
      nothing else. */
  lemma FirstPreparation(s: Store, receipt: TerminalReceipt)
    requires Inv(s) && Stored(s.work, receipt)
    requires !exists id :: ContinuationOf(s.callbacks, receipt.id, id)
    ensures var t, r := PrepareContinuation(s, receipt).store, PrepareContinuation(s, receipt).result;
      && r.Ok? && receipt.body.packetId in s.claims.packets
      && var c := r.value;
      && c.receiptId == receipt.id && c.state == Prepared
      && c.destination == s.claims.packets[receipt.body.packetId].body.destination
      && c.continuationId == Of(ContinuationKey(receipt.id, c.destination))
      && c.turnRequestId == Of(TurnKey(c.continuationId, receipt.id, c.destination))
      && t == s.(callbacks := t.callbacks)
      && t.callbacks.continuations == s.callbacks.continuations[c.continuationId := c]
      && t.callbacks.byReceipt == s.callbacks.byReceipt[receipt.id := c.continuationId]
      && t.callbacks.acks == s.callbacks.acks && t.callbacks.ackOf == s.callbacks.ackOf
  {
    hide Inv;
    ReceiptHasContinuationIff(s, receipt.id);
    StoredReceiptIsClaimed(s, receipt);
  }

  // ---------------------------------------------------------------- delivering

  /** The continuation presented is the stored one, in this state. */
  predicate StandsAt(k: CallbackLedger, c: Continuation, state: ContinuationState) {
    && c.continuationId in k.continuations && k.continuations[c.continuationId] == c
    && c.state == state
  }

  /** Only this continuation has moved, and only its state. */
  predicate OnlyMoves(s: Store, t: Store, c: Continuation, state: ContinuationState) {
    t == s.(callbacks := s.callbacks.(continuations :=
              s.callbacks.continuations[c.continuationId := c.(state := state)]))
  }

  lemma DeliveryAnsweredIff(s: Store, c: Continuation, receipt: TerminalReceipt)
    ensures var o := BeginDelivery(s, c, receipt);
      && (o.result.Ok? <==> StandsAt(s.callbacks, c, Prepared) && c.receiptId == receipt.id
                            && Stored(s.work, receipt))
      && (if o.result.Ok? then OnlyMoves(s, o.store, c, DeliveryStarted)
                               && o.result.value == c.(state := DeliveryStarted)
          else o.store == s && o.result.Rejected? && o.result.code == ReplayIdentityConflict)
  {
  }

  lemma MarkAnsweredIff(s: Store, c: Continuation, receipt: TerminalReceipt)
    ensures var o := MarkDeliveryUnsettled(s, c, receipt);
      && (o.result.Ok? <==> StandsAt(s.callbacks, c, DeliveryStarted) && c.receiptId == receipt.id)
      && (if o.result.Ok? then OnlyMoves(s, o.store, c, DeliveryUnsettled)
                               && o.result.value == c.(state := DeliveryUnsettled)
          else o.store == s && o.result.Rejected? && o.result.code == ReplayIdentityConflict)
  {
  }

  /** Before a delivery an unsettled one is told apart from every other obstacle. */
  lemma PreparedAnsweredIff(s: Store, c: Continuation, receipt: TerminalReceipt)
    ensures var r := ValidatePreparedContinuation(s, c, receipt);
      && (r.Ok? <==> StandsAt(s.callbacks, c, Prepared) && c.receiptId == receipt.id
                     && Stored(s.work, receipt))
      && (r.Rejected? && r.code == CallbackDeliveryUnsettled <==>
            && c.continuationId in s.callbacks.continuations
            && s.callbacks.continuations[c.continuationId].state == DeliveryUnsettled)
      && (!r.Ok? ==> r.Rejected? && r.code in {CallbackDeliveryUnsettled, ReplayIdentityConflict})
  {
  }

  lemma ResumeAnsweredIff(s: Store, c: Continuation, proof: ResumeProof)
    ensures var r := ValidateResume(s, c, proof);
            var bound := proof.continuationId == c.continuationId && proof.destination == c.destination;
      && (r.Ok? <==> StandsAt(s.callbacks, c, Prepared) && bound && NonBlank(proof.resumeToken))
      && (r.Rejected? && r.code == DuplicateOrReplay <==> !StandsAt(s.callbacks, c, Prepared))
      && (r.Rejected? && r.code == CallbackTargetMismatch
          <==> StandsAt(s.callbacks, c, Prepared) && !bound)
  {
    hide NonBlank;
  }

  // ---------------------------------------------------------------- acknowledging

  /** The turn proof names this delivery: its continuation, receipt, destination and turn. */
  predicate NamesTurn(b: ConvergenceBody, c: Continuation) {
    && b.continuationId == c.continuationId && b.receiptId == c.receiptId
    && b.destination == c.destination && b.turnRequestId == c.turnRequestId
  }

  predicate Completed(p: ConvergenceProof) { p.body.completed && NonBlank(p.body.completedTurnId) }

  /** The acknowledgement on record names the receipt presented, the continuation and the turn proof,
      under one id. */
  predicate AcknowledgedBy(s: Store, t: Store, c: Continuation, receipt: TerminalReceipt,
                           proof: ConvergenceProof, a: Acknowledgement)
  {
    && a.base.packetId == receipt.body.packetId && a.base.receiptId == c.receiptId
    && a.base.continuationId == c.continuationId && a.base.proofId == proof.id
    && a.acknowledgementId == Of(a.base) && a.callbackAckId == Of(a.base)
    && a.receiptAckId == Of(a.base) && a.continuationAckId == Of(a.base)
    && t == s.(callbacks := CallbackLedger(
                 s.callbacks.continuations[c.continuationId := c.(state := Acknowledged)],
                 s.callbacks.byReceipt, s.callbacks.acks[Of(a.base) := a],
                 s.callbacks.ackOf[receipt.body.packetId := a]))
  }

  lemma AcknowledgementAnsweredIff(s: Store, c: Continuation, receipt: TerminalReceipt,
                                   proof: ConvergenceProof, from: ContinuationState)
    ensures var o := AcknowledgeDelivery(s, c, receipt, proof, from);
            var bound := c.receiptId == receipt.id && NamesTurn(proof.body, c);
      && (o.result.Ok? <==> StandsAt(s.callbacks, c, from) && bound && Completed(proof)
                            && proof.id == Of(proof.body))
      && (o.result.Rejected? && o.result.code == DuplicateOrReplay <==> !StandsAt(s.callbacks, c, from))
      && (o.result.Rejected? && o.result.code == CallbackTargetMismatch
          <==> StandsAt(s.callbacks, c, from) && !bound)
      && (o.result.Rejected? && o.result.code == ConvergenceNotProven
          <==> StandsAt(s.callbacks, c, from) && bound && !Completed(proof))
      && (o.result.Rejected? && o.result.code == ReplayIdentityConflict
          <==> StandsAt(s.callbacks, c, from) && bound && Completed(proof)
               && proof.id != Of(proof.body))
      && (if o.result.Ok? then
            && AcknowledgedBy(s, o.store, c, receipt, proof, o.result.value.1)
            && o.result.value.0 == c.(state := Acknowledged)
          else o.store == s)
  {
    hide NonBlank;
  }

  /** `acknowledge_after_convergence` acknowledges started deliveries only. */
  lemma ConvergenceStartsFromStarted(s: Store, c: Continuation, receipt: TerminalReceipt,
                                     proof: ConvergenceProof)
    ensures AcknowledgeAfterConvergence(s, c, receipt, proof).result.Ok? ==>
              StandsAt(s.callbacks, c, DeliveryStarted)
    ensures AcknowledgeAfterConvergence(s, c, receipt, proof)
            == AcknowledgeDelivery(s, c, receipt, proof, DeliveryStarted)
  {
    hide NonBlank, AckFor;
  }

  // ---------------------------------------------------------------- reconciling

  /** The reconciliation is of this stored unsettled continuation, its receipt and its turn. */
  predicate OfUnsettled(s: Store, receipt: TerminalReceipt, r: ContinuationReconciliation) {
    && r.continuationId in s.callbacks.continuations
    && var c := s.callbacks.continuations[r.continuationId];
    && c.state == DeliveryUnsettled && Stored(s.work, receipt)
    && r.receiptId == receipt.id && c.receiptId == receipt.id && r.turnRequestId == c.turnRequestId
  }

  /** An authentic proof, named by the reconciliation, that this very turn of this continuation, for
      this receipt at this destination, was not delivered. */
  predicate ProvesTurnAbsent(c: Continuation, r: ContinuationReconciliation, a: AbsenceProof) {
    && r.proofDigest == Of(Absent(a)) && a.id == Of(a.body)
    && a.body.continuationId == c.continuationId && a.body.receiptId == c.receiptId
    && a.body.destination == c.destination && a.body.turnRequestId == c.turnRequestId
  }

  /** An unsettled delivery goes back to PREPARED if and only if the proof presented is such a proof. */
  lemma AbsenceAcceptedIff(s: Store, receipt: TerminalReceipt, r: ContinuationReconciliation,
                           proof: Option<DeliveryProof>)
    requires Inv(s) && OfUnsettled(s, receipt, r) && r.state == NotCommitted
    ensures var c := s.callbacks.continuations[r.continuationId];
            var o := ReconcileContinuation(s, receipt, r, proof);
      && (o.result.Ok? <==> proof.Some? && proof.value.Absent?
                            && ProvesTurnAbsent(c, r, proof.value.absence))
      && (if o.result.Ok? then OnlyMoves(s, o.store, c, Prepared)
                               && o.result.value == (c.(state := Prepared), None)
          else o.store == s && o.result.Rejected? && o.result.code == ConvergenceNotProven)
  {
    hide Inv;
    KeyedByItself(s, r.continuationId);
    assert ContinuationOf(s.callbacks, receipt.id, r.continuationId);
  }

  /** An unsettled delivery is acknowledged if and only if the proof presented is an authentic one,
      named by the reconciliation, that this very turn was completed. */
  lemma ConvergenceAcceptedIff(s: Store, receipt: TerminalReceipt, r: ContinuationReconciliation,
                               proof: Option<DeliveryProof>)
    requires Inv(s) && OfUnsettled(s, receipt, r) && r.state == Committed
    ensures var c := s.callbacks.continuations[r.continuationId];
            var o := ReconcileContinuation(s, receipt, r, proof);
      && (o.result.Ok? <==>
            && proof.Some? && proof.value.Converged? && r.proofDigest == Of(proof.value)
            && NamesTurn(proof.value.proof.body, c) && Completed(proof.value.proof)
            && proof.value.proof.id == Of(proof.value.proof.body))
      && (if o.result.Ok? then
            && o.result.value.1.Some? && o.result.value.0 == c.(state := Acknowledged)
            && AcknowledgedBy(s, o.store, c, receipt, proof.value.proof, o.result.value.1.value)
          else
            && o.store == s && o.result.Rejected?
            && (proof.None? || !proof.value.Converged? || r.proofDigest != Of(proof.value) ==>
                  o.result.code == ConvergenceNotProven))
  {
    hide Inv, AcknowledgeDelivery, NamesTurn, Completed, AcknowledgedBy;
    KeyedByItself(s, r.continuationId);
    assert ContinuationOf(s.callbacks, receipt.id, r.continuationId);
    if proof.Some? && proof.value.Converged? {
      AcknowledgementAnsweredIff(s, s.callbacks.continuations[r.continuationId], receipt,
                                 proof.value.proof, DeliveryUnsettled);
    }
  }

  /** Any other reconciliation changes nothing. */
  lemma UnboundReconciliation(s: Store, receipt: TerminalReceipt, r: ContinuationReconciliation,
                              proof: Option<DeliveryProof>)
    requires !OfUnsettled(s, receipt, r)
    ensures var o := ReconcileContinuation(s, receipt, r, proof);
      && o.store == s && o.result.Rejected? && o.result.code in {DuplicateOrReplay, StaleIdentity}
  {
    hide AcknowledgeDelivery, AbsenceExact;
  }

  /** Replaying answers with the packet of the stored receipt, and tells a changed continuation from
      one that is not acknowledged. */
  lemma ReplayAnsweredIff(s: Store, c: Continuation)
    ensures var r := ReplayAcknowledged(s, c);
            var current := c.continuationId in s.callbacks.continuations
                           && s.callbacks.continuations[c.continuationId] == c;
      && (r.Rejected? && r.code == DuplicateOrReplay <==> current && c.state != Acknowledged)
      && (r.Ok? <==> current && c.state == Acknowledged && c.receiptId in s.work.receipts
                     && s.work.receipts[c.receiptId].body.packetId in s.callbacks.ackOf)
      && (r.Ok? ==> r.value == s.work.receipts[c.receiptId].body.packetId)
      && (r.Rejected? && !(current && c.state != Acknowledged) ==> r.code == ReplayIdentityConflict)
  {
  }
}
