/** Step, recovery and callback updates keep their ledgers' invariants, and each ledger's invariant
    survives the changes the other methods make to what it refers to. */
module LedgerSafety {
  import opened Records
  import opened StoreSpec
  import opened StoreInvariant
  import opened WorkSafety

  // ---------------------------------------------------------------- steps

  lemma StepsFrame(c: ClaimLedger, w: WorkLedger, d: ClaimLedger, y: WorkLedger, st: StepLedger)
    requires StepsInv(c, w, st) && ClaimsGrow(c, d) && w.started <= y.started
    requires forall pid :: pid in y.receiptOf ==> pid in w.receiptOf || !HasUnsettledStep(st, pid)
    ensures StepsInv(d, y, st)
  {
  }

  /** The guards a step has passed before it is appended. */
  ghost predicate Appendable(c: ClaimLedger, w: WorkLedger, st: StepLedger, step: StepAttempt) {
    var b := step.body;
    && step.Authentic() && StepWellFormed(b) && step.id !in st.steps
    && b.packetId in w.started && b.packetId in c.leases && b.packetId !in w.receiptOf
    && b.leaseId == c.leases[b.packetId].leaseId
    && (b.recovery.Some? ==> && b.recovery.value.parent in st.steps
                             && st.steps[b.recovery.value.parent].body.packetId == b.packetId)
    && (b.effectId.Some? && b.effectId.value in st.effectOwner ==>
          st.effectOwner[b.effectId.value] == step.id)
  }

  lemma AppendKeepsRecords(c: ClaimLedger, w: WorkLedger, st: StepLedger, step: StepAttempt)
    requires StepRecordsFit(c, w, st) && Appendable(c, w, st, step)
    ensures StepRecordsFit(c, w, AddStep(st, step))
  {
    var x := AddStep(st, step);
    forall id | id in x.steps ensures StepFits(c, w, x, id) {
      if id == step.id {
        assert StepsOf(x, step.body.packetId)[|StepsOf(st, step.body.packetId)|] == id;
      } else {
        assert StepFits(c, w, st, id);
        KnownStepStays(st, step, st.steps[id].body.packetId, id);
      }
    }
  }

  lemma KnownStepStays(st: StepLedger, step: StepAttempt, pid: PacketId, id: StepId)
    requires id in StepsOf(st, pid)
    ensures id in StepsOf(AddStep(st, step), pid)
  {
  }

  lemma AppendKeepsLedger(c: ClaimLedger, w: WorkLedger, st: StepLedger, step: StepAttempt,
                          pid: PacketId)
    requires StepRecordsFit(c, w, st) && LedgersFit(st) && Appendable(c, w, st, step)
    ensures LedgerFits(AddStep(st, step), pid)
  {
    assert LedgerFits(st, pid);
    if pid == step.body.packetId {
      if step.body.recovery.Some? { assert StepFits(c, w, st, step.body.recovery.value.parent); }
      OwnLedgerGrows(st, step);
    }
  }

  lemma OwnLedgerGrows(st: StepLedger, step: StepAttempt)
    requires LedgerFits(st, step.body.packetId) && step.id !in st.steps
    requires step.body.recovery.Some? ==>
               step.body.recovery.value.parent in StepsOf(st, step.body.packetId)
    ensures LedgerFits(AddStep(st, step), step.body.packetId)
  {
    var pid := step.body.packetId;
    var x, ids := AddStep(st, step), StepsOf(st, pid);
    assert StepsOf(x, pid)[..|ids|] == ids;
    forall i | 0 <= i < |StepsOf(x, pid)| && x.steps[StepsOf(x, pid)[i]].body.recovery.Some?
      ensures x.steps[StepsOf(x, pid)[i]].body.recovery.value.parent in StepsOf(x, pid)[..i]
    {
      assert i < |ids| ==> StepsOf(x, pid)[..i] == ids[..i];
    }
  }

  /** Appending leaves every effective state as it was. */
  lemma AppendKeepsEffective(c: ClaimLedger, w: WorkLedger, st: StepLedger, step: StepAttempt,
                             id: StepId)
    requires StepReconciliationsFit(st) && step.id !in st.steps
    ensures id != step.id ==> EffectiveState(AddStep(st, step), id) == EffectiveState(st, id)
    ensures EffectiveState(AddStep(st, step), step.id) == step.body.effectState
  {
  }

  lemma AppendKeepsSteps(c: ClaimLedger, w: WorkLedger, st: StepLedger, step: StepAttempt)
    requires StepsInv(c, w, st) && Appendable(c, w, st, step)
    ensures StepsInv(c, w, AddStep(st, step))
  {
    var x := AddStep(st, step);
    AppendKeepsRecords(c, w, st, step);
    forall pid ensures LedgerFits(x, pid) { AppendKeepsLedger(c, w, st, step, pid); }
    assert TerminalSettled(w, x) by {
      forall pid | pid in w.receiptOf ensures !HasUnsettledStep(x, pid) {
        assert StepsOf(x, pid) == StepsOf(st, pid);
        assert LedgerFits(st, pid);
        assert !HasUnsettledStep(st, pid);
        forall id | id in StepsOf(x, pid) ensures EffectiveState(x, id) != Unsettled {
          AppendKeepsEffective(c, w, st, step, id);
        }
      }
    }
    assert StepReconciliationsFit(x) by {
      forall id | id in x.reconciled ensures StepReconciliationFits(x, id) {
        assert StepReconciliationFits(st, id);
      }
    }
  }

  lemma ReconcileKeepsSteps(c: ClaimLedger, w: WorkLedger, st: StepLedger, r: StepReconciliation)
    requires StepsInv(c, w, st) && r.body.stepId in st.steps && r.body.effectState != Unsettled
    requires st.steps[r.body.stepId].body.effectState == Unsettled
    requires st.steps[r.body.stepId].body.effectId == Some(r.body.effectId)
    ensures StepsInv(c, w, st.(reconciled := st.reconciled[r.body.stepId := r]))
  {
    hide StepRecordsFit, TerminalSettled, LedgersFit;
    SameStepsFit(c, w, st, st.(reconciled := st.reconciled[r.body.stepId := r]));
    ReconcileKeepsTerminal(w, st, r);
  }

  lemma SameStepsFit(c: ClaimLedger, w: WorkLedger, st: StepLedger, x: StepLedger)
    requires StepRecordsFit(c, w, st) && LedgersFit(st) && x == st.(reconciled := x.reconciled)
    ensures StepRecordsFit(c, w, x) && LedgersFit(x)
  {
    forall id | id in x.steps ensures StepFits(c, w, x, id) { assert StepFits(c, w, st, id); }
    forall pid ensures LedgerFits(x, pid) { assert LedgerFits(st, pid); }
  }

  lemma ReconcileKeepsTerminal(w: WorkLedger, st: StepLedger, r: StepReconciliation)
    requires TerminalSettled(w, st) && r.body.effectState != Unsettled
    ensures TerminalSettled(w, st.(reconciled := st.reconciled[r.body.stepId := r]))
  {
    var x := st.(reconciled := st.reconciled[r.body.stepId := r]);
    forall pid | pid in w.receiptOf ensures !HasUnsettledStep(x, pid) {
      assert !HasUnsettledStep(st, pid);
      forall id | id in StepsOf(x, pid) ensures EffectiveState(x, id) != Unsettled {
        assert id in StepsOf(st, pid);
      }
    }
  }

  // ---------------------------------------------------------------- callbacks

  ghost predicate ReceiptsGrow(w: WorkLedger, y: WorkLedger) {
    && (forall id :: id in w.receipts ==> id in y.receipts && y.receipts[id] == w.receipts[id])
    && (forall id :: id in w.receiptOf ==> id in y.receiptOf && y.receiptOf[id] == w.receiptOf[id])
  }

  lemma CallbacksFrame(c: ClaimLedger, w: WorkLedger, d: ClaimLedger, y: WorkLedger,
                       k: CallbackLedger)
    requires CallbacksInv(c, w, k) && ClaimsGrow(c, d) && ReceiptsGrow(w, y)
    ensures CallbacksInv(d, y, k)
  {
  }

  lemma PrepareIsNew(c: ClaimLedger, w: WorkLedger, k: CallbackLedger, receipt: TerminalReceipt,
                     destination: Destination)
    requires CallbacksInv(c, w, k) && receipt.id !in k.byReceipt
    ensures ContinuationFor(receipt.id, destination).continuationId !in k.continuations
  {
  }

  lemma PrepareKeepsCallbacks(c: ClaimLedger, w: WorkLedger, k: CallbackLedger,
                              receipt: TerminalReceipt, n: Continuation)
    requires CallbacksInv(c, w, k) && Authoritative(w, receipt)
    requires receipt.id !in k.byReceipt && receipt.body.packetId in c.packets
    requires n == ContinuationFor(receipt.id, c.packets[receipt.body.packetId].body.destination)
    ensures CallbacksInv(c, w, AddContinuation(k, n))
  {
    PrepareIsNew(c, w, k, receipt, n.destination);
    var x := AddContinuation(k, n);
    forall id | id in x.continuations ensures ContinuationFits(c, w, x, id) {
      if id != n.continuationId { assert ContinuationFits(c, w, k, id); }
    }
  }

  /** Any change of state leaves a continuation's identity in place. */
  lemma MoveKeepsCallbacks(c: ClaimLedger, w: WorkLedger, k: CallbackLedger, n: Continuation)
    requires CallbacksInv(c, w, k) && n.continuationId in k.continuations
    requires n == k.continuations[n.continuationId].(state := n.state)
    ensures CallbacksInv(c, w, PutContinuation(k, n))
  {
  }

  /** The invariant does not look at acknowledgements. */
  lemma SameContinuations(c: ClaimLedger, w: WorkLedger, k: CallbackLedger, x: CallbackLedger)
    requires CallbacksInv(c, w, k)
    requires x.continuations == k.continuations && x.byReceipt == k.byReceipt
    ensures CallbacksInv(c, w, x)
  {
  }

  // ---------------------------------------------------------------- acknowledgements

  /** Acknowledgements stay bound while acknowledged continuations keep their state. */
  lemma AcksFrame(w: WorkLedger, y: WorkLedger, k: CallbackLedger, x: CallbackLedger)
    requires AcksFit(w, k) && ReceiptsGrow(w, y)
    requires x.ackOf == k.ackOf && x.acks == k.acks
    requires forall id :: id in k.byReceipt ==> id in x.byReceipt && x.byReceipt[id] == k.byReceipt[id]
    requires forall id :: id in k.continuations && k.continuations[id].state == Acknowledged ==>
               id in x.continuations && x.continuations[id].state == Acknowledged
    ensures AcksFit(y, x)
  {
  }

  lemma AcksSurviveReceipts(c: ClaimLedger, w: WorkLedger, y: WorkLedger, k: CallbackLedger)
    requires AcksInv(w, k) && ReceiptsGrow(w, y) && ContinuationsFit(c, w, k)
    ensures AcksInv(y, k)
  {
    assert AckStates(y, k) by { StatesFrame(c, w, y, k); }
    hide AcksFit, AckStates;
    AcksFrame(w, y, k, k);
  }

  lemma StatesFrame(c: ClaimLedger, w: WorkLedger, y: WorkLedger, k: CallbackLedger)
    requires AckStates(w, k) && ReceiptsGrow(w, y) && ContinuationsFit(c, w, k)
    ensures AckStates(y, k)
  {
  }

  lemma PrepareKeepsAcks(c: ClaimLedger, w: WorkLedger, k: CallbackLedger,
                         receipt: TerminalReceipt, n: Continuation)
    requires AcksInv(w, k) && CallbacksInv(c, w, k) && ReceiptsIndexed(w)
    requires Authoritative(w, receipt) && receipt.id !in k.byReceipt
    requires n == ContinuationFor(receipt.id, n.destination)
    ensures AcksInv(w, AddContinuation(k, n))
  {
    hide CallbacksInv, AcksFit, AckStates, AcksIndexed, ReceiptsIndexed;
    PrepareIsNew(c, w, k, receipt, n.destination);
    UnpreparedIsUnacked(w, k, receipt);
    PreparedState(w, k, receipt, n);
    AcksFrame(w, w, k, AddContinuation(k, n));
    SameAcks(k, AddContinuation(k, n));
  }

  lemma SameAcks(k: CallbackLedger, x: CallbackLedger)
    requires AcksIndexed(k) && x.acks == k.acks && x.ackOf == k.ackOf
    ensures AcksIndexed(x)
  {
  }

  lemma PreparedState(w: WorkLedger, k: CallbackLedger, receipt: TerminalReceipt, n: Continuation)
    requires AckStates(w, k) && Authoritative(w, receipt) && receipt.body.packetId !in k.ackOf
    requires n.continuationId !in k.continuations
    requires n.receiptId == receipt.id && n.state == Prepared
    ensures AckStates(w, AddContinuation(k, n))
  {
  }

  lemma UnpreparedIsUnacked(w: WorkLedger, k: CallbackLedger, receipt: TerminalReceipt)
    requires AcksFit(w, k) && ReceiptsIndexed(w) && Authoritative(w, receipt)
    requires receipt.id !in k.byReceipt
    ensures receipt.body.packetId !in k.ackOf
  {
  }

  /** Any move between the three unacknowledged states. */
  lemma MoveKeepsAcks(w: WorkLedger, k: CallbackLedger, n: Continuation)
    requires AcksInv(w, k) && n.continuationId in k.continuations
    requires n == k.continuations[n.continuationId].(state := n.state)
    requires k.continuations[n.continuationId].state != Acknowledged && n.state != Acknowledged
    ensures AcksInv(w, PutContinuation(k, n))
  {
    hide AcksFit;
    AcksFrame(w, w, k, PutContinuation(k, n));
  }

  /** The receipt names the packet of the continuation it is presented for. */
  predicate NamesOwnPacket(w: WorkLedger, receipt: TerminalReceipt) {
    receipt.id in w.receipts && w.receipts[receipt.id].body.packetId == receipt.body.packetId
  }

  lemma AckKeepsStates(c: ClaimLedger, w: WorkLedger, k: CallbackLedger, n: Continuation,
                       receipt: TerminalReceipt, ack: Acknowledgement)
    requires AckStates(w, k) && ContinuationsFit(c, w, k) && ReceiptsIndexed(w) && IsCurrent(k, n)
    requires n.receiptId == receipt.id && NamesOwnPacket(w, receipt)
    requires ack.base.packetId == receipt.body.packetId
    ensures AckStates(w, AddAck(k, n, ack))
  {
  }

  lemma AckKeepsBindings(c: ClaimLedger, w: WorkLedger, k: CallbackLedger, n: Continuation,
                         receipt: TerminalReceipt, proof: ConvergenceProof)
    requires AcksFit(w, k) && AcksIndexed(k) && ReceiptsIndexed(w) && IsCurrent(k, n)
    requires ContinuationFits(c, w, k, n.continuationId)
    requires n.receiptId == receipt.id && NamesOwnPacket(w, receipt)
    requires receipt.body.packetId !in k.ackOf
    ensures AcksFit(w, AddAck(k, n, AckFor(n, receipt, proof)))
    ensures AcksIndexed(AddAck(k, n, AckFor(n, receipt, proof)))
  {
    var x := AddAck(k, n, AckFor(n, receipt, proof));
    forall q | q in x.ackOf ensures AckFits(w, x, q) {
      if q != receipt.body.packetId { assert AckFits(w, k, q); }
    }
  }

  /** Acknowledging keeps the correspondence exactly when the receipt presented names the packet of
      the stored receipt; one forged with another packet's id breaks it. */
  lemma AckKeepsAcksIffReceiptNamesPacket(c: ClaimLedger, w: WorkLedger, k: CallbackLedger,
                                          n: Continuation, receipt: TerminalReceipt,
                                          proof: ConvergenceProof)
    requires AcksInv(w, k) && CallbacksInv(c, w, k) && ReceiptsIndexed(w) && IsCurrent(k, n)
    requires n.state != Acknowledged && n.receiptId == receipt.id
    ensures AcksInv(w, AddAck(k, n, AckFor(n, receipt, proof))) <==> NamesOwnPacket(w, receipt)
  {
    assert ContinuationFits(c, w, k, n.continuationId);
    hide AcksFit, AcksIndexed;
    var x := AddAck(k, n, AckFor(n, receipt, proof));
    if NamesOwnPacket(w, receipt) {
      AckKeepsStates(c, w, k, n, receipt, AckFor(n, receipt, proof));
      AckKeepsBindings(c, w, k, n, receipt, proof);
    } else {
      assert x.continuations[n.continuationId].state == Acknowledged;
    }
  }
}
