/** Executions, failures and receipts keep the work ledger's invariant. */
module WorkSafety {
  import opened Records
  import opened StoreSpec
  import opened StoreInvariant

  /** Claimed packets and their leases never change; only new ones appear. */
  ghost predicate ClaimsGrow(c: ClaimLedger, d: ClaimLedger) {
    && (forall pid :: pid in c.packets ==> pid in d.packets && d.packets[pid] == c.packets[pid])
    && (forall pid :: pid in c.leases ==> pid in d.leases && d.leases[pid] == c.leases[pid])
  }

  lemma GrowthKeepsWork(c: ClaimLedger, d: ClaimLedger, w: WorkLedger)
    requires WorkInv(c, w) && ClaimsGrow(c, d)
    requires forall pid :: pid in d.packets ==>
               (IsActive(d, pid) <==> if pid in c.packets then IsActive(c, pid) else true)
    ensures WorkInv(d, w)
  {
    forall pid | pid in w.receiptOf ensures ReceiptFits(d, w, pid) { assert ReceiptFits(c, w, pid); }
    forall pid | pid in w.attempts ensures AttemptFits(d, w, pid) { assert AttemptFits(c, w, pid); }
    forall pid | pid in w.failures ensures FailureFits(d, w, pid) { assert FailureFits(c, w, pid); }
  }

  lemma IssueGrowth(c: ClaimLedger, p: TaskPacket)
    requires ClaimsInv(c) && p.id !in c.leases
    ensures ClaimsGrow(c, Issue(c, p))
    ensures forall pid :: pid in Issue(c, p).packets ==>
              (IsActive(Issue(c, p), pid) <==> if pid in c.packets then IsActive(c, pid) else true)
  {
    forall pid | pid in Issue(c, p).packets
      ensures IsActive(Issue(c, p), pid) <==> if pid in c.packets then IsActive(c, pid) else true
    {
      if pid != p.id { OtherLease(c, p, pid); }
    }
  }

  lemma OtherLease(c: ClaimLedger, p: TaskPacket, pid: PacketId)
    requires pid in c.packets && ClaimedPacket(c, pid) && pid != p.id
    ensures c.leases[pid].leaseId != LeaseFor(p).leaseId
  {
  }

  lemma BeginKeepsWork(c: ClaimLedger, w: WorkLedger, pid: PacketId)
    requires WorkInv(c, w) && pid in c.packets && pid !in w.receiptOf
    ensures WorkInv(c, w.(started := w.started + {pid}))
  {
    var x := w.(started := w.started + {pid});
    forall q | q in x.receiptOf ensures ReceiptFits(c, x, q) { assert ReceiptFits(c, w, q); }
    forall q | q in x.attempts ensures AttemptFits(c, x, q) { assert AttemptFits(c, w, q); }
    forall q | q in x.failures ensures FailureFits(c, x, q) { assert FailureFits(c, w, q); }
  }

  lemma FailureKeepsWork(c: ClaimLedger, w: WorkLedger, failure: ExecutionFailure)
    requires WorkInv(c, w) && failure.body.packetId in w.started
    requires failure.body.packetId !in w.failures
    requires failure.body.packetId in c.leases
    requires failure.Authentic() && failure.body.leaseId == c.leases[failure.body.packetId].leaseId
    requires FailureCodeAllowed(failure.body.code, failure.body.origin)
    ensures WorkInv(c, AddFailure(w, failure))
  {
    hide ReceiptsFit, AttemptsFit, FailuresFit;
    FailureKeepsReceipts(c, w, failure);
    FailureKeepsAttempts(c, w, failure);
    FailureKeepsFailures(c, w, failure);
  }

  lemma FailureKeepsReceipts(c: ClaimLedger, w: WorkLedger, failure: ExecutionFailure)
    requires ReceiptsFit(c, w)
    ensures ReceiptsFit(c, AddFailure(w, failure))
  {
  }

  lemma FailureKeepsAttempts(c: ClaimLedger, w: WorkLedger, failure: ExecutionFailure)
    requires AttemptsFit(c, w)
    ensures AttemptsFit(c, AddFailure(w, failure))
  {
  }

  lemma FailureKeepsFailures(c: ClaimLedger, w: WorkLedger, failure: ExecutionFailure)
    requires FailuresFit(c, w) && StartedFit(c, w) && failure.body.packetId in w.started
    requires failure.body.packetId in c.leases && failure.Authentic()
    requires failure.body.leaseId == c.leases[failure.body.packetId].leaseId
    requires FailureCodeAllowed(failure.body.code, failure.body.origin)
    ensures FailuresFit(c, AddFailure(w, failure))
  {
  }

  // ---------------------------------------------------------------- terminal writes

  /** The invariant, except that the attempt of `pid` may already be settled. */
  ghost predicate AlmostWork(c: ClaimLedger, x: WorkLedger, pid: PacketId) {
    && Partitioned(c, x) && ReceiptsFit(c, x) && ReceiptsIndexed(x)
    && (forall q :: q in x.attempts && q != pid ==> AttemptFits(c, x, q))
    && (pid in x.attempts ==> AttemptNamesPacket(c, x, pid))
    && FailuresFit(c, x) && StartedFit(c, x)
  }

  /** Only effects of `pid` change hands. */
  ghost predicate Reassigned(w: WorkLedger, x: WorkLedger, pid: PacketId) {
    && (forall e :: e in w.owner && w.owner[e] != pid ==> e in x.owner && x.owner[e] == w.owner[e])
    && (forall e :: e in x.owner ==> x.owner[e] == pid || (e in w.owner && x.owner[e] == w.owner[e]))
  }

  lemma ReassignKeepsReceipts(c: ClaimLedger, w: WorkLedger, x: WorkLedger, pid: PacketId)
    requires ReceiptsFit(c, w) && pid !in w.receiptOf && Reassigned(w, x, pid)
    requires x == w.(attempts := x.attempts, owner := x.owner)
    ensures ReceiptsFit(c, x)
  {
  }

  lemma ReassignKeepsAttempts(c: ClaimLedger, w: WorkLedger, x: WorkLedger, pid: PacketId)
    requires AttemptsFit(c, w) && Reassigned(w, x, pid)
    requires x == w.(attempts := x.attempts, owner := x.owner)
    requires x.attempts == w.attempts || (pid in x.attempts && AttemptNamesPacket(c, x, pid)
                                          && x.attempts == w.attempts[pid := x.attempts[pid]])
    ensures forall q :: q in x.attempts && q != pid ==> AttemptFits(c, x, q)
    ensures pid in x.attempts ==> AttemptNamesPacket(c, x, pid)
  {
  }

  /** Recording a result or moving effects to or from `pid` leaves everything else in place. */
  lemma AssignKeepsAlmost(c: ClaimLedger, w: WorkLedger, x: WorkLedger, pid: PacketId)
    requires WorkInv(c, w) && pid !in w.receiptOf && pid in w.started && Reassigned(w, x, pid)
    requires x == w.(attempts := x.attempts, owner := x.owner)
    requires x.attempts == w.attempts || (pid in x.attempts && AttemptNamesPacket(c, x, pid)
                                          && x.attempts == w.attempts[pid := x.attempts[pid]])
    ensures AlmostWork(c, x, pid)
  {
    ReassignKeepsReceipts(c, w, x, pid);
    ReassignKeepsAttempts(c, w, x, pid);
    assert FailuresFit(c, x) by {
      forall q | q in x.failures ensures FailureFits(c, x, q) { assert FailureFits(c, w, q); }
    }
  }

  /** A receipt's id fixes its packet, so a first receipt replaces no other. */
  lemma IndexReceipt(x: WorkLedger, receipt: TerminalReceipt)
    requires ReceiptsIndexed(x) && receipt.Authentic() && receipt.body.packetId !in x.receiptOf
    ensures ReceiptsIndexed(AddReceipt(x, receipt)) && receipt.id !in x.receipts
  {
  }

  lemma ReceiptKeepsReceipts(c: ClaimLedger, x: WorkLedger, id: LeaseId, receipt: TerminalReceipt)
    requires ReceiptsFit(c, x) && ReceiptsIndexed(x)
    requires receipt.Authentic() && receipt.body.packetId !in x.receiptOf
    requires ReceiptFits(Release(c, id), AddReceipt(x, receipt), receipt.body.packetId)
    ensures ReceiptsFit(Release(c, id), AddReceipt(x, receipt))
  {
  }

  lemma ReceiptKeepsAttempts(c: ClaimLedger, x: WorkLedger, id: LeaseId, receipt: TerminalReceipt)
    requires AlmostWork(c, x, receipt.body.packetId)
    ensures AttemptsFit(Release(c, id), AddReceipt(x, receipt))
    ensures FailuresFit(Release(c, id), AddReceipt(x, receipt))
  {
    var d, y := Release(c, id), AddReceipt(x, receipt);
    forall q | q in y.attempts ensures AttemptFits(d, y, q) {
      if q != receipt.body.packetId { assert AttemptFits(c, x, q); }
    }
    forall q | q in y.failures ensures FailureFits(d, y, q) { assert FailureFits(c, x, q); }
  }

  lemma ReleaseOnlyThis(c: ClaimLedger, pid: PacketId, other: PacketId)
    requires PacketsFit(c) && pid in c.packets && other in c.packets
    ensures IsActive(Release(c, c.leases[pid].leaseId), other) <==> IsActive(c, other) && other != pid
  {
  }

  lemma ReceiptKeepsPartition(c: ClaimLedger, x: WorkLedger, receipt: TerminalReceipt)
    requires PacketsFit(c) && Partitioned(c, x) && receipt.body.packetId in c.packets
    ensures Partitioned(Release(c, c.leases[receipt.body.packetId].leaseId), AddReceipt(x, receipt))
  {
    forall q | q in c.packets
      ensures IsActive(Release(c, c.leases[receipt.body.packetId].leaseId), q)
              <==> q !in AddReceipt(x, receipt).receiptOf
    {
      ReleaseOnlyThis(c, receipt.body.packetId, q);
    }
  }

  /** Writing a first receipt and releasing its lease restores the whole invariant. */
  lemma ReceiptKeepsWork(c: ClaimLedger, x: WorkLedger, receipt: TerminalReceipt)
    requires PacketsFit(c) && AlmostWork(c, x, receipt.body.packetId)
    requires receipt.body.packetId in c.packets && receipt.body.packetId !in x.receiptOf
    requires receipt.Authentic()
    requires var d := Release(c, c.leases[receipt.body.packetId].leaseId);
      ReceiptFits(d, AddReceipt(x, receipt), receipt.body.packetId)
    ensures WorkInv(Release(c, c.leases[receipt.body.packetId].leaseId), AddReceipt(x, receipt))
  {
    var id := c.leases[receipt.body.packetId].leaseId;
    ReceiptKeepsPartition(c, x, receipt);
    IndexReceipt(x, receipt);
    ReceiptKeepsReceipts(c, x, id, receipt);
    ReceiptKeepsAttempts(c, x, id, receipt);
  }
}
