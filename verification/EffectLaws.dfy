/** Who owns an effect: what each end of an execution records, field by field, and that nobody else can
    settle an effect in the meantime. */
module EffectLaws {
  import opened Records
  import opened StoreSpec
  import opened StoreInvariant
  import opened Frames
  import opened Histories
  import opened LedgerLaws

  /** Nobody but the packet itself holds the effect. */
  predicate FreeFor(w: WorkLedger, e: string, pid: PacketId) { e in w.owner ==> w.owner[e] == pid }

  /** `x` is `w` with this one failure added, holding its observed effect unless another packet does. */
  predicate FailureAdded(w: WorkLedger, x: WorkLedger, f: ExecutionFailure) {
    var pid, seen := f.body.packetId, f.body.observedEffectId;
    && f.id == Of(f.body) && x == w.(failures := x.failures, owner := x.owner)
    && x.failures == w.failures[pid := f]
    && (seen.Some? ==> seen.value in x.owner)
    && (seen.Some? ==> (x.owner[seen.value] == pid <==> FreeFor(w, seen.value, pid)))
    && (forall y :: y in w.owner ==> y in x.owner && x.owner[y] == w.owner[y])
    && (forall y :: y in x.owner && Some(y) != seen ==> y in w.owner)
  }

  predicate CodeSuits(code: FailureCode, origin: FailureOrigin) {
    match origin
    case ExecutorOrigin =>
      code in {StaleIdentity, UnsettledEffect, CasMismatch, ExecutorError, InvalidFailureCode}
    case HarnessOrigin =>
      code !in {CallbackDeliveryUnsettled, ConvergenceNotProven, MissionReadbackIndeterminate,
                MissionIsComplete, NoRoute}
  }

  predicate Running(s: Store, p: TaskPacket, l: Lease) { Open(s, p, l) && p.id in s.work.started }

  // ---------------------------------------------------------------- failures

  /** What each answer of `record_execution_failure` means. */
  lemma FailureAnsweredIff(s: Store, p: TaskPacket, l: Lease, code: FailureCode, e: Evidence,
                           seen: Option<string>, origin: FailureOrigin)
    requires Inv(s)
    ensures var r := RecordExecutionFailure(s, p, l, code, e, seen, origin).result;
            var first := Running(s, p, l) && p.id !in s.work.failures;
            var text := e.Given? ==> NonBlank(e.text);
      && (r.Ok? <==> first && text && CodeSuits(code, origin))
      && (r.Rejected? && r.code == InvalidFailureCode <==> first && text && !CodeSuits(code, origin))
      && (r.Rejected? && r.code == DuplicateOrReplay
          <==> Running(s, p, l) && p.id in s.work.failures)
      && (r.Rejected? && r.code == StaleIdentity <==> !Running(s, p, l))
      && (!r.Ok? ==> RecordExecutionFailure(s, p, l, code, e, seen, origin).store == s)
  {
    hide Inv, HoldsLease, AddFailure, NonBlank;
    HeldIffOpen(s, p, l);
  }

  /** What a recorded failure leaves: itself under its own id, with the values it was reported with,
      and its observed effect held unless another packet holds it. */
  lemma FailureIsAdded(s: Store, p: TaskPacket, l: Lease, code: FailureCode, e: Evidence,
                       seen: Option<string>, origin: FailureOrigin)
    requires RecordExecutionFailure(s, p, l, code, e, seen, origin).result.Ok?
    ensures var o := RecordExecutionFailure(s, p, l, code, e, seen, origin);
            var b := o.result.value.body;
      && o.store == s.(work := o.store.work) && FailureAdded(s.work, o.store.work, o.result.value)
      && p.id in o.store.work.failures && o.store.work.failures[p.id] == o.result.value
      && b.packetId == p.id && b.leaseId == l.leaseId && b.code == code && b.detailDigest == e
      && b.observedEffectId == seen && b.origin == origin
  {
    hide HoldsLease, EvidenceText, FailureCodeAllowed;
  }

  // ---------------------------------------------------------------- receipts

  /** The call ended with this receipt: the packet's and lease's own identities, the end given, filed
      under its id and its packet, and the lease released. */
  predicate EndedWith(s: Store, t: Store, p: TaskPacket, l: Lease, receipt: TerminalReceipt,
                      status: TerminalStatus, effect: Option<string>, output: Evidence,
                      proof: Option<Evidence>, satisfied: bool, code: Option<FailureCode>,
                      origin: Option<FailureOrigin>)
  {
    var b := receipt.body;
    && receipt.id == Of(b) && b.missionId == p.body.missionId
    && b.missionRevision == p.body.missionRevision && b.packetId == p.id
    && b.leaseId == l.leaseId && b.executorId == p.body.executorId
    && b.status == status && b.effectId == effect
    && b.effectState == (if effect.Some? then Settled else NoEffect)
    && b.outputDigest == output && b.proofDigest == proof && b.predicateSatisfied == satisfied
    && b.failureCode == code && b.failureOrigin == origin
    && t.work.receipts == s.work.receipts[receipt.id := receipt]
    && t.work.receiptOf == s.work.receiptOf[p.id := receipt]
    && t.work.started == s.work.started
    && t == s.(work := t.work, claims := s.claims.(active := s.claims.active - {l.leaseId}))
  }

  /** A packet is blocked exactly while it is claimed, never started and without an open step. */
  lemma BlockAnsweredIff(s: Store, p: TaskPacket, l: Lease, code: FailureCode, d: Detail)
    requires Inv(s)
    ensures var o := TerminalizePreExecution(s, p, l, code, d);
      && (o.result.Ok? <==> Open(s, p, l) && p.id !in s.work.started && !HasOpenStep(s, p.id))
      && (!o.result.Ok? ==>
            o.result.Rejected? && o.result.code == (if p.id in s.work.started then DuplicateOrReplay
                                                    else if !Open(s, p, l) then StaleIdentity
                                                    else UnsettledEffect))
      && (o.result.Ok? ==>
            && EndedWith(s, o.store, p, l, o.result.value, Blocked, None,
                         PreExecutionBlock(code, d), None, false, Some(code), Some(HarnessOrigin))
            && o.store.work.owner == s.work.owner && o.store.work.attempts == s.work.attempts
            && o.store.work.failures == s.work.failures)
      && (!o.result.Ok? ==> o.store == s)
  {
    hide Inv, HoldsLease, HasUnsettledStep;
    HeldIffOpen(s, p, l);
    UnsettledIffOpen(s, p.id);
  }

  // ---------------------------------------------------------------- results

  /** The packet may have its first result recorded. */
  ghost predicate Awaits(s: Store, p: TaskPacket, l: Lease) {
    Running(s, p, l) && p.id !in s.work.attempts && !HasOpenStep(s, p.id)
  }

  predicate NamesRun(p: TaskPacket, l: Lease, r: ExecutionResult) {
    r.executorId == p.body.executorId && r.packetId == p.id && r.leaseId == l.leaseId
  }

  /** A result for an open step, a second result, or one for a packet that is not running changes
      nothing. */
  lemma ResultRefused(s: Store, p: TaskPacket, l: Lease, r: ExecutionResult)
    requires Inv(s) && !Awaits(s, p, l)
    ensures var o := RecordExecution(s, p, l, r);
      && o.store == s && o.result.Rejected?
      && o.result.code == (if !Open(s, p, l) then StaleIdentity
                           else if HasOpenStep(s, p.id) then UnsettledEffect
                           else if p.id !in s.work.started then StaleIdentity
                           else DuplicateOrReplay)
  {
    hide Inv, HoldsLease, HasUnsettledStep, HasOpenStep, RecordExecutionFailure, PersistTerminal;
    HeldIffOpen(s, p, l);
    UnsettledIffOpen(s, p.id);
  }

  /** A result that names another executor, packet or lease, or claims an effect a packet holds, is no
      result: it becomes a failure of the packet that runs, which observed the effect claimed. */
  lemma ResultBecomesFailure(s: Store, p: TaskPacket, l: Lease, r: ExecutionResult)
    requires Inv(s) && Awaits(s, p, l) && (!NamesRun(p, l, r) || r.effectId in s.work.owner)
    ensures var o := RecordExecution(s, p, l, r);
            var code := if NamesRun(p, l, r) then DuplicateOrReplay else StaleIdentity;
      && !o.result.Ok? && o.store == s.(work := o.store.work)
      && (p.id in s.work.failures ==>
            o.store == s && o.result.Rejected? && o.result.code == DuplicateOrReplay)
      && (p.id !in s.work.failures ==>
            && o.result.Rejected? && o.result.code == code
            && p.id in o.store.work.failures
            && var f := o.store.work.failures[p.id];
            && FailureAdded(s.work, o.store.work, f)
            && f.body.packetId == p.id && f.body.leaseId == l.leaseId && f.body.code == code
            && f.body.observedEffectId == Some(r.effectId) && f.body.origin == HarnessOrigin
            && f.body.detailDigest == (if NamesRun(p, l, r)
                                       then DuplicateEffect(r.effectId, s.work.owner[r.effectId])
                                       else ResultMismatch(p.id, l.leaseId)))
  {
    hide Inv, HoldsLease, HasUnsettledStep, HasOpenStep, RecordExecutionFailure, PersistTerminal,
         FailureAdded;
    HeldIffOpen(s, p, l);
    UnsettledIffOpen(s, p.id);
    var code := if NamesRun(p, l, r) then DuplicateOrReplay else StaleIdentity;
    var detail := if NamesRun(p, l, r) then DuplicateEffect(r.effectId, s.work.owner[r.effectId])
                  else ResultMismatch(p.id, l.leaseId);
    FailureAnsweredIff(s, p, l, code, detail, Some(r.effectId), HarnessOrigin);
    if p.id !in s.work.failures {
      FailureIsAdded(s, p, l, code, detail, Some(r.effectId), HarnessOrigin);
    }
  }

  /** The packet's own result with a new effect is recorded as it is and takes the effect; settled, it
      is the receipt. */
  lemma ResultIsAdded(s: Store, p: TaskPacket, l: Lease, r: ExecutionResult)
    requires Inv(s) && Awaits(s, p, l) && NamesRun(p, l, r) && r.effectId !in s.work.owner
    ensures var o := RecordExecution(s, p, l, r);
      && o.store.work.attempts == s.work.attempts[p.id := r]
      && o.store.work.owner == s.work.owner[r.effectId := p.id]
      && o.store.work.failures == s.work.failures
      && (o.result.Ok? <==> r.effectState == Settled)
      && (if o.result.Ok? then
            EndedWith(s, o.store, p, l, o.result.value, Succeeded, Some(r.effectId), r.outputDigest,
                      Some(r.outputDigest), r.predicateSatisfied, None, None)
          else && o.result.Rejected? && o.result.code == UnsettledEffect
               && o.store == s.(work := s.work.(attempts := o.store.work.attempts,
                                                owner := o.store.work.owner)))
  {
    hide Inv, HoldsLease, HasUnsettledStep, HasOpenStep;
    HeldIffOpen(s, p, l);
    UnsettledIffOpen(s, p.id);
  }

  // ---------------------------------------------------------------- settlements

  /** The reconciliation is of this packet's own failure. */
  predicate NamesFailure(w: WorkLedger, p: TaskPacket, l: Lease, r: FailureReconciliation) {
    && p.id in w.failures && r.packetId == p.id && r.leaseId == l.leaseId
    && r.code == w.failures[p.id].body.code
  }

  /** It settles the effect observed, if one was, and no effect of another packet. */
  predicate SettlesOwnEffect(w: WorkLedger, p: TaskPacket, r: FailureReconciliation)
    requires p.id in w.failures
  {
    SettlesObserved(w, p, r) && (r.effectId.Some? ==> FreeFor(w, r.effectId.value, p.id))
  }

  predicate SettlesObserved(w: WorkLedger, p: TaskPacket, r: FailureReconciliation)
    requires p.id in w.failures
  {
    r.effectId.Some? && w.failures[p.id].body.observedEffectId.Some? ==>
      r.effectId == w.failures[p.id].body.observedEffectId
  }

  /** `x` owns what `w` does, but for the packet's observed effect once it proved to be none, and the
      effect it settled. */
  predicate OwnsAfterFailure(w: WorkLedger, x: WorkLedger, pid: PacketId, seen: Option<string>,
                             settled: Option<string>)
  {
    && (settled.Some? ==> settled.value in x.owner && x.owner[settled.value] == pid)
    && (forall e :: e in x.owner && Some(e) != settled ==> e in w.owner && x.owner[e] == w.owner[e])
    && (forall e :: e in w.owner && e !in x.owner ==>
          settled == None && seen == Some(e) && w.owner[e] == pid)
    && (settled == None && seen.Some? && seen.value in w.owner && w.owner[seen.value] == pid ==>
          seen.value !in x.owner)
  }

  lemma FailureSettledIff(s: Store, p: TaskPacket, l: Lease, r: FailureReconciliation)
    requires Inv(s) && FailureReconciliationWellFormed(r)
    ensures var o := ReconcileFailure(s, p, l, r);
      && (o.result.Ok? <==> Open(s, p, l) && !HasOpenStep(s, p.id)
                            && NamesFailure(s.work, p, l, r) && SettlesOwnEffect(s.work, p, r))
      && (o.result.Ok? ==>
            var f := s.work.failures[p.id].body;
            && EndedWith(s, o.store, p, l, o.result.value, TerminalStatus.Failed, r.effectId,
                         r.outputDigest, Some(r.proofDigest), false, Some(f.code), Some(f.origin))
            && OwnsAfterFailure(s.work, o.store.work, p.id, f.observedEffectId, r.effectId)
            && o.store.work.attempts == s.work.attempts && o.store.work.failures == s.work.failures)
      && (!o.result.Ok? ==>
            && o.store == s && o.result.Rejected?
            && o.result.code ==
               (if p.id !in s.work.failures || p.id in s.work.receiptOf then DuplicateOrReplay
                else if !Open(s, p, l) then StaleIdentity
                else if HasOpenStep(s, p.id) then UnsettledEffect
                else if !NamesFailure(s.work, p, l, r) || !SettlesObserved(s.work, p, r)
                then StaleIdentity
                else DuplicateOrReplay))
  {
    hide Inv, HoldsLease, HasUnsettledStep, HasOpenStep, EvidenceText, ReconcilableCode;
    HeldIffOpen(s, p, l);
    UnsettledIffOpen(s, p.id);
  }

  lemma EffectSettledIff(s: Store, p: TaskPacket, l: Lease, r: EffectReconciliation)
    requires Inv(s)
    ensures var o := ReconcileEffect(s, p, l, r);
      && (o.result.Ok? <==>
            && Open(s, p, l) && !HasOpenStep(s, p.id) && p.id in s.work.attempts
            && r.packetId == p.id && r.leaseId == l.leaseId
            && r.effectId == s.work.attempts[p.id].effectId && r.effectState == Settled)
      && (o.result.Ok? ==>
            var a := s.work.attempts[p.id];
            && EndedWith(s, o.store, p, l, o.result.value, Succeeded, Some(a.effectId),
                         a.outputDigest, Some(r.proofDigest), a.predicateSatisfied, None, None)
            && o.store.work.attempts == s.work.attempts[p.id := a.(effectState := Settled)]
            && o.store.work.owner == s.work.owner && o.store.work.failures == s.work.failures)
      && (!o.result.Ok? ==>
            && o.store == s && o.result.Rejected?
            && o.result.code ==
               (if p.id !in s.work.attempts || s.work.attempts[p.id].effectState != Unsettled
                then DuplicateOrReplay
                else if !Open(s, p, l) then StaleIdentity
                else if HasOpenStep(s, p.id) then UnsettledEffect
                else if r.packetId != p.id || r.leaseId != l.leaseId
                        || r.effectId != s.work.attempts[p.id].effectId then StaleIdentity
                else UnsettledEffect))
  {
    hide Inv, HoldsLease, HasUnsettledStep, HasOpenStep;
    HeldIffOpen(s, p, l);
    UnsettledIffOpen(s, p.id);
    OpenAttemptIsUnsettled(s, p.id);
  }

  lemma OpenAttemptIsUnsettled(s: Store, pid: PacketId)
    requires Inv(s)
    ensures pid in s.work.attempts && pid !in s.work.receiptOf ==>
              s.work.attempts[pid].effectState == Unsettled
  {
    hide Inv, TruthInv, ClaimsInv, StepsInv, RecoveryInv, RecoveryStepsInv, CallbacksInv,
         PacketsHaveMissions, ReceiptsFit, ReceiptsIndexed, FailuresFit, StartedFit, Partitioned;
    InvParts(s);
    assert pid in s.work.attempts ==> AttemptFits(s.claims, s.work, pid);
  }

  // ---------------------------------------------------------------- whole runs

  /** An owned effect keeps its owner until the owner has its receipt. */
  lemma OwnerStays(s: Store, c: Call, e: string)
    requires Inv(s) && WellFormed(c) && e in s.work.owner
    ensures var w := Apply(s, c).work;
      (e in w.owner && w.owner[e] == s.work.owner[e]) || s.work.owner[e] in w.receiptOf
  {
    hide Inv, WellFormed, Apply;
    if TouchesWork(c) {
      WorkCallKeepsOwner(s, c, e);
    } else {
      ApplyFrame(s, c);
    }
  }

  lemma WorkCallKeepsOwner(s: Store, c: Call, e: string)
    requires Inv(s) && WellFormed(c) && e in s.work.owner && TouchesWork(c)
    ensures var w := Apply(s, c).work;
      (e in w.owner && w.owner[e] == s.work.owner[e]) || s.work.owner[e] in w.receiptOf
  {
    hide Inv, RecordExecution, RecordExecutionFailure, ReconcileFailure, ReconcileEffect,
         TerminalizePreExecution, FailureReconciliationWellFormed, ValidateClaim, ResultWellFormed,
         HasOpenStep, Open;
    match c
    case DoBegin(p, l) =>
    case DoBlock(p, l, code, d) => BlockAnsweredIff(s, p, l, code, d);
    case DoFail(p, l, code, x, seen, origin) => FailKeepsOwner(s, p, l, code, x, seen, origin, e);
    case DoReconcileFailure(p, l, r) => SettlementKeepsOwner(s, p, l, r, e);
    case DoReconcileEffect(p, l, r) => EffectSettledIff(s, p, l, r);
    case DoResult(p, l, r) => ResultKeepsOwner(s, p, l, r, e);
  }

  lemma SettlementKeepsOwner(s: Store, p: TaskPacket, l: Lease, r: FailureReconciliation, e: string)
    requires Inv(s) && FailureReconciliationWellFormed(r) && e in s.work.owner
    ensures var w := ReconcileFailure(s, p, l, r).store.work;
      (e in w.owner && w.owner[e] == s.work.owner[e]) || s.work.owner[e] in w.receiptOf
  {
    hide Inv, ReconcileFailure, HasOpenStep, Open, FailureReconciliationWellFormed;
    FailureSettledIff(s, p, l, r);
  }

  lemma FailKeepsOwner(s: Store, p: TaskPacket, l: Lease, code: FailureCode, x: Evidence,
                       seen: Option<string>, origin: FailureOrigin, e: string)
    requires Inv(s) && e in s.work.owner
    ensures var w := RecordExecutionFailure(s, p, l, code, x, seen, origin).store.work;
      e in w.owner && w.owner[e] == s.work.owner[e]
  {
    hide Inv, RecordExecutionFailure, NonBlank, CodeSuits, Open;
    FailureAnsweredIff(s, p, l, code, x, seen, origin);
    if RecordExecutionFailure(s, p, l, code, x, seen, origin).result.Ok? {
      FailureIsAdded(s, p, l, code, x, seen, origin);
    }
  }

  lemma ResultKeepsOwner(s: Store, p: TaskPacket, l: Lease, r: ExecutionResult, e: string)
    requires Inv(s) && e in s.work.owner
    ensures var w := RecordExecution(s, p, l, r).store.work;
      e in w.owner && w.owner[e] == s.work.owner[e]
  {
    hide Inv, RecordExecution, HasOpenStep, Awaits, NamesRun, Open, FreeFor, EndedWith;
    if !Awaits(s, p, l) {
      ResultRefused(s, p, l, r);
    } else if !NamesRun(p, l, r) || r.effectId in s.work.owner {
      ResultBecomesFailure(s, p, l, r);
    } else {
      ResultIsAdded(s, p, l, r);
    }
  }

  /** An effect a packet holds at some moment stays that packet's until it has its receipt: no receipt
      whatever carries the effect in that time, so nobody else has settled it. */
  lemma {:induction false} EffectsAreReserved(h: seq<Store>, calls: seq<Call>, i: nat, n: nat, e: string)
    requires IsHistory(h, calls) && i <= n <= |calls| && e in h[i].work.owner
    requires h[i].work.owner[e] !in h[n].work.receiptOf
    ensures e in h[n].work.owner && h[n].work.owner[e] == h[i].work.owner[e]
    ensures forall id :: id in h[n].work.receipts ==> h[n].work.receipts[id].body.effectId != Some(e)
    decreases n
  {
    hide Apply, WellFormed, Inv;
    if i < n {
      HistoryGrows(h, calls, n - 1, n);
      EffectsAreReserved(h, calls, i, n - 1, e);
      HistoryKeepsInv(h, calls, n - 1);
      OwnerStays(h[n - 1], calls[n - 1], e);
    }
    HistoryKeepsInv(h, calls, n);
    UnsettledIsOnNoReceipt(h[n], e);
  }

  lemma UnsettledIsOnNoReceipt(s: Store, e: string)
    requires Inv(s) && e in s.work.owner && s.work.owner[e] !in s.work.receiptOf
    ensures forall id :: id in s.work.receipts ==> s.work.receipts[id].body.effectId != Some(e)
  {
    hide Inv, TruthInv, ClaimsInv, StepsInv, RecoveryInv, RecoveryStepsInv, CallbacksInv,
         PacketsHaveMissions, AttemptsFit, FailuresFit, StartedFit, Partitioned;
    InvParts(s);
    forall id | id in s.work.receipts ensures s.work.receipts[id].body.effectId != Some(e) {
      assert ReceiptFits(s.claims, s.work, s.work.receipts[id].body.packetId);
    }
  }

  /** However a failure comes on record, it is added as `FailureAdded` says. */
  lemma FailuresAreAdded(s: Store, c: Call, pid: PacketId)
    requires Inv(s) && pid !in s.work.failures && pid in Apply(s, c).work.failures
    ensures FailureAdded(s.work, Apply(s, c).work, Apply(s, c).work.failures[pid])
  {
    hide Inv, RecordExecution, RecordExecutionFailure, ReconcileFailure, ReconcileEffect,
         TerminalizePreExecution, ValidateClaim, HasOpenStep, Open, FailureAdded, EndedWith,
         OwnsAfterFailure, NonBlank, CodeSuits;
    match c
    case DoFail(p, l, code, x, seen, origin) =>
      FailureAnsweredIff(s, p, l, code, x, seen, origin);
      if RecordExecutionFailure(s, p, l, code, x, seen, origin).result.Ok? {
        FailureIsAdded(s, p, l, code, x, seen, origin);
        OnlyNewFailure(s.work, Apply(s, c).work, Apply(s, c).work.failures[p.id], pid);
      }
    case DoResult(p, l, r) =>
      if !Awaits(s, p, l) {
        ResultRefused(s, p, l, r);
      } else if !NamesRun(p, l, r) || r.effectId in s.work.owner {
        ResultBecomesFailure(s, p, l, r);
        if p.id !in s.work.failures {
          OnlyNewFailure(s.work, Apply(s, c).work, Apply(s, c).work.failures[p.id], pid);
        }
      } else {
        ResultIsAdded(s, p, l, r);
      }
    case _ => OthersAddNoFailure(s, c);
  }

  lemma OnlyNewFailure(w: WorkLedger, x: WorkLedger, f: ExecutionFailure, pid: PacketId)
    requires FailureAdded(w, x, f) && pid in x.failures && pid !in w.failures
    ensures pid == f.body.packetId && x.failures[pid] == f
  {
  }

  lemma OthersAddNoFailure(s: Store, c: Call)
    requires !c.DoFail? && !c.DoResult?
    ensures Apply(s, c).work.failures == s.work.failures
  {
    if TouchesWork(c) {
      hide HasUnsettledStep, HoldsLease, ValidateClaim;
    } else {
      hide Apply;
      ApplyFrame(s, c);
    }
  }

  /** The effect a failure observed, free when the failure came on record, is its packet's at every
      later moment until the packet's receipt, and on no receipt in that time. */
  lemma ObservedEffectIsReserved(h: seq<Store>, calls: seq<Call>, i: nat, n: nat, pid: PacketId,
                                 e: string)
    requires IsHistory(h, calls) && i < n <= |calls|
    requires pid !in h[i].work.failures && pid in h[i + 1].work.failures
    requires h[i + 1].work.failures[pid].body.observedEffectId == Some(e)
    requires FreeFor(h[i].work, e, pid) && pid !in h[n].work.receiptOf
    ensures e in h[n].work.owner && h[n].work.owner[e] == pid
    ensures forall id :: id in h[n].work.receipts ==> h[n].work.receipts[id].body.effectId != Some(e)
  {
    hide WellFormed, Apply, FreeFor, Inv;
    HistoryKeepsInv(h, calls, i);
    HistoryKeepsInv(h, calls, i + 1);
    FailuresAreAdded(h[i], calls[i], pid);
    FailureNamesPacket(h[i + 1], pid);
    EffectsAreReserved(h, calls, i + 1, n, e);
  }

  lemma FailureNamesPacket(s: Store, pid: PacketId)
    requires Inv(s) && pid in s.work.failures
    ensures s.work.failures[pid].body.packetId == pid
  {
    hide Inv, TruthInv, ClaimsInv, StepsInv, RecoveryInv, RecoveryStepsInv, CallbacksInv,
         PacketsHaveMissions, ReceiptsFit, ReceiptsIndexed, AttemptsFit, StartedFit, Partitioned;
    InvParts(s);
    assert FailureFits(s.claims, s.work, pid);
  }
}
