/** Recovery over whole runs: budgets, fingerprints and the forest of recovery steps. */
module RecoveryTheorems {
  import opened Records
  import opened StoreSpec
  import opened StoreInvariant
  import opened RecoverySafety
  import opened Frames
  import opened Histories

  // ---------------------------------------------------------------- budget

  /** A packet has consumed exactly the budgets of its ADMITTED proposals, within its own budget. */
  lemma BudgetIsConserved(h: seq<Store>, calls: seq<Call>, n: nat, pid: PacketId)
    requires IsHistory(h, calls) && n <= |calls| && pid in h[n].claims.packets
    ensures var s := h[n];
      && AdmittedFor(s.recovery, pid) <= s.recovery.proposals.Keys
      && Consumed(s.recovery, pid) == BudgetSum(s.recovery, AdmittedFor(s.recovery, pid))
      && 0 <= Consumed(s.recovery, pid) <= s.claims.packets[pid].body.recoveryBudget
  {
    HistoryKeepsInv(h, calls, n);
    hide Apply, WellFormed, AdmissionsFit, AdmissionsIndexed, FingerprintsOnce, BudgetSum,
         AdmittedFor;
    assert BudgetExact(h[n].claims, h[n].recovery, pid);
  }

  ghost predicate AdmissionsKept(r: RecoveryLedger, x: RecoveryLedger) {
    forall id :: id in r.admissions ==> id in x.admissions && x.admissions[id] == r.admissions[id]
  }

  lemma ApplyKeepsAdmissions(s: Store, c: Call)
    ensures AdmissionsKept(s.recovery, Apply(s, c).recovery)
  {
    hide ValidateClaim, AdmissionFor, ProposalAuthentic, EffectiveState;
    if c.DoBlocker? {
    } else if c.DoAdmit? {
      AdmitKeepsAdmissions(s, c.packet, c.lease, c.blocker, c.proposal);
    } else {
      hide Apply;
      ApplyFrame(s, c);
    }
  }

  lemma AdmitKeepsAdmissions(s: Store, p: TaskPacket, l: Lease, b: BlockerReport,
                             q: RecoveryProposal)
    ensures AdmissionsKept(s.recovery, AdmitRecovery(s, p, l, b, q).store.recovery)
  {
    hide ValidateClaim, AdmissionFor, ProposalAuthentic;
  }

  lemma {:induction false} HistoryKeepsAdmissions(h: seq<Store>, calls: seq<Call>, early: nat,
                                                  n: nat)
    requires IsHistory(h, calls) && early <= n <= |calls|
    ensures AdmissionsKept(h[early].recovery, h[n].recovery)
    decreases n
  {
    hide Apply, WellFormed;
    if early < n {
      HistoryKeepsAdmissions(h, calls, early, n - 1);
      ApplyKeepsAdmissions(h[n - 1], calls[n - 1]);
    }
  }

  /** Over a whole run one fingerprint is admitted for one proposal only. */
  lemma FingerprintAdmittedOnce(h: seq<Store>, calls: seq<Call>, early: nat, n: nat, a: ProposalId,
                                b: ProposalId)
    requires IsHistory(h, calls) && early <= n <= |calls|
    requires IsAdmitted(h[early].recovery, a)
    requires IsAdmitted(h[n].recovery, b)
    requires h[early].recovery.admissions[a].body.fingerprint
             == h[n].recovery.admissions[b].body.fingerprint
    ensures a == b
  {
    HistoryKeepsInv(h, calls, n);
    HistoryKeepsAdmissions(h, calls, early, n);
    hide Apply, WellFormed, AdmissionsFit, AdmissionsIndexed, BudgetsExact;
  }

  /** A proposal submitted again, at any later time, gets its first admission back and changes
      nothing: no budget, no fingerprint, no record. */
  lemma ResubmissionIsFree(h: seq<Store>, calls: seq<Call>, early: nat, n: nat, p: TaskPacket,
                           l: Lease, blocker: BlockerReport, q: RecoveryProposal)
    requires IsHistory(h, calls) && early < n <= |calls| && calls[early] == DoAdmit(p, l, blocker, q)
    requires AdmitRecovery(h[early], p, l, blocker, q).result.Ok?
    requires AdmitRecovery(h[n], p, l, blocker, q).result.Ok?
    ensures AdmitRecovery(h[n], p, l, blocker, q).store == h[n]
    ensures AdmitRecovery(h[n], p, l, blocker, q).result
            == AdmitRecovery(h[early], p, l, blocker, q).result
  {
    hide Apply, WellFormed, AdmitRecovery;
    HistoryKeepsAdmissions(h, calls, early + 1, n);
    AdmitRemembers(h[early], p, l, blocker, q);
    AdmitIsIdempotent(h[n], p, l, blocker, q);
  }

  lemma AdmitRemembers(s: Store, p: TaskPacket, l: Lease, blocker: BlockerReport,
                       q: RecoveryProposal)
    requires AdmitRecovery(s, p, l, blocker, q).result.Ok?
    ensures var o := AdmitRecovery(s, p, l, blocker, q);
      && o.store == Apply(s, DoAdmit(p, l, blocker, q))
      && q.id in o.store.recovery.admissions
      && o.result == Ok(o.store.recovery.admissions[q.id])
  {
    hide ValidatePacket, HoldsLease, AdmissionFor, ProposalAuthentic;
  }

  lemma AdmitIsIdempotent(s: Store, p: TaskPacket, l: Lease, blocker: BlockerReport,
                          q: RecoveryProposal)
    requires AdmitRecovery(s, p, l, blocker, q).result.Ok? && q.id in s.recovery.admissions
    ensures AdmitRecovery(s, p, l, blocker, q).store == s
    ensures AdmitRecovery(s, p, l, blocker, q).result == Ok(s.recovery.admissions[q.id])
  {
    hide ValidatePacket, HoldsLease, AdmissionFor, ProposalAuthentic;
  }

  // ---------------------------------------------------------------- the decision

  /** A proposal submitted for the first time is DUPLICATE exactly when its fingerprint was admitted
      before, ADMITTED exactly when it is new and inside the packet's authority and budget, and
      ESCALATED otherwise; only an admission takes the fingerprint and the budget. */
  lemma AdmissionIsExact(s: Store, p: TaskPacket, l: Lease, blocker: BlockerReport,
                         q: RecoveryProposal)
    requires AdmitRecovery(s, p, l, blocker, q).result.Ok? && q.id !in s.recovery.admissions
    ensures var o := AdmitRecovery(s, p, l, blocker, q);
            var a, f := o.result.value.body, FingerprintOf(blocker, q);
      && (a.state == Duplicate <==> f in s.recovery.fingerprints)
      && (a.state == Admitted <==>
            f !in s.recovery.fingerprints && Admittable(s, p, blocker.body, q.body))
      && (a.state != Admitted ==> a.reasons != [])
      && o.store.recovery.fingerprints
         == s.recovery.fingerprints + (if a.state == Admitted then {f} else {})
      && Consumed(o.store.recovery, p.id)
         == Consumed(s.recovery, p.id) + (if a.state == Admitted then q.body.budget else 0)
      && (forall other :: other != p.id ==>
            Consumed(o.store.recovery, other) == Consumed(s.recovery, other))
  {
    hide ValidateClaim, ProposalAuthentic, RecoveryChecks, Admittable, Failing;
    NoObjectionsIff(s, p, blocker.body, q.body);
  }

  // ---------------------------------------------------------------- the forest

  /** The position of the step `i`'s recovery parent in its packet's ledger. */
  ghost function ParentAt(st: StepLedger, pid: PacketId, i: nat): (j: nat)
    requires LedgerFits(st, pid) && i < |StepsOf(st, pid)|
    requires st.steps[StepsOf(st, pid)[i]].body.recovery.Some?
    ensures j < i && StepsOf(st, pid)[j] == st.steps[StepsOf(st, pid)[i]].body.recovery.value.parent
  {
    var j :| 0 <= j < i
             && StepsOf(st, pid)[j] == st.steps[StepsOf(st, pid)[i]].body.recovery.value.parent;
    j
  }

  /** Where following recovery parents from the step at `i` ends. */
  ghost function RootAt(st: StepLedger, pid: PacketId, i: nat): (root: nat)
    requires LedgerFits(st, pid) && i < |StepsOf(st, pid)|
    ensures root <= i
    ensures st.steps[StepsOf(st, pid)[root]].body.recovery.None?
    decreases i
  {
    if st.steps[StepsOf(st, pid)[i]].body.recovery.None? then i
    else RootAt(st, pid, ParentAt(st, pid, i))
  }

  /** The step sits in its packet's ledger; its parent, if any, sits strictly before it and has the
      same root; the root is a step of the same packet that is no recovery. */
  ghost predicate InForest(st: StepLedger, step: StepId)
    requires step in st.steps
  {
    var pid := st.steps[step].body.packetId;
    var ids := StepsOf(st, pid);
    && LedgerFits(st, pid)
    && exists i :: 0 <= i < |ids| && ids[i] == step
         && st.steps[ids[RootAt(st, pid, i)]].body.recovery.None?
         && st.steps[ids[RootAt(st, pid, i)]].body.packetId == pid
         && (st.steps[step].body.recovery.Some? ==>
               && ParentAt(st, pid, i) < i
               && RootAt(st, pid, i) == RootAt(st, pid, ParentAt(st, pid, i)))
  }

  lemma PersistedStepIsInForest(s: Store, step: StepId)
    requires StepsInv(s.claims, s.work, s.steps) && step in s.steps.steps
    ensures InForest(s.steps, step)
  {
    assert StepFits(s.claims, s.work, s.steps, step);
    hide StepRecordsFit, StepReconciliationsFit, TerminalSettled, StepFits;
    var pid := s.steps.steps[step].body.packetId;
    assert LedgerFits(s.steps, pid);
    var i :| 0 <= i < |StepsOf(s.steps, pid)| && StepsOf(s.steps, pid)[i] == step;
    assert RootAt(s.steps, pid, i) <= i;
  }

  /** Following recovery parents from any persisted step goes strictly back in the ledger of its own
      packet and ends at a step that is no recovery. */
  lemma RecoveryStepsAreAForest(h: seq<Store>, calls: seq<Call>, n: nat, step: StepId)
    requires IsHistory(h, calls) && n <= |calls| && step in h[n].steps.steps
    ensures InForest(h[n].steps, step)
  {
    HistoryKeepsInv(h, calls, n);
    hide Apply, WellFormed, InForest, StepsInv, LedgerFits;
    PersistedStepIsInForest(h[n], step);
  }

  /** The step carries out an ADMITTED action of its own packet and lease, with that action's
      operation and effect class, inside the packet's scope, and it is no protected effect. */
  ghost predicate StaysInside(s: Store, step: StepId)
    requires step in s.steps.steps && s.steps.steps[step].body.recovery.Some?
  {
    var b := s.steps.steps[step].body;
    && b.packetId in s.claims.packets && b.effectClass in {ReadOnly, ReversibleLocal}
    && exists q, a :: IsAdmitted(s.recovery, q) && q in s.recovery.proposals
         && s.recovery.proposals[q].body.packetId == b.packetId
         && s.recovery.proposals[q].body.leaseId == b.leaseId
         && a in s.recovery.proposals[q].body.actions && a.id == b.recovery.value.actionId
         && a.body.operationDigest == b.operationDigest && a.body.effectClass == b.effectClass
         && Within(a.body.scope, s.claims.packets[b.packetId].body.scope)
  }

  lemma AdmittedStepStaysInside(s: Store, step: StepId)
    requires RecoveryInv(s.claims, s.recovery) && RecoveryStepsInv(s.steps, s.recovery)
    requires step in s.steps.steps && s.steps.steps[step].body.recovery.Some?
    ensures StaysInside(s, step)
  {
  }

  /** No recovery step of any run leaves the authority its packet was claimed with. */
  lemma RecoveryStepsStayInside(h: seq<Store>, calls: seq<Call>, n: nat, step: StepId)
    requires IsHistory(h, calls) && n <= |calls| && step in h[n].steps.steps
    requires h[n].steps.steps[step].body.recovery.Some?
    ensures StaysInside(h[n], step)
  {
    HistoryKeepsInv(h, calls, n);
    hide Apply, WellFormed, StaysInside, RecoveryInv, RecoveryStepsInv, StepsInv;
    AdmittedStepStaysInside(h[n], step);
  }
}
