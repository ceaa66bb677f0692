/** Recovery admission keeps its ledger: exact budgets, one admission for each fingerprint, and an
    authority envelope around every admitted action. */
module RecoverySafety {
  import opened Records
  import opened StoreSpec
  import opened StoreInvariant
  import opened WorkSafety

  // ---------------------------------------------------------------- budget sums

  lemma {:induction false} BudgetSumInsert(r: RecoveryLedger, ids: set<ProposalId>, id: ProposalId)
    requires ids <= r.proposals.Keys && id in r.proposals && id !in ids
    ensures BudgetSum(r, ids + {id}) == BudgetSum(r, ids) + r.proposals[id].body.budget
    decreases ids
  {
    var all := ids + {id};
    var pick :| pick in all && BudgetSum(r, all) == r.proposals[pick].body.budget
                                                    + BudgetSum(r, all - {pick});
    if pick == id {
      assert all - {id} == ids;
    } else {
      BudgetSumInsert(r, ids - {pick}, id);
      assert all - {pick} == (ids - {pick}) + {id};
      BudgetSumInsert(r, ids - {pick}, pick);
      assert (ids - {pick}) + {pick} == ids;
    }
  }

  lemma {:induction false} BudgetSumSame(r: RecoveryLedger, x: RecoveryLedger, ids: set<ProposalId>)
    requires ids <= r.proposals.Keys && ids <= x.proposals.Keys
    requires forall id :: id in ids ==> x.proposals[id] == r.proposals[id]
    ensures BudgetSum(r, ids) == BudgetSum(x, ids)
    decreases ids
  {
    if ids != {} {
      var pick :| pick in ids && BudgetSum(r, ids) == r.proposals[pick].body.budget
                                                      + BudgetSum(r, ids - {pick});
      BudgetSumSame(r, x, ids - {pick});
      BudgetSumInsert(x, ids - {pick}, pick);
      assert (ids - {pick}) + {pick} == ids;
    }
  }

  // ---------------------------------------------------------------- admission

  /** The guards a new admission has passed. */
  ghost predicate Admissible(c: ClaimLedger, r: RecoveryLedger, q: RecoveryProposal,
                             a: RecoveryAdmission) {
    var pid := a.body.packetId;
    && ProposalAuthentic(q) && a.Authentic() && q.id !in r.admissions
    && a.body.proposalId == q.id && a.body.blockerId == q.body.blockerId
    && q.body.packetId == pid && pid in c.packets && pid in c.leases
    && q.body.leaseId == a.body.leaseId == c.leases[pid].leaseId
    && (a.body.state == Admitted ==>
          && a.body.fingerprint !in r.fingerprints
          && InsideEnvelope(c.packets[pid].body, q.body)
          && Consumed(r, pid) + q.body.budget <= c.packets[pid].body.recoveryBudget)
  }

  lemma AdmitKeepsAdmissions(c: ClaimLedger, r: RecoveryLedger, q: RecoveryProposal,
                             a: RecoveryAdmission)
    requires AdmissionsFit(c, r) && Admissible(c, r, q, a)
    ensures AdmissionsFit(c, AddAdmission(r, q, a))
  {
    hide InsideEnvelope, ProposalAuthentic;
    var x := AddAdmission(r, q, a);
    forall id | id in x.admissions ensures AdmissionFits(c, x, id) {
      if id != q.id { EarlierAdmissionFits(c, r, q, a, id); }
    }
  }

  lemma EarlierAdmissionFits(c: ClaimLedger, r: RecoveryLedger, q: RecoveryProposal,
                             a: RecoveryAdmission, id: ProposalId)
    requires id in r.admissions && AdmissionFits(c, r, id) && id != q.id
    requires a.Authentic() && a.body.proposalId == q.id
    ensures AdmissionFits(c, AddAdmission(r, q, a), id)
  {
  }

  lemma AdmitKeepsIndex(r: RecoveryLedger, q: RecoveryProposal, a: RecoveryAdmission)
    requires AdmissionsIndexed(r) && a.Authentic() && a.body.proposalId == q.id
    requires q.id !in r.admissions
    ensures AdmissionsIndexed(AddAdmission(r, q, a))
  {
  }

  lemma AdmitKeepsFingerprints(c: ClaimLedger, r: RecoveryLedger, q: RecoveryProposal,
                               a: RecoveryAdmission)
    requires AdmissionsFit(c, r) && FingerprintsOnce(r) && Admissible(c, r, q, a)
    ensures FingerprintsOnce(AddAdmission(r, q, a))
  {
    var x := AddAdmission(r, q, a);
    forall i, j | IsAdmitted(x, i) && IsAdmitted(x, j)
                  && x.admissions[i].body.fingerprint == x.admissions[j].body.fingerprint
      ensures i == j
    {
      if i != q.id { assert IsAdmitted(r, i) && AdmissionFits(c, r, i); }
      if j != q.id { assert IsAdmitted(r, j) && AdmissionFits(c, r, j); }
    }
  }

  lemma AdmittedSetAfter(r: RecoveryLedger, q: RecoveryProposal, a: RecoveryAdmission,
                         pid: PacketId)
    requires q.id !in r.admissions
    ensures AdmittedFor(AddAdmission(r, q, a), pid)
            == AdmittedFor(r, pid) + if a.body.state == Admitted && a.body.packetId == pid
                                     then {q.id} else {}
    ensures q.id !in AdmittedFor(r, pid)
  {
  }

  lemma AdmitKeepsBudget(c: ClaimLedger, r: RecoveryLedger, q: RecoveryProposal,
                         a: RecoveryAdmission, pid: PacketId)
    requires r.proposals.Keys == r.admissions.Keys && BudgetExact(c, r, pid)
    requires Admissible(c, r, q, a)
    ensures BudgetExact(c, AddAdmission(r, q, a), pid)
  {
    var x := AddAdmission(r, q, a);
    AdmittedSetAfter(r, q, a, pid);
    BudgetSumSame(r, x, AdmittedFor(r, pid));
    if a.body.state == Admitted && a.body.packetId == pid {
      BudgetSumInsert(x, AdmittedFor(r, pid), q.id);
    } else {
      assert AdmittedFor(x, pid) == AdmittedFor(r, pid);
    }
  }

  lemma AdmitKeepsRecovery(c: ClaimLedger, r: RecoveryLedger, q: RecoveryProposal,
                           a: RecoveryAdmission)
    requires RecoveryInv(c, r) && Admissible(c, r, q, a)
    ensures RecoveryInv(c, AddAdmission(r, q, a))
  {
    hide FingerprintsOnce, AdmissionFits, BudgetExact, InsideEnvelope;
    AdmitKeepsAdmissions(c, r, q, a);
    AdmitKeepsIndex(r, q, a);
    AdmitKeepsFingerprints(c, r, q, a);
    forall pid ensures BudgetExact(c, AddAdmission(r, q, a), pid) {
      AdmitKeepsBudget(c, r, q, a, pid);
    }
  }

  /** Everything that must hold of a proposal and its blocker for an admission. */
  ghost predicate Admittable(s: Store, p: TaskPacket, blocker: BlockerBody, q: ProposalBody) {
    && InsideEnvelope(p.body, q)
    && blocker.retrySafety == SafeLocal && blocker.blockerClass in {Diagnostic, PlanGap}
    && blocker.effectState != Unsettled && !HasUnsettledStep(s.steps, p.id)
    && Consumed(s.recovery, p.id) + q.budget <= p.body.recoveryBudget
  }

  lemma NoObjectionsIff(s: Store, p: TaskPacket, blocker: BlockerBody, q: ProposalBody)
    ensures Failing(RecoveryChecks(s, p.body, p.id, blocker, q)) == [] <==> Admittable(s, p, blocker, q)
  {
    hide HasUnsettledStep;
    var checks := RecoveryChecks(s, p.body, p.id, blocker, q);
    assert |checks| == 12;
    if Failing(checks) == [] {
      assert !checks[0].0 && !checks[1].0 && !checks[2].0 && !checks[3].0 && !checks[4].0;
      assert !checks[5].0 && !checks[6].0 && !checks[7].0 && !checks[8].0 && !checks[9].0;
      assert !checks[10].0 && !checks[11].0;
      forall a | a in q.actions ensures a.body.effectClass in {ReadOnly, ReversibleLocal} {
        match a.body.effectClass
        case ReadOnly =>
        case ReversibleLocal =>
        case IrreversibleLocal =>
        case External =>
      }
    }
  }

  // ---------------------------------------------------------------- frames

  lemma BudgetFrame(c: ClaimLedger, d: ClaimLedger, r: RecoveryLedger, pid: PacketId)
    requires BudgetExact(c, r, pid) && ClaimsGrow(c, d)
    requires pid in d.packets && pid !in c.packets ==> d.packets[pid].body.recoveryBudget >= 0
    ensures BudgetExact(d, r, pid)
  {
  }

  lemma RecoveryFrame(c: ClaimLedger, d: ClaimLedger, r: RecoveryLedger)
    requires RecoveryInv(c, r) && ClaimsGrow(c, d)
    requires forall pid :: pid in d.packets ==> d.packets[pid].body.recoveryBudget >= 0
    requires c.packets.Keys <= d.packets.Keys
    ensures RecoveryInv(d, r)
  {
    hide FingerprintsOnce, AdmissionsIndexed, BudgetExact, InsideEnvelope;
    forall id | id in r.admissions ensures AdmissionFits(d, r, id) {
      assert AdmissionFits(c, r, id);
    }
    forall pid ensures BudgetExact(d, r, pid) { BudgetFrame(c, d, r, pid); }
  }

  /** New blockers, steps and admissions leave earlier recovery steps standing. */
  lemma RecoveryStepsFrame(st: StepLedger, r: RecoveryLedger, x: RecoveryLedger)
    requires RecoveryStepsInv(st, r)
    requires forall id :: id in r.admissionById ==>
               id in x.admissionById && x.admissionById[id] == r.admissionById[id]
    requires forall id :: id in r.proposals ==> id in x.proposals && x.proposals[id] == r.proposals[id]
    ensures RecoveryStepsInv(st, x)
  {
  }
}
