/** What a recovery proposal is admitted or refused for, reason by reason, and what the gate records. */
module RecoveryLaws {
  import opened Records
  import opened StoreSpec
  import opened StoreInvariant
  import opened LedgerLaws
  import opened RouteLaws
  import opened StepLaws

  /** The proposal and its actions are what their ids say. */
  predicate Untampered(q: RecoveryProposal) {
    && q.id == Of(q.body) && q.body.actionFingerprint == Of(q.body.actions)
    && forall i :: 0 <= i < |q.body.actions| ==> q.body.actions[i].id == Of(q.body.actions[i].body)
  }

  /** The proposal answers the stored blocker of this packet and lease. */
  predicate AnswersBlocker(s: Store, p: TaskPacket, l: Lease, blocker: BlockerReport,
                           q: RecoveryProposal)
  {
    && blocker.id in s.recovery.blockers && s.recovery.blockers[blocker.id] == blocker
    && q.body.blockerId == blocker.id && q.body.packetId == p.id && q.body.leaseId == l.leaseId
  }

  lemma SubmissionAnsweredIff(s: Store, p: TaskPacket, l: Lease, blocker: BlockerReport,
                              q: RecoveryProposal)
    requires Inv(s)
    ensures var o := AdmitRecovery(s, p, l, blocker, q);
      && (o.result.Ok? <==>
            && Stands(s, p, l) && AnswersBlocker(s, p, l, blocker, q) && Untampered(q))
      && (!o.result.Ok? ==> o.store == s)
      && (!o.result.Ok? && Stands(s, p, l) ==>
            o.result.Rejected? && o.result.code ==
              if AnswersBlocker(s, p, l, blocker, q) then ReplayIdentityConflict else StaleIdentity)
      && (o.result.Ok? && q.id in s.recovery.admissions ==>
            o.store == s && o.result.value == s.recovery.admissions[q.id])
  {
    hide Inv, ValidateClaim, Acceptable, Open, AdmissionFor, AddAdmission;
    ClaimStandsIff(s, p, l);
  }

  // ---------------------------------------------------------------- reasons

  function Spent(r: RecoveryLedger, pid: PacketId): int {
    if pid in r.consumed then r.consumed[pid] else 0
  }

  /** What is wrong with the proposal, if this is. */
  ghost predicate Objects(s: Store, p: TaskPacket, blocker: BlockerBody, q: ProposalBody, x: Reason) {
    match x
    case ScopeExpansion =>
      || (exists item :: item in q.requiredScope && item !in p.body.scope)
      || (exists a, item :: a in q.actions && item in a.body.scope && item !in p.body.scope)
    case AuthorityExpansion => q.authorityDelta != 0
    case RetryNotSafeLocal => blocker.retrySafety != SafeLocal
    case BlockerRequiresParentAuthority =>
      blocker.blockerClass != Diagnostic && blocker.blockerClass != PlanGap
    case StepEffectUnsettled => blocker.effectState == Unsettled || HasOpenStep(s, p.id)
    case VerificationPlanRequired => |q.verificationPlan| == 0
    case ActionGraphRequired => |q.actions| == 0
    case NewProtectedEffect =>
      exists a :: a in q.actions && (a.body.effectClass == IrreversibleLocal
                                     || a.body.effectClass == External)
    case PredicateMismatch => q.predicateKey != p.body.predicateKey
    case ExpectedDeltaMismatch => q.expectedDelta != p.body.expectedDelta
    case DestinationMismatch => q.destination != p.body.destination
    case RecoveryBudgetExhausted =>
      q.budget <= 0 || Spent(s.recovery, p.id) + q.budget > p.body.recoveryBudget
    case DuplicateFingerprint => false
  }

  /** The place of a reason in the list of an answer. */
  function Rank(x: Reason): nat {
    match x
    case ScopeExpansion => 0
    case AuthorityExpansion => 1
    case RetryNotSafeLocal => 2
    case BlockerRequiresParentAuthority => 3
    case StepEffectUnsettled => 4
    case VerificationPlanRequired => 5
    case ActionGraphRequired => 6
    case NewProtectedEffect => 7
    case PredicateMismatch => 8
    case ExpectedDeltaMismatch => 9
    case DestinationMismatch => 10
    case RecoveryBudgetExhausted => 11
    case DuplicateFingerprint => 12
  }

  /** Exactly the objections there are, each once and in order. */
  ghost predicate ListsObjections(s: Store, p: TaskPacket, blocker: BlockerBody, q: ProposalBody,
                                  reasons: seq<Reason>) {
    && (forall x :: x in reasons <==> Objects(s, p, blocker, q, x))
    && (forall i, j :: 0 <= i < j < |reasons| ==> Rank(reasons[i]) < Rank(reasons[j]))
  }

  /** The checks as they stand in the gate's list. */
  ghost predicate ChecksAre(s: Store, p: TaskPacket, blocker: BlockerBody, q: ProposalBody,
                            checks: seq<(bool, Reason)>) {
    && |checks| == 12
    && forall i :: 0 <= i < 12 ==> Rank(checks[i].1) == i
                                   && (checks[i].0 <==> Objects(s, p, blocker, q, checks[i].1))
  }

  lemma ChecksAreThese(s: Store, p: TaskPacket, blocker: BlockerBody, q: ProposalBody)
    requires Inv(s)
    ensures ChecksAre(s, p, blocker, q, RecoveryChecks(s, p.body, p.id, blocker, q))
  {
    hide Inv, HasUnsettledStep, HasOpenStep;
    UnsettledIffOpen(s, p.id);
  }

  predicate Fails(checks: seq<(bool, Reason)>, x: Reason) {
    exists i :: 0 <= i < |checks| && checks[i].0 && checks[i].1 == x
  }

  lemma {:induction false} FailingFrom(checks: seq<(bool, Reason)>, base: nat)
    requires forall i :: 0 <= i < |checks| ==> Rank(checks[i].1) == base + i
    ensures forall x :: x in Failing(checks) <==> Fails(checks, x)
    ensures forall i :: 0 <= i < |Failing(checks)| ==> Rank(Failing(checks)[i]) >= base
    ensures forall i, j :: 0 <= i < j < |Failing(checks)| ==>
              Rank(Failing(checks)[i]) < Rank(Failing(checks)[j])
  {
    hide Rank;
    if |checks| > 0 {
      var rest := checks[1..];
      FailingFrom(rest, base + 1);
      var head := if checks[0].0 then [checks[0].1] else [];
      assert Failing(checks) == head + Failing(rest);
      forall x ensures x in Failing(checks) <==> Fails(checks, x) {
        assert x in Failing(rest) <==> Fails(rest, x);
        FailsSplits(checks, x);
      }
    }
  }

  lemma FailsSplits(checks: seq<(bool, Reason)>, x: Reason)
    requires |checks| > 0
    ensures Fails(checks, x) <==> (checks[0].0 && checks[0].1 == x) || Fails(checks[1..], x)
  {
    var rest := checks[1..];
    if Fails(rest, x) {
      var i :| 0 <= i < |rest| && rest[i].0 && rest[i].1 == x;
      assert checks[i + 1] == rest[i];
    }
    if i :| 0 < i < |checks| && checks[i].0 && checks[i].1 == x { assert rest[i - 1] == checks[i]; }
  }

  lemma ReasonsAreObjections(s: Store, p: TaskPacket, blocker: BlockerBody, q: ProposalBody)
    requires Inv(s)
    ensures ListsObjections(s, p, blocker, q, Failing(RecoveryChecks(s, p.body, p.id, blocker, q)))
  {
    hide Inv, RecoveryChecks, Objects;
    ChecksAreThese(s, p, blocker, q);
    var checks := RecoveryChecks(s, p.body, p.id, blocker, q);
    FailingFrom(checks, 0);
    forall x | Objects(s, p, blocker, q, x) ensures x in Failing(checks) {
      NoRankTwelve(s, p, blocker, q, x);
      assert checks[Rank(x)].1 == x;
      assert Fails(checks, x);
    }
  }

  lemma NoRankTwelve(s: Store, p: TaskPacket, blocker: BlockerBody, q: ProposalBody, x: Reason)
    requires Objects(s, p, blocker, q, x)
    ensures Rank(x) < 12
    ensures forall y :: Rank(y) == Rank(x) ==> y == x
  {
  }

  // ---------------------------------------------------------------- the decision

  /** A first submission: DUPLICATE when its fingerprint was admitted before, else ESCALATED with every
      objection there is, else ADMITTED with none; the answer names proposal, blocker, packet, lease and
      fingerprint. */
  lemma DecisionIsExact(s: Store, p: TaskPacket, l: Lease, blocker: BlockerReport, q: RecoveryProposal)
    requires Inv(s) && AdmitRecovery(s, p, l, blocker, q).result.Ok? && q.id !in s.recovery.admissions
    ensures var a := AdmitRecovery(s, p, l, blocker, q).result.value;
            var mark := Of(FingerprintKey(blocker.id, blocker.body.stateDigest,
                                          q.body.actionFingerprint));
      && a.id == Of(a.body) && a.body.proposalId == q.id && a.body.blockerId == blocker.id
      && a.body.packetId == p.id && a.body.leaseId == l.leaseId && a.body.fingerprint == mark
      && (a.body.state == Duplicate <==> mark in s.recovery.fingerprints)
      && (a.body.state == Duplicate ==> a.body.reasons == [DuplicateFingerprint])
      && (a.body.state != Duplicate ==> ListsObjections(s, p, blocker.body, q.body, a.body.reasons))
      && (a.body.state == Admitted <==>
            mark !in s.recovery.fingerprints && !exists x :: Objects(s, p, blocker.body, q.body, x))
  {
    hide Inv, ValidateClaim, RecoveryChecks, Failing, Objects, ProposalAuthentic;
    ReasonsAreObjections(s, p, blocker.body, q.body);
    var reasons := Failing(RecoveryChecks(s, p.body, p.id, blocker.body, q.body));
    assert reasons != [] ==> reasons[0] in reasons;
  }

  /** What the gate writes: the proposal and its answer, and for an admission alone the fingerprint and
      the budget. */
  lemma DecisionIsRecorded(s: Store, p: TaskPacket, l: Lease, blocker: BlockerReport,
                           q: RecoveryProposal)
    requires AdmitRecovery(s, p, l, blocker, q).result.Ok? && q.id !in s.recovery.admissions
    ensures var o := AdmitRecovery(s, p, l, blocker, q);
            var a, r, x := o.result.value, s.recovery, o.store.recovery;
      && o.store == s.(recovery := x) && x.blockers == r.blockers
      && x.proposals == r.proposals[q.id := q] && x.admissions == r.admissions[q.id := a]
      && x.admissionById == r.admissionById[a.id := a]
      && (if a.body.state == Admitted
          then && x.fingerprints == r.fingerprints + {a.body.fingerprint}
               && x.consumed == r.consumed[p.id := Spent(r, p.id) + q.body.budget]
          else x.fingerprints == r.fingerprints && x.consumed == r.consumed)
  {
    hide ValidateClaim, RecoveryChecks, Failing, ProposalAuthentic;
  }
}
