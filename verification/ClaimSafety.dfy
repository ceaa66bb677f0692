/** Claims and terminal writes keep leases disjoint, current and fenced. */
module ClaimSafety {
  import opened Records
  import opened StoreSpec
  import opened StoreInvariant

  lemma VersionsCoverScope(c: ClaimLedger, pid: PacketId, item: string, v: int)
    requires pid in c.packets && ClaimedPacket(c, pid)
    requires (item, v) in c.leases[pid].scopeVersions
    ensures item in c.leases[pid].scope
  {
  }

  lemma VersionsOnlyGrow(versions: map<string, int>, scope: seq<string>, item: string)
    ensures Version(versions, item) <= Version(BumpScope(versions, scope), item)
    ensures Version(BumpScope(versions, scope), item)
            == Version(versions, item) + if item in scope then 1 else 0
  {
  }

  /** The guards a claim has passed, as far as the claim ledger is concerned. */
  ghost predicate Issuable(c: ClaimLedger, p: TaskPacket) {
    && p.Authentic() && |p.body.scope| > 0 && p.body.recoveryBudget >= 0
    && p.id !in c.leases
    && (forall k :: k in c.active ==> !Overlaps(p.body.scope, c.active[k].scope))
    && p.body.scopeVersions == ScopeSnapshot(c.versions, p.body.scope)
  }

  lemma FoundRouteShape(m: Mission, id: string)
    requires MissionWellFormed(m) && FindRoute(m.routes, id).Some?
    ensures |FindRoute(m.routes, id).value.scope| > 0
    ensures FindRoute(m.routes, id).value.recoveryBudget >= 0
  {
  }

  /** An accepted claim is issuable: its packet comes from a well-formed route. */
  lemma AcceptedClaimIsIssuable(s: Store, p: TaskPacket)
    requires TruthInv(s.truth) && Claim(s, p).result.Ok?
    ensures Issuable(s.claims, p)
    ensures Claim(s, p).store == s.(claims := Issue(s.claims, p))
  {
    hide ValidatePacket, TruthInv, Following, BumpScope;
    ValidPacketShape(s.truth, p);
  }

  /** A valid packet has the scope and the budget of its mission's route. */
  lemma ValidPacketShape(t: MissionLedger, p: TaskPacket)
    requires TruthInv(t)
    ensures ValidatePacket(t, p).Ok? ==>
              p.Authentic() && |p.body.scope| > 0 && p.body.recoveryBudget >= 0
  {
    hide FirstFalse, FindRoute, MissionWellFormed, SnapshotsFit, VerificationsFit;
    if ValidatePacket(t, p).Ok? { FoundRouteShape(t.missions[p.body.missionId], p.body.routeId); }
  }

  /** A claim grants exactly the next version of each of its scope items. */
  lemma NewGrants(c: ClaimLedger, p: TaskPacket, item: string, v: int)
    requires Issuable(c, p) && (item, v) in LeaseFor(p).scopeVersions
    ensures item in p.body.scope && v == Version(c.versions, item) + 1
    ensures v == Version(Issue(c, p).versions, item)
  {
  }

  lemma IssueKeepsPackets(c: ClaimLedger, p: TaskPacket)
    requires PacketsFit(c) && Issuable(c, p)
    ensures PacketsFit(Issue(c, p))
  {
    forall pid | pid in Issue(c, p).packets ensures ClaimedPacket(Issue(c, p), pid) {
      if pid != p.id { assert ClaimedPacket(c, pid); }
    }
  }

  lemma IssueKeepsFence(c: ClaimLedger, p: TaskPacket)
    requires Fenced(c) && Issuable(c, p)
    ensures Fenced(Issue(c, p))
  {
    forall q, item, v | Granted(Issue(c, p), q, item, v)
      ensures v <= Version(Issue(c, p).versions, item)
      ensures q != p.id ==> Granted(c, q, item, v) && v <= Version(c.versions, item)
      ensures q == p.id ==> v > Version(c.versions, item)
    {
      GrantAfterIssue(c, p, q, item, v);
    }
  }

  lemma GrantAfterIssue(c: ClaimLedger, p: TaskPacket, q: PacketId, item: string, v: int)
    requires Fenced(c) && Issuable(c, p) && Granted(Issue(c, p), q, item, v)
    ensures v <= Version(Issue(c, p).versions, item)
    ensures q != p.id ==> Granted(c, q, item, v) && v <= Version(c.versions, item)
    ensures q == p.id ==> v > Version(c.versions, item)
  {
    VersionsOnlyGrow(c.versions, p.body.scope, item);
    if q == p.id { NewGrants(c, p, item, v); } else { assert Granted(c, q, item, v); }
  }

  lemma IssueKeepsCurrent(c: ClaimLedger, p: TaskPacket)
    requires PacketsFit(c) && ActiveFit(c) && ActiveCurrent(c) && Issuable(c, p)
    ensures ActiveCurrent(Issue(c, p))
  {
    var d := Issue(c, p);
    forall a, item, v | a in d.active && (item, v) in d.active[a].scopeVersions
      ensures v == Version(d.versions, item)
    {
      if a == LeaseFor(p).leaseId {
        NewGrants(c, p, item, v);
      } else {
        VersionsCoverScope(c, c.active[a].packetId, item, v);
        assert !Overlaps(p.body.scope, c.active[a].scope);
        VersionsOnlyGrow(c.versions, p.body.scope, item);
      }
    }
  }

  lemma IssueKeepsDisjoint(c: ClaimLedger, p: TaskPacket)
    requires ActiveDisjoint(c) && Issuable(c, p)
    ensures ActiveDisjoint(Issue(c, p))
  {
  }

  lemma IssueKeepsClaims(c: ClaimLedger, p: TaskPacket)
    requires ClaimsInv(c) && Issuable(c, p)
    ensures ClaimsInv(Issue(c, p))
  {
    IssueKeepsPackets(c, p);
    assert ActiveFit(Issue(c, p));
    IssueKeepsFence(c, p);
    IssueKeepsCurrent(c, p);
    IssueKeepsDisjoint(c, p);
  }

  lemma ReleaseKeepsFence(c: ClaimLedger, id: LeaseId)
    requires Fenced(c)
    ensures Fenced(Release(c, id))
  {
    assert forall p, item, v :: Granted(Release(c, id), p, item, v) ==> Granted(c, p, item, v);
  }

  lemma ReleaseKeepsPackets(c: ClaimLedger, id: LeaseId)
    requires PacketsFit(c)
    ensures PacketsFit(Release(c, id))
  {
  }

  lemma ReleaseKeepsClaims(c: ClaimLedger, id: LeaseId)
    requires ClaimsInv(c)
    ensures ClaimsInv(Release(c, id))
  {
    hide Fenced, PacketsFit;
    ReleaseKeepsFence(c, id);
    ReleaseKeepsPackets(c, id);
  }
}
