/** Which packets are accepted and claimed, field by field, and what that means for whole runs. */
module RouteLaws {
  import opened Records
  import opened StoreSpec
  import opened StoreInvariant
  import opened Frames
  import opened Histories
  import opened LedgerLaws

  // ---------------------------------------------------------------- accepted packets

  /** The packet repeats the route field by field. */
  predicate CarriesRoute(b: PacketBody, r: Route) {
    && r.routeId == b.routeId && r.predicateKey == b.predicateKey && r.executorId == b.executorId
    && r.scope == b.scope && r.expectedDelta == b.expectedDelta && r.abandonIf == b.abandonIf
    && r.recoveryBudget == b.recoveryBudget
  }

  /** The packet's mission is registered at its revision, with its mode and destination, and has the
      route the packet repeats. */
  predicate CarriesMission(b: PacketBody, m: Mission) {
    && m.missionId == b.missionId && m.revision == b.missionRevision
    && m.mode == b.missionMode && m.destination == b.destination
    && exists r :: r in m.routes && CarriesRoute(b, r)
  }

  predicate Registered(t: MissionLedger, b: PacketBody) {
    b.missionId in t.missions && t.missions[b.missionId].revision == b.missionRevision
  }

  /** The packet is authentic and asks for the first false predicate by an undisposed route. */
  ghost predicate Acceptable(t: MissionLedger, p: TaskPacket) {
    var b := p.body;
    && p.id == Of(b) && Registered(t, b)
    && CarriesMission(b, t.missions[b.missionId])
    && (b.missionId, b.missionRevision, b.routeId) !in t.dispositions
    && exists k: nat :: FirstFalseAt(t, t.missions[b.missionId], k)
                        && t.missions[b.missionId].predicates[k].key == b.predicateKey
  }

  /** `validate_packet` accepts exactly these, and tells tampering and doubt from everything else. */
  lemma PacketAcceptedIff(t: MissionLedger, p: TaskPacket)
    requires TruthInv(t)
    ensures var r := ValidatePacket(t, p);
      && !r.Raised? && (r.Ok? <==> Acceptable(t, p))
      && (r.Ok? ==> r.value == t.missions[p.body.missionId])
      && (r.Rejected? && r.code == ReplayIdentityConflict <==> p.id != Of(p.body))
      && (r.Rejected? && r.code == MissionReadbackIndeterminate
          <==> p.id == Of(p.body) && Registered(t, p.body)
               && SomeIndeterminate(t, t.missions[p.body.missionId]))
      && (r.Rejected? ==>
            r.code in {ReplayIdentityConflict, MissionReadbackIndeterminate, StaleIdentity})
  {
    hide FirstFalse, FirstFalseAt, SomeIndeterminate, MissionWellFormed, SnapshotsFit,
         VerificationsFit;
    if Registered(t, p.body) {
      var m := t.missions[p.body.missionId];
      ScanIsExact(t, m);
      RouteIsUnique(m, p.body.routeId);
      FirstFalseIsSolid(t, m);
    }
  }

  lemma StoreAcceptsIff(s: Store, p: TaskPacket)
    requires Inv(s)
    ensures ValidatePacket(s.truth, p).Ok? <==> Acceptable(s.truth, p)
  {
    hide Inv, TruthInv, ClaimsInv, WorkInv, StepsInv, RecoveryInv, RecoveryStepsInv, CallbacksInv,
         PacketsHaveMissions, ValidatePacket, Acceptable;
    InvParts(s);
    PacketAcceptedIff(s.truth, p);
  }

  lemma FirstFalseIsSolid(t: MissionLedger, m: Mission)
    ensures forall k: nat :: FirstFalseAt(t, m, k) ==> k < |m.predicates| && !SomeIndeterminate(t, m)
  {
  }

  lemma RouteIsUnique(m: Mission, id: string)
    requires MissionWellFormed(m)
    ensures forall r :: r in m.routes && r.routeId == id ==> FindRoute(m.routes, id) == Some(r)
  {
  }

  // ---------------------------------------------------------------- claims

  /** Some active lease covers an item of the scope. */
  predicate ScopeIsTaken(c: ClaimLedger, scope: seq<string>) {
    exists k, x :: k in c.active && x in c.active[k].scope && x in scope
  }

  /** The packet lists its scope at the current versions. */
  predicate VersionsAreCurrent(c: ClaimLedger, b: PacketBody) {
    && |b.scopeVersions| == |b.scope|
    && forall i :: 0 <= i < |b.scope| ==>
         b.scopeVersions[i] == (b.scope[i], CurrentVersion(c, b.scope[i]))
  }

  /** What each answer of `claim` means. */
  lemma ClaimAnsweredIff(s: Store, p: TaskPacket)
    requires Inv(s)
    ensures var r := Claim(s, p).result;
            var offered := Acceptable(s.truth, p) && p.id !in s.claims.packets;
      && (r.Ok? <==> offered && !ScopeIsTaken(s.claims, p.body.scope)
                     && VersionsAreCurrent(s.claims, p.body))
      && (r.Rejected? && r.code == LeaseConflict <==> offered && ScopeIsTaken(s.claims, p.body.scope))
      && (r.Rejected? && r.code == CasMismatch
          <==> offered && !ScopeIsTaken(s.claims, p.body.scope)
               && !VersionsAreCurrent(s.claims, p.body))
      && (r.Rejected? && r.code == DuplicateOrReplay
          <==> Acceptable(s.truth, p) && p.id in s.claims.packets)
      && (!r.Ok? ==> Claim(s, p).store == s)
  {
    hide Inv, ClaimsInv, WorkInv, StepsInv, RecoveryInv, RecoveryStepsInv, CallbacksInv, TruthInv,
         PacketsHaveMissions, ValidatePacket, Acceptable, Issue, LeaseFor;
    InvParts(s);
    PacketAcceptedIff(s.truth, p);
    LeasedIffClaimed(s.claims, p.id);
    OverlapsIffTaken(s.claims, p.body.scope);
    SnapshotIffCurrent(s.claims, p.body);
  }

  lemma LeasedIffClaimed(c: ClaimLedger, pid: PacketId)
    requires ClaimsInv(c)
    ensures pid in c.leases <==> pid in c.packets
  {
  }

  lemma OverlapsIffTaken(c: ClaimLedger, scope: seq<string>)
    ensures (exists k :: k in c.active && Overlaps(scope, c.active[k].scope)) <==> ScopeIsTaken(c, scope)
  {
  }

  lemma SnapshotIffCurrent(c: ClaimLedger, b: PacketBody)
    ensures ScopeSnapshot(c.versions, b.scope) == b.scopeVersions <==> VersionsAreCurrent(c, b)
  {
  }

  /** A granted claim: its lease carries the packet's scope one version on, every item of the scope
      moves to that version and nothing else moves. */
  lemma ClaimGrants(s: Store, p: TaskPacket)
    requires Claim(s, p).result.Ok?
    ensures var t, l := Claim(s, p).store, Claim(s, p).result.value;
      && t == s.(claims := t.claims)
      && l.packetId == p.id && l.scope == p.body.scope && |l.scopeVersions| == |p.body.scope|
      && (forall i :: 0 <= i < |p.body.scope| ==>
            l.scopeVersions[i] == (p.body.scope[i], CurrentVersion(t.claims, p.body.scope[i])))
      && l.leaseId == Of(LeaseKey(p.id, l.scopeVersions))
      && t.claims.packets == s.claims.packets[p.id := p]
      && t.claims.leases == s.claims.leases[p.id := l]
      && t.claims.active == s.claims.active[l.leaseId := l]
      && (forall x :: CurrentVersion(t.claims, x)
                      == CurrentVersion(s.claims, x) + if x in p.body.scope then 1 else 0)
  {
    hide ValidatePacket;
    SnapshotIffCurrent(s.claims, p.body);
  }

  // ---------------------------------------------------------------- whole runs

  /** A registered mission is only ever replaced by a newer revision. */
  lemma MissionStays(s: Store, c: Call, id: string)
    requires id in s.truth.missions
    ensures id in Apply(s, c).truth.missions
    ensures Apply(s, c).truth.missions[id] == s.truth.missions[id]
            || Apply(s, c).truth.missions[id].revision > s.truth.missions[id].revision
  {
    if TouchesTruth(c) {
      hide FindRoute, SameKeys, ReadbackOf, VerificationFor;
    } else {
      hide Apply;
      ApplyFrame(s, c);
    }
  }

  /** One mission revision is one mission, at any two moments of a run. */
  lemma {:induction false} RevisionIsOneMission(h: seq<Store>, calls: seq<Call>, i: nat, j: nat,
                                                id: string)
    requires IsHistory(h, calls) && i <= j <= |calls| && id in h[i].truth.missions
    ensures id in h[j].truth.missions
    ensures h[j].truth.missions[id].revision >= h[i].truth.missions[id].revision
    ensures h[j].truth.missions[id].revision == h[i].truth.missions[id].revision ==>
              h[j].truth.missions[id] == h[i].truth.missions[id]
    decreases j
  {
    hide Apply, WellFormed;
    if i < j {
      RevisionIsOneMission(h, calls, i, j - 1, id);
      MissionStays(h[j - 1], calls[j - 1], id);
    }
  }

  lemma ClaimedByClaim(s: Store, c: Call, pid: PacketId)
    requires Inv(s) && pid in Apply(s, c).claims.packets && pid !in s.claims.packets
    ensures c.DoClaim? && c.packet.id == pid && Claim(s, c.packet).result.Ok?
    ensures Apply(s, c).claims.packets[pid] == c.packet
  {
    hide Inv, ValidatePacket, Issue;
    if c.DoClaim? {
      IssueAdds(s.claims, c.packet);
    } else {
      PacketsOnlyByClaim(s, c);
    }
  }

  lemma IssueAdds(c: ClaimLedger, p: TaskPacket)
    ensures Issue(c, p).packets == c.packets[p.id := p]
  {
  }

  lemma PacketsOnlyByClaim(s: Store, c: Call)
    requires !c.DoClaim?
    ensures Apply(s, c).claims.packets == s.claims.packets
  {
    hide HasUnsettledStep, HoldsLease, RecordExecutionFailure, AddReceipt, Claim;
    if TouchesReceipts(c) {
      if c.DoResult? { FailureKeepsClaims(s, c.packet, c.lease, c.outcome); }
    } else {
      hide Apply;
      ApplyFrame(s, c);
    }
  }

  lemma FailureKeepsClaims(s: Store, p: TaskPacket, l: Lease, r: ExecutionResult)
    ensures forall code, e, seen, origin ::
              RecordExecutionFailure(s, p, l, code, e, seen, origin).store.claims == s.claims
  {
    hide HoldsLease, EvidenceText, FailureCodeAllowed;
  }

  lemma PacketStays(s: Store, c: Call, pid: PacketId)
    requires Inv(s) && WellFormed(c) && pid in s.claims.packets
    ensures pid in Apply(s, c).claims.packets
    ensures Apply(s, c).claims.packets[pid] == s.claims.packets[pid]
  {
    hide Inv, Apply, WellFormed;
    ApplyGrows(s, c);
  }

  /** The moment a packet was claimed: it was acceptable then. */
  lemma {:induction false} ClaimMoment(h: seq<Store>, calls: seq<Call>, n: nat, pid: PacketId)
    returns (i: nat)
    requires IsHistory(h, calls) && n <= |calls| && pid in h[n].claims.packets
    ensures i < n && calls[i] == DoClaim(h[n].claims.packets[pid]) && pid !in h[i].claims.packets
    ensures h[n].claims.packets[pid].id == pid && Acceptable(h[i].truth, h[n].claims.packets[pid])
  {
    hide Apply, WellFormed, Inv, Acceptable, Claim;
    HistoryKeepsInv(h, calls, n - 1);
    if pid in h[n - 1].claims.packets {
      i := ClaimMoment(h, calls, n - 1, pid);
      PacketStays(h[n - 1], calls[n - 1], pid);
    } else {
      i := n - 1;
      ClaimedByClaim(h[i], calls[i], pid);
      ClaimAnsweredIff(h[i], calls[i].packet);
    }
  }

  /** Every claimed packet carries its mission exactly as it is registered at the packet's revision,
      at whatever moment of the run one looks it up: destination, mode, and a route with the packet's
      executor, scope, delta, abandon clause and budget. */
  lemma ClaimedPacketsAreRegistered(h: seq<Store>, calls: seq<Call>, n: nat, j: nat, pid: PacketId)
    requires IsHistory(h, calls) && n <= |calls| && j <= |calls| && pid in h[n].claims.packets
    ensures var b := h[n].claims.packets[pid].body;
      && (Registered(h[j].truth, b) ==> CarriesMission(b, h[j].truth.missions[b.missionId]))
      && exists i: nat :: i < n && Registered(h[i].truth, b)
  {
    hide Apply, WellFormed, CarriesMission;
    var i := ClaimMoment(h, calls, n, pid);
    var b := h[n].claims.packets[pid].body;
    assert Registered(h[i].truth, b);
    if Registered(h[j].truth, b) {
      RevisionIsOneMission(h, calls, if i < j then i else j, if i < j then j else i, b.missionId);
    }
  }

  /** Every continuation is addressed to the destination its packet's mission names. */
  lemma CallbacksGoToTheMission(h: seq<Store>, calls: seq<Call>, n: nat, j: nat, id: ContinuationId)
    requires IsHistory(h, calls) && n <= |calls| && j <= |calls|
    requires id in h[n].callbacks.continuations
    ensures var c := h[n].callbacks.continuations[id];
      && c.receiptId in h[n].work.receipts
      && var pid := h[n].work.receipts[c.receiptId].body.packetId;
      && pid in h[n].claims.packets
      && c.destination == h[n].claims.packets[pid].body.destination
      && (Registered(h[j].truth, h[n].claims.packets[pid].body) ==>
            c.destination == h[j].truth.missions[h[n].claims.packets[pid].body.missionId].destination)
  {
    hide Apply, WellFormed, Inv, TruthInv, ClaimsInv, WorkInv, StepsInv, RecoveryInv,
         RecoveryStepsInv, PacketsHaveMissions;
    HistoryKeepsInv(h, calls, n);
    InvParts(h[n]);
    assert ContinuationFits(h[n].claims, h[n].work, h[n].callbacks, id);
    var pid := h[n].work.receipts[h[n].callbacks.continuations[id].receiptId].body.packetId;
    ClaimedPacketsAreRegistered(h, calls, n, j, pid);
  }
}
