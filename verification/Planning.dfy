/** `CollaborationHarness.plan`, and why a fresh plan is never stale. */
module Planning {
  import opened Records
  import opened StoreSpec
  import opened StoreInvariant
  import opened StoreSafety
  import opened Frames
  import opened MissionTruth
  import opened Histories

  // ---------------------------------------------------------------- route selection

  /** The sort key of routes: rank first, then route id. */
  predicate Before(a: Route, b: Route) {
    a.rank < b.rank || (a.rank == b.rank && TextLess(a.routeId, b.routeId))
  }

  predicate Eligible(t: MissionLedger, m: Mission, key: string, r: Route) {
    r.predicateKey == key && (m.missionId, m.revision, r.routeId) !in t.dispositions
  }

  /** The routes of `routes` a plan for predicate `key` may use, in declaration order. */
  function EligibleRoutes(t: MissionLedger, m: Mission, key: string, routes: seq<Route>):
    (r: seq<Route>)
    ensures forall x :: x in r <==> x in routes && Eligible(t, m, key, x)
  {
    if |routes| == 0 then []
    else (if Eligible(t, m, key, routes[0]) then [routes[0]] else [])
         + EligibleRoutes(t, m, key, routes[1..])
  }

  /** The head of the routes sorted by their key. */
  function Least(routes: seq<Route>): (r: Route)
    requires |routes| > 0
    ensures r in routes
  {
    if |routes| == 1 then routes[0]
    else
      var best := Least(routes[1..]);
      if Before(best, routes[0]) then best else routes[0]
  }

  lemma {:induction false} LeastIsLeast(routes: seq<Route>, r: Route)
    requires |routes| > 0 && r in routes
    ensures !Before(r, Least(routes))
  {
    TextLessIsStrictOrder(r.routeId, r.routeId, r.routeId);
    if |routes| > 1 {
      var best := Least(routes[1..]);
      TextLessIsStrictOrder(best.routeId, routes[0].routeId, best.routeId);
      TextLessIsStrictOrder(r.routeId, routes[0].routeId, best.routeId);
      TextLessIsStrictOrder(best.routeId, r.routeId, routes[0].routeId);
      TextLessIsStrictOrder(r.routeId, best.routeId, routes[0].routeId);
      if r in routes[1..] { LeastIsLeast(routes[1..], r); }
    }
  }

  // ---------------------------------------------------------------- plan

  function PacketFor(s: Store, m: Mission, key: string, r: Route, context: Option<ContextBinding>):
    TaskPacket
  {
    Seal(PacketBody(m.missionId, m.revision, m.mode, key, r.routeId, r.executorId, r.scope,
                    ScopeSnapshot(s.claims.versions, r.scope), r.expectedDelta, r.abandonIf,
                    r.recoveryBudget, m.destination, context))
  }

  function Plan(s: Store, m: Mission, context: Option<ContextBinding>): (o: Outcome<TaskPacket>) {
    var registered := RegisterMission(s, m);
    var t := registered.store;
    var scan := FirstFalse(t.truth, m);
    if !registered.result.Ok? then Outcome(t, Fail(registered.result))
    else if !scan.Ok? then Outcome(t, Fail(scan))
    else if scan.value.None? then Outcome(t, Rejected(MissionIsComplete, AllSatisfied))
    else
      var key := scan.value.value.key;
      var routes := EligibleRoutes(t.truth, m, key, m.routes);
      if routes == [] then Outcome(t, Rejected(NoRoute, NoRouteLeft))
      else Outcome(t, Ok(PacketFor(t, m, key, Least(routes), context)))
  }

  lemma PlanRegisters(s: Store, m: Mission, context: Option<ContextBinding>)
    requires Plan(s, m, context).result.Ok?
    ensures var t := Plan(s, m, context).store;
      && t == Apply(s, DoRegister(m)) && m.missionId in t.truth.missions
      && t.truth.missions[m.missionId] == m
  {
    hide FirstFalse, EligibleRoutes, Least, PacketFor;
  }

  /** The plan targets `q`, the first false predicate, through `r`, its least open route. */
  ghost predicate Picks(t: Store, m: Mission, context: Option<ContextBinding>, p: TaskPacket,
                        q: ExitPredicate, r: Route) {
    && FirstFalse(t.truth, m) == Ok(Some(q)) && r in m.routes && Eligible(t.truth, m, q.key, r)
    && p == PacketFor(t, m, q.key, r, context)
    && EligibleRoutes(t.truth, m, q.key, m.routes) != []
    && r == Least(EligibleRoutes(t.truth, m, q.key, m.routes))
  }

  /** What a plan picks, with the state it leaves. */
  lemma PlanShape(s: Store, m: Mission, context: Option<ContextBinding>)
    requires Plan(s, m, context).result.Ok?
    ensures exists q, r :: Picks(Plan(s, m, context).store, m, context,
                                 Plan(s, m, context).result.value, q, r)
  {
    hide FirstFalse, PacketFor, Eligible;
    var t := Plan(s, m, context).store;
    var q := FirstFalse(t.truth, m).value.value;
    var r := Least(EligibleRoutes(t.truth, m, q.key, m.routes));
    assert Picks(t, m, context, Plan(s, m, context).result.value, q, r);
  }

  /** The route of a plan is the least by rank and route id among the routes of the first false
      predicate that have no disposition. */
  lemma PlanTakesLeastRoute(s: Store, m: Mission, context: Option<ContextBinding>, other: Route)
    requires Plan(s, m, context).result.Ok? && MissionWellFormed(m)
    ensures var t, p := Plan(s, m, context).store, Plan(s, m, context).result.value.body;
      && FirstFalse(t.truth, m).Ok? && FirstFalse(t.truth, m).value.Some?
      && p.predicateKey == FirstFalse(t.truth, m).value.value.key
      && FindRoute(m.routes, p.routeId).Some?
      && var chosen := FindRoute(m.routes, p.routeId).value;
      && Eligible(t.truth, m, p.predicateKey, chosen)
      && (other in m.routes && Eligible(t.truth, m, p.predicateKey, other) && other != chosen ==>
            Before(chosen, other))
  {
    PlanShape(s, m, context);
    hide Plan, FirstFalse, Eligible, MissionWellFormed;
    var t, p := Plan(s, m, context).store, Plan(s, m, context).result.value;
    var q, r :| Picks(t, m, context, p, q, r);
    RouteIsFound(m, r);
    if other in m.routes && Eligible(t.truth, m, q.key, other) && other != r {
      LeastIsLeast(EligibleRoutes(t.truth, m, q.key, m.routes), other);
      RouteIsFound(m, other);
      TextLessIsStrictOrder(r.routeId, other.routeId, r.routeId);
    }
  }

  /** Route ids are unique, so looking one up finds its route. */
  lemma RouteIsFound(m: Mission, r: Route)
    requires MissionWellFormed(m) && r in m.routes
    ensures FindRoute(m.routes, r.routeId) == Some(r)
  {
  }

  // ---------------------------------------------------------------- freshness

  /** A claimed packet's versions lie strictly below the current ones. */
  lemma ClaimedVersionsArePast(c: ClaimLedger, pid: PacketId, i: nat)
    requires PacketsFit(c) && Fenced(c) && pid in c.packets && i < |c.packets[pid].body.scope|
    ensures |c.packets[pid].body.scopeVersions| == |c.packets[pid].body.scope|
    ensures c.packets[pid].body.scopeVersions[i].1
            < Version(c.versions, c.packets[pid].body.scope[i])
  {
    assert ClaimedPacket(c, pid);
    var p := c.packets[pid].body;
    assert c.leases[pid].scopeVersions[i] == (p.scope[i], p.scopeVersions[i].1 + 1);
    assert Granted(c, pid, p.scope[i], p.scopeVersions[i].1 + 1);
  }

  /** A packet whose versions are the current ones has never been claimed. */
  lemma CurrentVersionsAreUnclaimed(c: ClaimLedger, p: TaskPacket)
    requires PacketsFit(c) && Fenced(c) && p.Authentic() && |p.body.scope| > 0
    requires p.body.scopeVersions == ScopeSnapshot(c.versions, p.body.scope)
    ensures p.id !in c.leases
  {
    if p.id in c.leases {
      assert ClaimedPacket(c, p.id);
      ClaimedVersionsArePast(c, p.id, 0);
    }
  }

  lemma PlannedPacketIsValid(t: Store, m: Mission, q: ExitPredicate, r: Route,
                             context: Option<ContextBinding>)
    requires MissionWellFormed(m) && r in m.routes && Eligible(t.truth, m, q.key, r)
    requires m.missionId in t.truth.missions && t.truth.missions[m.missionId] == m
    requires FirstFalse(t.truth, m) == Ok(Some(q))
    ensures ValidatePacket(t.truth, PacketFor(t, m, q.key, r, context)) == Ok(m)
    ensures |r.scope| > 0
  {
    hide FirstFalse, MissionWellFormed, FindRoute;
    RouteIsFound(m, r);
    RouteHasScope(m, r);
  }

  lemma RouteHasScope(m: Mission, r: Route)
    requires MissionWellFormed(m) && r in m.routes
    ensures |r.scope| > 0
  {
  }

  predicate ScopeIsFree(c: ClaimLedger, scope: seq<string>) {
    forall k :: k in c.active ==> !Overlaps(scope, c.active[k].scope)
  }

  /** Claimed at once, a plan is accepted exactly when no active lease overlaps its scope, and is
      otherwise a lease conflict: never a duplicate, never a stale identity, never a CAS mismatch. */
  lemma FreshPlansAreNeverStale(h: seq<Store>, calls: seq<Call>, n: nat, m: Mission,
                                context: Option<ContextBinding>)
    requires IsHistory(h, calls) && n <= |calls| && MissionWellFormed(m)
    requires Plan(h[n], m, context).result.Ok?
    ensures var o := Plan(h[n], m, context);
            var p := o.result.value;
      Claim(o.store, p).result ==
        if ScopeIsFree(o.store.claims, p.body.scope) then Ok(LeaseFor(p))
        else Rejected(LeaseConflict, ScopeLeased)
  {
    hide WellFormed, MissionWellFormed, Plan, FirstFalse, Eligible, Inv, ValidatePacket,
         LeaseFor, Issue, ClaimsInv, Apply, TruthInv, WorkInv, StepsInv, RecoveryInv,
         CallbacksInv;
    var s := h[n];
    var o := Plan(s, m, context);
    var t, p := o.store, o.result.value;
    HistoryKeepsInv(h, calls, n);
    PlanRegisters(s, m, context);
    assert t.claims == s.claims by { ApplyFrame(s, DoRegister(m)); }
    InvParts(s);
    PlanShape(s, m, context);
    var q, r :| Picks(t, m, context, p, q, r);
    PlannedPacketIsValid(t, m, q, r, context);
    FreshIsUnclaimed(t.claims, p);
  }

  lemma FreshIsUnclaimed(c: ClaimLedger, p: TaskPacket)
    requires ClaimsInv(c) && p.Authentic() && |p.body.scope| > 0
    requires p.body.scopeVersions == ScopeSnapshot(c.versions, p.body.scope)
    ensures p.id !in c.leases
  {
    hide ActiveDisjoint, ActiveCurrent, ActiveFit;
    CurrentVersionsAreUnclaimed(c, p);
  }

  lemma ScanCode(t: MissionLedger, m: Mission)
    ensures FirstFalse(t, m).Rejected? ==> FirstFalse(t, m).code == MissionReadbackIndeterminate
  {
  }

  /** Planning ends in a packet or a `HarnessViolation`.  It refuses for want of a route exactly
      when every route of the first false predicate has a disposition. */
  lemma PlansAreTotal(h: seq<Store>, calls: seq<Call>, n: nat, m: Mission, context: Option<ContextBinding>)
    requires IsHistory(h, calls) && n <= |calls| && MissionWellFormed(m)
    ensures var o := Plan(h[n], m, context);
      && !o.result.Raised?
      && (o.result.Rejected? && o.result.code == NoRoute <==>
            && RegisterMission(h[n], m).result.Ok?
            && FirstFalse(o.store.truth, m).Ok? && FirstFalse(o.store.truth, m).value.Some?
            && forall r | r in m.routes
                 && r.predicateKey == FirstFalse(o.store.truth, m).value.value.key ::
                 (m.missionId, m.revision, r.routeId) in o.store.truth.dispositions)
  {
    hide Apply, WellFormed, MissionWellFormed, FirstFalse, Inv, TruthInv, PacketFor, Least,
         ClaimsInv, WorkInv, StepsInv, RecoveryInv, RecoveryStepsInv, CallbacksInv,
         PacketsHaveMissions;
    HistoryKeepsInv(h, calls, n);
    var s := h[n];
    RegisterKeepsInv(s, m);
    var t := RegisterMission(s, m).store;
    InvParts(t);
    if RegisterMission(s, m).result.Ok? { RegisteredScanIsTotal(t.truth, m.missionId); }
    ScanCode(t.truth, m);
    if FirstFalse(t.truth, m).Ok? && FirstFalse(t.truth, m).value.Some? {
      var key := FirstFalse(t.truth, m).value.value.key;
      var routes := EligibleRoutes(t.truth, m, key, m.routes);
      assert routes != [] ==> routes[0] in routes;
    }
  }
}
