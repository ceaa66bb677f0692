/** What a plan is, field by field, and when there is none. */
module PlanLaws {
  import opened Records
  import opened StoreSpec
  import opened StoreInvariant
  import opened StoreSafety
  import opened Frames
  import opened Planning
  import opened LedgerLaws
  import opened RouteLaws

  /** The route serves the predicate and nobody has disposed of it. */
  predicate Usable(t: MissionLedger, m: Mission, key: string, r: Route) {
    && r in m.routes && r.predicateKey == key && (m.missionId, m.revision, r.routeId) !in t.dispositions
  }

  /** Of the usable routes none has a smaller rank, or the same rank and an earlier id. */
  ghost predicate Foremost(t: MissionLedger, m: Mission, key: string, r: Route) {
    && Usable(t, m, key, r)
    && forall x :: Usable(t, m, key, x) ==>
         r.rank < x.rank || (r.rank == x.rank && !TextLess(x.routeId, r.routeId))
  }

  predicate AllHold(t: MissionLedger, m: Mission) {
    forall i: nat :: i < |m.predicates| ==> TruthAt(t, m, i) == Satisfied
  }

  /** The plan asks for the mission's first false predicate by the foremost usable route, repeats that
      route and the mission, and lists its scope at the current versions. */
  ghost predicate PlansFirst(t: Store, m: Mission, context: Option<ContextBinding>, p: TaskPacket) {
    && p.id == Of(p.body) && p.body.context == context && VersionsAreCurrent(t.claims, p.body)
    && CarriesMission(p.body, m)
    && (exists k: nat :: FirstFalseAt(t.truth, m, k) && m.predicates[k].key == p.body.predicateKey)
    && exists r :: Foremost(t.truth, m, p.body.predicateKey, r) && CarriesRoute(p.body, r)
  }

  lemma LeastIsForemost(t: MissionLedger, m: Mission, key: string)
    requires EligibleRoutes(t, m, key, m.routes) != []
    ensures Foremost(t, m, key, Least(EligibleRoutes(t, m, key, m.routes)))
  {
    var routes := EligibleRoutes(t, m, key, m.routes);
    forall x | Usable(t, m, key, x)
      ensures Least(routes).rank < x.rank
              || (Least(routes).rank == x.rank && !TextLess(x.routeId, Least(routes).routeId))
    {
      assert Eligible(t, m, key, x) && x in routes;
      LeastIsLeast(routes, x);
    }
  }

  lemma UsableIffEligible(t: MissionLedger, m: Mission, key: string)
    ensures EligibleRoutes(t, m, key, m.routes) == [] <==> forall x :: !Usable(t, m, key, x)
  {
    var routes := EligibleRoutes(t, m, key, m.routes);
    forall x ensures Usable(t, m, key, x) <==> x in routes {
      assert Usable(t, m, key, x) <==> x in m.routes && Eligible(t, m, key, x);
    }
    if routes != [] { assert Usable(t, m, key, routes[0]); }
  }

  lemma PacketCarries(t: Store, m: Mission, key: string, r: Route, context: Option<ContextBinding>)
    requires r in m.routes && r.predicateKey == key
    ensures var p := PacketFor(t, m, key, r, context);
      && p.id == Of(p.body) && p.body.context == context && p.body.predicateKey == key
      && VersionsAreCurrent(t.claims, p.body) && CarriesRoute(p.body, r) && CarriesMission(p.body, m)
  {
    var p := PacketFor(t, m, key, r, context);
    assert CarriesRoute(p.body, r);
  }

  /** What each answer of `plan` means; it leaves the mission registered and nothing else changed. */
  lemma PlanAnsweredIff(s: Store, m: Mission, context: Option<ContextBinding>)
    requires Inv(s) && MissionWellFormed(m)
    ensures var o := Plan(s, m, context);
            var t := o.store;
      && t == RegisterMission(s, m).store
      && (o.result.Ok? ==> PlansFirst(t, m, context, o.result.value))
      && (o.result.Rejected? && o.result.code == StaleIdentity <==> !RegisterMission(s, m).result.Ok?)
      && (RegisterMission(s, m).result.Ok? ==>
            && (o.result.Rejected? && o.result.code == MissionReadbackIndeterminate
                <==> SomeIndeterminate(t.truth, m))
            && (o.result.Rejected? && o.result.code == MissionIsComplete <==> AllHold(t.truth, m))
            && (o.result.Rejected? && o.result.code == NoRoute <==>
                  exists k: nat :: FirstFalseAt(t.truth, m, k)
                    && forall r :: !Usable(t.truth, m, m.predicates[k].key, r)))
      && !o.result.Raised?
  {
    hide Inv, MissionWellFormed, FirstFalse, EligibleRoutes, Least, PacketFor, TruthInv, Usable,
         FirstFalseAt, SomeIndeterminate, Foremost, ClaimsInv, WorkInv, StepsInv, RecoveryInv,
         RecoveryStepsInv, CallbacksInv, PacketsHaveMissions, CarriesMission, CarriesRoute,
         VersionsAreCurrent;
    var t := RegisterMission(s, m).store;
    RegisterKeepsInv(s, m);
    InvParts(t);
    if RegisterMission(s, m).result.Ok? {
      ScanIsExact(t.truth, m);
      OneFirstFalse(t.truth, m);
      var scan := FirstFalse(t.truth, m);
      if scan.Ok? && scan.value.Some? {
        var key := scan.value.value.key;
        UsableIffEligible(t.truth, m, key);
        var routes := EligibleRoutes(t.truth, m, key, m.routes);
        if routes != [] {
          LeastIsForemost(t.truth, m, key);
          ForemostIsUsable(t.truth, m, key, Least(routes));
          PacketCarries(t, m, key, Least(routes), context);
        }
      }
    }
  }

  lemma ForemostIsUsable(t: MissionLedger, m: Mission, key: string, r: Route)
    requires Foremost(t, m, key, r)
    ensures r in m.routes && r.predicateKey == key
  {
  }

  lemma OneFirstFalse(t: MissionLedger, m: Mission)
    ensures forall j: nat, k: nat :: FirstFalseAt(t, m, j) && FirstFalseAt(t, m, k) ==> j == k
    ensures forall k: nat :: FirstFalseAt(t, m, k) ==>
              k < |m.predicates| && !SomeIndeterminate(t, m) && !AllHold(t, m)
    ensures AllHold(t, m) ==> !SomeIndeterminate(t, m)
  {
  }
}
