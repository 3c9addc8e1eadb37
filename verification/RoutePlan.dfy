/** Binding a frozen legacy plan as a whole (`bind_plan`), and exactly when that is atomic. */
module RoutePlan {
  import opened Wrappers
  import opened OrderedDict
  import opened Routes
  import opened Snapshot

  datatype PlannedRoute = PlannedRoute(session: string, target: Target, channel: int)

  /** The bind that one plan entry asks for; a direct chat's wire id is not known from the plan. */
  function PlanRequest(robot: string, p: PlannedRoute): Request {
    Request(robot, p.session, p.target, p.channel, None, p.target.chatType != Dm)
  }

  /** How a plan ends: all bound, refused by a conflict or for lack of room, or stopped by a ValueError. */
  datatype Followed = Followed(routes: Routes, dirtied: bool) | Refused | Invalid(routes: Routes, dirtied: bool)

  function FollowPlan(s: Routes, robot: string, plan: seq<PlannedRoute>, dirtied: bool): Followed
    decreases |plan|
  {
    if plan == [] then Followed(s, dirtied) else
    var q := PlanRequest(robot, plan[0]);
    if !q.Valid() then Invalid(s, dirtied) else
    var c := Claim(s, q);
    if c.result in {Conflict, Capacity} then Refused
    else FollowPlan(c.routes, robot, plan[1..], dirtied || c.dirtied)
  }

  predicate ValidPlan(robot: string, plan: seq<PlannedRoute>) {
    forall p <- plan :: PlanRequest(robot, p).Valid()
  }

  /** Every owner `a` knows is the same in `b`. */
  ghost predicate OwnersKept(a: Routes, b: Routes) {
    forall t <- a.targets.items :: t in b.targets.items && b.targets.items[t] == a.targets.items[t]
  }

  ghost predicate OwnsAll(s: Routes, robot: string, plan: seq<PlannedRoute>) {
    forall p <- plan :: p.target in s.targets.items && s.targets.items[p.target] == robot
  }

  lemma OwnsOneMore(f: Followed, next: Routes, robot: string, plan: seq<PlannedRoute>)
    requires plan != [] && f.Followed? && OwnersKept(next, f.routes) && OwnsAll(f.routes, robot, plan[1..])
    requires plan[0].target in next.targets.items && next.targets.items[plan[0].target] == robot
    ensures OwnsAll(f.routes, robot, plan)
  {
    assert plan == [plan[0]] + plan[1..];
  }

  /**
   A plan that is followed leaves the robot owning every planned target; however it ends, the
   binds made kept the invariant and every earlier owner.
   */
  lemma {:induction false} PlanOutcome(s: Routes, robot: string, plan: seq<PlannedRoute>, dirtied: bool)
    requires Inv(s)
    ensures var f := FollowPlan(s, robot, plan, dirtied);
      && (f.Followed? ==> Inv(f.routes) && OwnersKept(s, f.routes) && OwnsAll(f.routes, robot, plan))
      && (f.Invalid? ==> Inv(f.routes) && OwnersKept(s, f.routes) && !ValidPlan(robot, plan))
    decreases |plan|
  {
    if plan != [] {
      var q := PlanRequest(robot, plan[0]);
      assert plan[0] in plan;
      if q.Valid() {
        var c := Claim(s, q);
        BindInv(s, q);
        BindKeepsOwners(s, q);
        if c.result !in {Conflict, Capacity} {
          BindSucceeds(s, q);
          PlanOutcome(c.routes, robot, plan[1..], dirtied || c.dirtied);
          if FollowPlan(s, robot, plan, dirtied).Followed? {
            OwnsOneMore(FollowPlan(s, robot, plan, dirtied), c.routes, robot, plan);
          }
        }
      }
    }
  }

  /** A valid plan never ends in a ValueError. */
  lemma {:induction false} ValidPlanDecides(s: Routes, robot: string, plan: seq<PlannedRoute>, dirtied: bool)
    requires ValidPlan(robot, plan)
    ensures !FollowPlan(s, robot, plan, dirtied).Invalid?
    decreases |plan|
  {
    if plan != [] {
      assert plan[0] in plan;
      var c := Claim(s, PlanRequest(robot, plan[0]));
      ValidPlanDecides(c.routes, robot, plan[1..], dirtied || c.dirtied);
    }
  }

  // ---- when is it all or nothing? ----

  /** What bind_plan leaves in memory: a refusal puts back what a snapshot taken before restores. */
  function PlanLeaves(s: Routes, robot: string, plan: seq<PlannedRoute>): Routes
    requires Inv(s)
  {
    match FollowPlan(s, robot, plan, false)
    case Followed(r, _) => r
    case Refused => Restore(BodyOf(s))
    case Invalid(r, _) => r
  }

  ghost predicate SameRoutes(a: Routes, b: Routes) {
    SameButLinks(a, b) && SameLinks(a, b)
  }

  /** Everything is bound, or everything is as before. */
  ghost predicate AllOrNothing(s: Routes, robot: string, plan: seq<PlannedRoute>)
    requires Inv(s)
  {
    FollowPlan(s, robot, plan, false).Followed? || SameRoutes(PlanLeaves(s, robot, plan), s)
  }

  /**
   A refused plan gives back owners, order, wire ids, channels and conflicts always, and the links
   if and only if no session was linked to two targets.
   */
  lemma RefusalUndoes(s: Routes, robot: string, plan: seq<PlannedRoute>)
    requires Inv(s) && FollowPlan(s, robot, plan, false).Refused?
    ensures SameButLinks(PlanLeaves(s, robot, plan), s)
    ensures SameLinks(PlanLeaves(s, robot, plan), s) <==> SingleLinks(s)
  {
    RoundTrip(s);
    LinksSurviveIffSingle(s);
  }

  /** On one registry, a plan of valid entries is all or nothing if and only if it goes through or no session is linked twice. */
  lemma ValidPlanAtomicIff(s: Routes, robot: string, plan: seq<PlannedRoute>)
    requires Inv(s) && ValidPlan(robot, plan)
    ensures AllOrNothing(s, robot, plan) <==> FollowPlan(s, robot, plan, false).Followed? || SingleLinks(s)
  {
    ValidPlanDecides(s, robot, plan, false);
    if FollowPlan(s, robot, plan, false).Refused? {
      RefusalUndoes(s, robot, plan);
    }
  }

  /** Every bound thing belongs to the robot, nothing conflicts, and at most `n` targets are bound. */
  ghost predicate Sole(s: Routes, robot: string, n: nat) {
    && Inv(s) && |s.targets.keys| <= n
    && s.sessionConflicts == {} && s.targetConflicts == {}
    && (forall k <- s.sessions.items :: s.sessions.items[k] == robot)
    && (forall t <- s.targets.items :: s.targets.items[t] == robot)
    && forall t <- s.wires :: s.wires[t] == t.chatId
  }

  lemma SoleClaims(s: Routes, robot: string, p: PlannedRoute, n: nat)
    requires Sole(s, robot, n) && n < MAX_ROUTES && PlanRequest(robot, p).Valid()
    ensures Sole(ClaimTarget(s, PlanRequest(robot, p)), robot, n + 1)
    ensures p.target in ClaimTarget(s, PlanRequest(robot, p)).targets.items
  {
    ClaimTargetInv(s, PlanRequest(robot, p));
  }

  lemma SoleLinks(s: Routes, q: Request, n: nat)
    requires Sole(s, q.robot, n) && q.Valid() && q.session != "" && q.target in s.targets.items
    ensures Sole(LinkSession(s, q), q.robot, n) && LinkSession(s, q).targets == s.targets
  {
    LinkSessionInv(s, q);
    EvictWhileFullInv(s);
    SessionsOnlyEvicted(s);
  }

  lemma SoleNoClash(s: Routes, robot: string, p: PlannedRoute, n: nat)
    requires Sole(s, robot, n) && n < MAX_ROUTES && PlanRequest(robot, p).Valid()
    ensures var q := PlanRequest(robot, p); var c := Claim(s, q); var t := ClaimTarget(s, q);
      || (c.result == Idempotent && c.routes == s && p.target in s.targets.items)
      || (c.result == Bound && (c.routes == t || (p.session != "" && c.routes == LinkSession(t, q))))
  {
  }

  lemma SoleBinds(s: Routes, robot: string, p: PlannedRoute, n: nat)
    requires Sole(s, robot, n) && n < MAX_ROUTES && PlanRequest(robot, p).Valid()
    ensures var c := Claim(s, PlanRequest(robot, p));
      c.result in {Bound, Idempotent} && Sole(c.routes, robot, n + 1) && p.target in c.routes.targets.items
  {
    SoleNoClash(s, robot, p, n);
    SoleClaims(s, robot, p, n);
    if p.session != "" {
      SoleLinks(ClaimTarget(s, PlanRequest(robot, p)), PlanRequest(robot, p), n + 1);
    }
  }

  /** On an empty registry a plan goes through up to its first invalid entry. */
  lemma {:induction false} SoleFollows(s: Routes, robot: string, plan: seq<PlannedRoute>, n: nat, dirtied: bool)
    requires Sole(s, robot, n) && n + |plan| <= MAX_ROUTES
    ensures var f := FollowPlan(s, robot, plan, dirtied);
      if ValidPlan(robot, plan) then f.Followed?
      else f.Invalid? && OwnersKept(s, f.routes)
    decreases |plan|
  {
    if plan != [] {
      var q := PlanRequest(robot, plan[0]);
      assert plan[0] in plan && plan == [plan[0]] + plan[1..];
      if q.Valid() {
        SoleBinds(s, robot, plan[0], n);
        BindKeepsOwners(s, q);
        var c := Claim(s, q);
        SoleFollows(c.routes, robot, plan[1..], n + 1, dirtied || c.dirtied);
      }
    }
  }

  /** An invalid entry behind a valid one leaves the valid one bound on an empty registry. */
  lemma HalfBound(robot: string, plan: seq<PlannedRoute>)
    requires |plan| <= MAX_ROUTES && plan != [] && PlanRequest(robot, plan[0]).Valid() && !ValidPlan(robot, plan)
    ensures Inv(NoRoutes()) && !AllOrNothing(NoRoutes(), robot, plan)
  {
    NoRoutesInv();
    var c := Claim(NoRoutes(), PlanRequest(robot, plan[0]));
    SoleBinds(NoRoutes(), robot, plan[0], 0);
    assert plan == [plan[0]] + plan[1..];
    SoleFollows(c.routes, robot, plan[1..], 1, c.dirtied);
    assert FollowPlan(NoRoutes(), robot, plan, false) == FollowPlan(c.routes, robot, plan[1..], c.dirtied);
    assert plan[0].target in PlanLeaves(NoRoutes(), robot, plan).targets.items;
  }

  /**
   Binding a plan is all or nothing on every registry without double links if and only if its
   entries are all valid, or already the first one is not, or there is none.
   */
  lemma AtomicIff(robot: string, plan: seq<PlannedRoute>)
    requires |plan| <= MAX_ROUTES
    ensures (forall s :: Inv(s) && SingleLinks(s) ==> AllOrNothing(s, robot, plan)) <==>
      (plan == [] || !PlanRequest(robot, plan[0]).Valid() || ValidPlan(robot, plan))
  {
    if ValidPlan(robot, plan) {
      forall s | Inv(s) && SingleLinks(s) ensures AllOrNothing(s, robot, plan) {
        ValidPlanAtomicIff(s, robot, plan);
      }
    } else if PlanRequest(robot, plan[0]).Valid() {
      HalfBound(robot, plan);
      assert SingleLinks(NoRoutes());
    } else {
      forall s | Inv(s) ensures AllOrNothing(s, robot, plan) {
        assert FollowPlan(s, robot, plan, false) == Invalid(s, false);
      }
    }
  }

  // ---- double links ----

  /** A robot and a direct chat other than those given. */
  function OtherRobot(robot: string): (r: string)
    ensures r != robot && ValidRobot(r)
  {
    assert ValidRobot("x") && ValidRobot("y");
    if robot == "x" then "y" else "x"
  }

  function OtherTarget(t: Target): (r: Target)
    ensures r != t && r.chatId != "" && r.chatType == Dm
  {
    if t == Target(Dm, "x") then Target(Dm, "y") else Target(Dm, "x")
  }

  /** The registry after two binds of one session by one robot, to `t` and then to another target. */
  function BoundTwice(robot: string, p: PlannedRoute): Routes {
    var first := Claim(NoRoutes(), PlanRequest(robot, PlannedRoute("k", p.target, p.channel)));
    Claim(first.routes, PlanRequest(robot, PlannedRoute("k", OtherTarget(p.target), 1))).routes
  }

  /** Two binds are enough for a session with two targets. */
  lemma BoundTwiceIsDouble(robot: string, p: PlannedRoute)
    requires PlanRequest(robot, p).Valid()
    ensures var s := BoundTwice(robot, p);
      && Inv(s) && !SingleLinks(s) && p.target in s.targets.items && s.targets.items[p.target] == robot
  {
    var p1, p2 := PlannedRoute("k", p.target, p.channel), PlannedRoute("k", OtherTarget(p.target), 1);
    var s1 := Claim(NoRoutes(), PlanRequest(robot, p1)).routes;
    NoRoutesInv();
    BindInv(NoRoutes(), PlanRequest(robot, p1));
    BindInv(s1, PlanRequest(robot, p2));
    FirstLink(robot, p1);
    SecondLink(s1, robot, p.target, p2);
  }

  /** One robot holds everything, nothing conflicts, and session k is linked to `t`. */
  ghost predicate LinkedOnce(s: Routes, robot: string, t: Target) {
    && |s.targets.keys| <= 1 && |s.sessions.keys| <= 1 && s.sessionConflicts == {} && s.targetConflicts == {}
    && Linked(s, t, "k") && t in s.targets.items && s.targets.items[t] == robot
    && "k" in s.sessions.items && s.sessions.items["k"] == robot && s.targets.items.Keys == {t} && s.wires.Keys <= {t}
  }

  lemma FirstLink(robot: string, p: PlannedRoute)
    requires PlanRequest(robot, p).Valid() && p.session == "k"
    ensures LinkedOnce(Claim(NoRoutes(), PlanRequest(robot, p)).routes, robot, p.target)
  {
    assert Claim(NoRoutes(), PlanRequest(robot, p)).result == Bound;
  }

  lemma SecondLink(s: Routes, robot: string, t: Target, p: PlannedRoute)
    requires LinkedOnce(s, robot, t) && PlanRequest(robot, p).Valid() && p.session == "k" && p.target != t
    ensures var s2 := Claim(s, PlanRequest(robot, p)).routes;
      Linked(s2, t, "k") && Linked(s2, p.target, "k") && t in s2.targets.items && s2.targets.items[t] == robot
  {
    assert Claim(s, PlanRequest(robot, p)).result == Bound;
  }

  /**
   On all registries, double links included, only the plans that bind nothing at all are all or
   nothing: any other is refused by a registry that two binds make, and loses it a link.
   */
  lemma AtomicOnAllIff(robot: string, plan: seq<PlannedRoute>)
    ensures (forall s :: Inv(s) ==> AllOrNothing(s, robot, plan)) <==> (plan == [] || !PlanRequest(robot, plan[0]).Valid())
  {
    if plan != [] && PlanRequest(robot, plan[0]).Valid() {
      var other := OtherRobot(robot);
      assert PlanRequest(other, plan[0]).Valid();
      BoundTwiceIsDouble(other, plan[0]);
      var s := BoundTwice(other, plan[0]);
      assert FollowPlan(s, robot, plan, false) == Refused;
      RefusalUndoes(s, robot, plan);
      assert !AllOrNothing(s, robot, plan);
    } else {
      forall s | Inv(s) ensures AllOrNothing(s, robot, plan) {
        assert plan != [] ==> FollowPlan(s, robot, plan, false) == Invalid(s, false);
      }
    }
  }

  /** One plan that is left half done: the first group is bound, the second has a space in its id. */
  lemma HalfBoundPlan()
    ensures var plan := [PlannedRoute("s1", Target(Group, "g1"), 2), PlannedRoute("s2", Target(Group, "g 2"), 2)];
      var f := FollowPlan(NoRoutes(), "bot", plan, false);
      f.Invalid? && Target(Group, "g1") in f.routes.targets.items
  {
    var plan := [PlannedRoute("s1", Target(Group, "g1"), 2), PlannedRoute("s2", Target(Group, "g 2"), 2)];
    var q := PlanRequest("bot", plan[0]);
    assert ValidRobot("bot") && ValidWire("g1");
    var c := Claim(NoRoutes(), q);
    assert c.result == Bound;
    assert "g 2"[1] == ' ' && ' ' in "g 2";
    assert !PlanRequest("bot", plan[1]).Valid();
    assert plan[1..][0] == plan[1];
  }
}
