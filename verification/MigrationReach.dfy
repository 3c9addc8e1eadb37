/** When a pending profile becomes a migrated one: never, or as soon as its writes succeed. */
module MigrationReach {
  import opened Wrappers
  import opened OrderedDict
  import opened Routes
  import SnapshotFiles
  import opened RoutePlan
  import opened Migration
  import opened MigrationRuns

  // ---- a plan that can never be bound ----

  lemma {:induction false} FollowedIsValid(s: Routes, robot: string, plan: Plan, dirtied: bool)
    requires FollowPlan(s, robot, plan, dirtied).Followed?
    ensures ValidPlan(robot, plan)
    decreases |plan|
  {
    if plan != [] {
      var c := Claim(s, PlanRequest(robot, plan[0]));
      FollowedIsValid(c.routes, robot, plan[1..], dirtied || c.dirtied);
      assert plan == [plan[0]] + plan[1..];
    }
  }

  /** Pending, with an entry in the plan on disk that bind rejects. */
  ghost predicate Stuck(s: Store) {
    s.meta.Stored? && s.meta.body.phase == Pending && s.plan.Stored? && !ValidPlan(s.meta.body.legacy, s.plan.body)
  }

  ghost predicate SameDocuments(a: Store, b: Store) {
    b.meta == a.meta && b.plan == a.plan
  }

  lemma StuckAtStart(w: World, e: Event)
    requires Good(w) && Stuck(w.store) && e.Start?
    ensures SameDocuments(w.store, Step(w, e).store)
  {
    assert Loaded(w.store).memory == Some(w.store.meta.body);
  }

  lemma StuckWhenRegistered(w: World, e: Event)
    requires Good(w) && Stuck(w.store) && w.running.Some? && e.Registered?
    ensures SameDocuments(w.store, Step(w, e).store)
  {
    var st := w.running.value;
    if st.phase == Pending && st.legacy == e.robot && FollowPlan(w.store.routes, e.robot, st.plan, w.store.dirty).Followed? {
      FollowedIsValid(w.store.routes, e.robot, st.plan, w.store.dirty);
    }
  }

  lemma StuckStep(w: World, e: Event)
    requires Good(w) && Stuck(w.store)
    ensures SameDocuments(w.store, Step(w, e).store)
  {
    if e.Start? {
      StuckAtStart(w, e);
    } else if w.running.Some? && e.Registered? {
      StuckWhenRegistered(w, e);
    } else if w.running.Some? && e.Doing? {
      DoOneKeeps(w.store, w.running.value, e.activity);
    }
  }

  /** One entry that bind rejects keeps a profile pending over every run, with all starts and all luck. */
  lemma {:induction false} StuckForever(w: World, es: seq<Event>)
    requires Good(w) && Stuck(w.store)
    ensures SameDocuments(w.store, Run(w, es).store)
    decreases |es|
  {
    if es != [] {
      StepKeeps(w, es[0]);
      StuckStep(w, es[0]);
      StuckForever(Step(w, es[0]), es[1..]);
    }
  }

  // ---- the way from nothing ----

  const PLENTY := SnapshotFiles.Luck(9, false)

  /** One start with a single token, whose identity is recorded, and then one with several. */
  function FirstStarts(robot: string, entries: seq<LegacySession>, tokens: nat, cards: bool): seq<Event> {
    [Start(1, false, [], PLENTY), Registered(robot, [], NOTHING, PLENTY), Kill, Start(tokens, cards, entries, PLENTY)]
  }

  function Documented(meta: Metadata, plan: SnapshotFiles.Document<Plan>): Store {
    FRESH.store.(meta := SnapshotFiles.Stored(meta), plan := plan, memory := Some(meta))
  }

  function SingleWorld(robot: string): World {
    World(Documented(Metadata(Single, robot, 0), SnapshotFiles.Missing), Some(Startup(Single, robot, [], true)), [], 0)
  }

  function PendingWorld(robot: string, plan: Plan): World {
    World(Documented(Metadata(Pending, robot, |plan|), SnapshotFiles.Stored(plan)), Some(Startup(Pending, robot, plan, false)), [], 0)
  }

  lemma FirstStart()
    ensures Good(FRESH) && Step(FRESH, Start(1, false, [], PLENTY)) == SingleWorld("")
  {
    NoRoutesInv();
  }

  /** The startup decision keeps the name it was made under; the document has the new one. */
  lemma FirstRegistration(robot: string)
    requires robot != ""
    ensures Proper(SingleWorld("").store)
    ensures Step(SingleWorld(""), Registered(robot, [], NOTHING, PLENTY)) == SingleWorld("").(store := SingleWorld(robot).store)
  {
    NoRoutesInv();
  }

  lemma SecondStart(robot: string, entries: seq<LegacySession>, tokens: nat, cards: bool)
    requires ValidRobot(robot) && tokens > 1 && FreezePlan(entries).Some?
    ensures Proper(SingleWorld(robot).store)
    ensures Step(SingleWorld(robot).(running := None), Start(tokens, cards, entries, PLENTY)) == PendingWorld(robot, FreezePlan(entries).value)
  {
    NoRoutesInv();
  }

  lemma OneStep(w: World, es: seq<MigrationRuns.Event>)
    requires Good(w) && es != []
    ensures Good(Step(w, es[0])) && Run(w, es) == Run(Step(w, es[0]), es[1..])
  {
    StepKeeps(w, es[0]);
  }

  lemma SingleIsReached(robot: string, es: seq<MigrationRuns.Event>)
    requires ValidRobot(robot) && |es| >= 3
    requires es[..3] == [Start(1, false, [], PLENTY), Registered(robot, [], NOTHING, PLENTY), Kill]
    ensures var w := SingleWorld(robot).(running := None); Good(FRESH) && Good(w) && Run(FRESH, es) == Run(w, es[3..])
  {
    var first, second := SingleWorld(""), SingleWorld("").(store := SingleWorld(robot).store);
    assert es[0] == es[..3][0] && es[1] == es[..3][1] && es[2] == es[..3][2];
    FirstStart();
    OneStep(FRESH, es);
    FirstRegistration(robot);
    OneStep(first, es[1..]);
    assert es[1..][1..] == es[2..];
    OneStep(second, es[2..]);
    assert es[2..][1..] == es[3..];
  }

  lemma PendingIsReached(robot: string, entries: seq<LegacySession>, tokens: nat, cards: bool)
    requires ValidRobot(robot) && tokens > 1 && FreezePlan(entries).Some?
    ensures var w := PendingWorld(robot, FreezePlan(entries).value);
      Good(FRESH) && Good(w) && Run(FRESH, FirstStarts(robot, entries, tokens, cards)) == w
  {
    var es := FirstStarts(robot, entries, tokens, cards);
    SingleIsReached(robot, es);
    SecondStart(robot, entries, tokens, cards);
    OneStep(SingleWorld(robot).(running := None), es[3..]);
    assert es[3..][1..] == [];
  }

  // ---- with enough luck ----

  lemma PlanIsBound(robot: string, plan: Plan)
    requires |plan| <= MAX_ROUTES && ValidPlan(robot, plan)
    ensures Inv(NoRoutes()) && FollowPlan(NoRoutes(), robot, plan, false).Followed?
  {
    NoRoutesInv();
    SoleFollows(NoRoutes(), robot, plan, 0, false);
  }

  lemma CommitGoesThrough(s: Store, st: Startup, robot: string, plan: Plan)
    requires Proper(s) && s.taken.None? && FollowPlan(s.routes, robot, plan, s.dirty).Followed?
    ensures var o := Commit(s, st, robot, plan, NOTHING, PLENTY);
      o.end == Finished && o.store.meta == SnapshotFiles.Stored(Metadata(Migrated, robot, |plan|)) && o.luck.left > 0 && !o.luck.crash
  {
  }

  /** The next registration of the legacy robot finishes the migration when its writes succeed. */
  lemma ValidPlanMigrates(robot: string, plan: Plan)
    requires Good(PendingWorld(robot, plan)) && |plan| <= MAX_ROUTES && ValidPlan(robot, plan)
    ensures var w := Step(PendingWorld(robot, plan), Registered(robot, [], NOTHING, PLENTY));
      && w.store.meta == SnapshotFiles.Stored(Metadata(Migrated, robot, |plan|)) && w.running == Some(Startup(Migrated, robot, [], false))
      && w.moved == plan && w.store.forgotten == []
  {
    var w := PendingWorld(robot, plan);
    PlanIsBound(robot, plan);
    CommitGoesThrough(w.store, w.running.value, robot, plan);
  }

  // ---- exactly when ----

  /** Bind accepts a frozen entry if and only if it is a direct chat or its chat id is fit for the wire. */
  predicate Bindable(p: PlannedRoute) {
    p.target.chatType == Dm || ValidWire(p.target.chatId)
  }

  lemma FrozenValidIff(robot: string, entries: seq<LegacySession>)
    requires ValidRobot(robot) && FreezePlan(entries).Some?
    ensures var plan := FreezePlan(entries).value;
      |plan| <= MAX_ROUTES && (ValidPlan(robot, plan) <==> forall p <- plan :: Bindable(p))
  {
    FrozenPlan(entries);
    forall p | p in FreezePlan(entries).value ensures PlanRequest(robot, p).Valid() <==> Bindable(p) {
      assert Readable(p);
    }
  }

  ghost predicate BecomesMigrated(w: World, more: seq<Event>)
    requires Good(w)
  {
    Run(w, more).store.meta.Stored? && Run(w, more).store.meta.body.phase == Migrated
  }

  /** One registration is enough for a plan of bindable entries. */
  lemma OneRegistrationMigrates(robot: string, plan: Plan)
    requires Good(PendingWorld(robot, plan)) && |plan| <= MAX_ROUTES && ValidPlan(robot, plan)
    ensures var w, more := PendingWorld(robot, plan), [Registered(robot, [], NOTHING, PLENTY)];
      BecomesMigrated(w, more) && OwnsAll(LoadedRoutes(Run(w, more).store.files), robot, plan)
  {
    var w, more := PendingWorld(robot, plan), [Registered(robot, [], NOTHING, PLENTY)];
    ValidPlanMigrates(robot, plan);
    OneStep(w, more);
    assert more[1..] == [];
    assert PlanBound(Run(w, more));
  }

  /**
   A profile that has just become pending can become migrated, by some run, if and only if every group
   of its plan has a chat id that is fit for the wire; then one registration of the legacy robot is
   enough, and every planned target is durably bound to it.
   */
  lemma MigratesIff(robot: string, entries: seq<LegacySession>)
    requires ValidRobot(robot) && FreezePlan(entries).Some?
    ensures var plan := FreezePlan(entries).value; var w := PendingWorld(robot, plan);
      && Good(w)
      && ((exists more :: BecomesMigrated(w, more)) <==> forall p <- plan :: Bindable(p))
      && ((forall p <- plan :: Bindable(p)) ==>
          OwnsAll(LoadedRoutes(Run(w, [Registered(robot, [], NOTHING, PLENTY)]).store.files), robot, plan))
  {
    var plan := FreezePlan(entries).value;
    PendingIsReached(robot, entries, 2, false);
    FrozenValidIff(robot, entries);
    if ValidPlan(robot, plan) {
      OneRegistrationMigrates(robot, plan);
    } else {
      forall more ensures !BecomesMigrated(PendingWorld(robot, plan), more) {
        StuckForever(PendingWorld(robot, plan), more);
      }
    }
  }

  /** A group whose chat id is a space is frozen, and keeps its profile pending for ever. */
  lemma SpaceNeverMigrates(robot: string, more: seq<MigrationRuns.Event>)
    requires ValidRobot(robot)
    ensures var entries := [LegacySession("k", Some(Group), " ")];
      && FreezePlan(entries).Some? && Good(PendingWorld(robot, FreezePlan(entries).value))
      && !BecomesMigrated(PendingWorld(robot, FreezePlan(entries).value), more)
  {
    var e := LegacySession("k", Some(Group), " ");
    var entries := [e];
    assert entries[1..] == [];
    var planned := Empty<string, PlannedRoute>().Put("k", Planned(e));
    assert Freeze(entries, Empty()) == Some(planned);
    assert Values(planned, planned.keys)[0] == Planned(e);
    assert ' ' in e.chatId;
    assert !Bindable(Planned(e));
    MigratesIff(robot, entries);
  }
}
