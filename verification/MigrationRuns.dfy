/** Whole runs of the start-up machine, over restarts, failed writes and crashes between any two writes. */
module MigrationRuns {
  import opened Wrappers
  import opened Routes
  import opened Snapshot
  import opened SnapshotFiles
  import opened RoutePlan
  import opened Migration

  /**
   What may happen: a start, the configured identity registering (with what others do between
   the steps of what this triggers), anything others do at any other time (an inbound bind, an
   operator forgetting a route, either section of a flush), the process being killed.
   */
  datatype Event =
    | Start(tokens: nat, cards: bool, entries: seq<LegacySession>, luck: Luck)
    | Registered(robot: string, legacySessions: seq<LegacySession>, others: Meanwhile, writes: Luck)
    | Doing(activity: Activity)
    | Kill

  /**
   `moved` is the plan that the metadata calling this profile migrated was written for, and
   `movedAt` how many targets had been forgotten when that migration began.
   */
  datatype World = World(store: Store, running: Option<Startup>, moved: Plan, movedAt: nat)

  const FRESH: World :=
    World(Store(Missing, Missing, Files(Missing, Missing), None, NoRoutes(), false, None, FRESH_FLAGS, []), None, [], 0)

  ghost function OnRegistered(w: World, st: Startup, e: Event): World
    requires e.Registered? && Proper(w.store)
  {
    if st.sole then
      if st.legacy != "" && st.legacy != e.robot then
        var plan := FreezePlan(e.legacySessions);
        Settle(w, Protect(w.store, st, st.legacy, e.legacySessions, e.others, e.writes), st.legacy, if plan.Some? then plan.value else [])
      else
        var r := Record(w.store, e.robot, e.writes);
        w.(store := r.store, running := if r.end == Dead then None else w.running)
    else if st.phase == Pending && st.legacy == e.robot then
      Settle(w, Apply(w.store, st, e.robot, st.plan, e.others, e.writes), e.robot, st.plan)
    else w
  }

  /** What an attempt to migrate leaves: the new start-up decision when it went through. */
  function Settle(w: World, o: Outcome, robot: string, plan: Plan): World {
    World(o.store,
          if o.end == Dead then None else if o.end == Finished then Some(Startup(Migrated, robot, [], false)) else w.running,
          if o.store.meta != w.store.meta then plan else w.moved,
          if o.store.meta != w.store.meta then |w.store.forgotten| else w.movedAt)
  }

  ghost function Step(w: World, e: Event): World
    requires Proper(w.store)
  {
    match e
    case Start(tokens, cards, entries, luck) =>
      var b := Begin(w.store, tokens, cards, entries, luck);
      w.(store := b.store, running := b.startup)
    case Kill => w.(running := None)
    case Registered(_, _, _, _) => if w.running.None? then w else OnRegistered(w, w.running.value, e)
    case Doing(a) =>
      if w.running.None? then w else
      var (s, end) := DoOne(w.store, w.running.value, a);
      w.(store := s, running := if end == Dead then None else w.running)
  }

  // ---- what holds of every reachable world ----

  ghost predicate Healthy(f: Files<Body>) {
    && !f.primary.Unusable? && !f.backup.Unusable?
    && (f.primary.Stored? ==> IsSnapshot(f.primary.body))
    && (f.backup.Stored? ==> IsSnapshot(f.backup.body))
  }

  ghost predicate IsSnapshot(b: Body) {
    exists s :: Inv(s) && b == BodyOf(s)
  }

  /** The documents agree: nothing unreadable, and a pending profile has a plan of the recorded size. */
  ghost predicate Documents(s: Store) {
    && Healthy(s.files) && !s.meta.Unusable? && !s.plan.Unusable?
    && (s.meta.Stored? && s.meta.body.phase == Pending ==>
        s.plan.Stored? && |s.plan.body| == s.meta.body.planSize && forall p <- s.plan.body :: Readable(p))
    && (s.meta.Stored? && s.meta.body.phase != Single ==> s.meta.body.legacy != "")
  }

  /** Every route a restart would load is also in memory, and in what a flush has taken. */
  ghost predicate DurableInMemory(s: Store) {
    && OwnersKept(LoadedRoutes(s.files), s.routes)
    && (s.taken.Some? ==>
        Inv(s.taken.value) && OwnersKept(LoadedRoutes(s.files), s.taken.value) && OwnersKept(s.taken.value, s.routes))
  }

  /** A running process remembers what the documents say. */
  ghost predicate Remembers(s: Store, st: Startup) {
    && s.meta.Stored? && s.memory == Some(s.meta.body) && DurableInMemory(s)
    && (if st.sole then s.meta.body.phase == Single && (st.legacy != "" ==> st.legacy == s.meta.body.legacy)
        else st.phase == s.meta.body.phase && st.legacy == s.meta.body.legacy && st.phase != Single)
    && (st.phase == Pending ==> s.plan == Stored(st.plan))
    && (st.sole ==> st.phase == Single)
  }

  /** Every planned target belongs to the robot, or is among those released. */
  ghost predicate OwnsOrReleased(s: Routes, robot: string, plan: Plan, released: seq<Target>) {
    forall p <- plan :: (p.target in s.targets.items && s.targets.items[p.target] == robot) || p.target in released
  }

  /** Once migrated, every route of the plan is durably bound to the legacy robot, or was forgotten since. */
  ghost predicate PlanBound(w: World) {
    w.store.meta.Stored? && w.store.meta.body.phase == Migrated ==>
      && w.movedAt <= |w.store.forgotten|
      && OwnsOrReleased(LoadedRoutes(w.store.files), w.store.meta.body.legacy, w.moved, w.store.forgotten[w.movedAt..])
  }

  ghost predicate Good(w: World) {
    && Documents(w.store) && Proper(w.store)
    && (w.running.Some? ==> Remembers(w.store, w.running.value))
    && PlanBound(w)
  }

  // ---- writing the snapshot ----

  lemma LoadedInv(f: Files<Body>)
    requires Healthy(f)
    ensures Inv(LoadedRoutes(f))
  {
    if Recoverable(f).Some? {
      var s :| Inv(s) && Recoverable(f).value == BodyOf(s);
      RoundTrip(s);
    }
  }

  /** A write that succeeds makes exactly the given routes durable; one that does not changes no durable route. */
  lemma WriteIsAtomic(f: Files<Body>, g: Flags, s: Routes, luck: Luck)
    requires Inv(s) && Healthy(f)
    ensures var w := WriteSnapshot(f, g, BodyOf(s), luck);
      && Healthy(w.files)
      && (w.fate == Done ==> LoadedRoutes(w.files) == Restore(BodyOf(s)) && LoadedRoutes(w.files).targets == s.targets)
      && (w.fate != Done ==> LoadedRoutes(w.files) == LoadedRoutes(f))
      && (!luck.crash ==> w.fate != Crashed)
  {
    RoundTrip(s);
    WriteRecovers(f, g, BodyOf(s), luck);
    assert IsSnapshot(BodyOf(s));
  }

  lemma WriteBodyIsAtomic(s: Store, luck: Luck)
    requires Proper(s) && Healthy(s.files) && s.taken.Some?
    ensures var f := WriteBody(s, luck);
      && Healthy(f.store.files)
      && (f.end == Finished ==> LoadedRoutes(f.store.files).targets == s.taken.value.targets)
      && (f.end != Finished ==> LoadedRoutes(f.store.files) == LoadedRoutes(s.files))
  {
    WriteIsAtomic(s.files, s.flags, s.taken.value, luck);
  }

  // ---- owners, but for what is forgotten ----

  /** Every owner `a` knows is the same in `b`, unless its target is among those released. */
  ghost predicate KeptOrReleased(a: Routes, b: Routes, released: seq<Target>) {
    forall t <- a.targets.items ::
      (t in b.targets.items && b.targets.items[t] == a.targets.items[t]) || t in released
  }

  /** From one store to a later one: what was forgotten in between, and every other durable owner. */
  ghost predicate Durably(a: Store, b: Store) {
    && a.forgotten <= b.forgotten
    && KeptOrReleased(LoadedRoutes(a.files), LoadedRoutes(b.files), b.forgotten[|a.forgotten|..])
  }

  lemma DurablyOn(a: Store, b: Store, c: Store)
    requires Durably(a, b) && Durably(b, c)
    ensures Durably(a, c)
  {
    var ab, bc, ac := b.forgotten[|a.forgotten|..], c.forgotten[|b.forgotten|..], c.forgotten[|a.forgotten|..];
    assert ac == ab + bc;
  }

  /** Owned before, or released since: so it is later. */
  lemma OwnedOn(a: Store, b: Store, at: nat, robot: string, plan: Plan)
    requires at <= |a.forgotten| && Durably(a, b)
    requires OwnsOrReleased(LoadedRoutes(a.files), robot, plan, a.forgotten[at..])
    ensures OwnsOrReleased(LoadedRoutes(b.files), robot, plan, b.forgotten[at..])
  {
    assert b.forgotten[at..] == a.forgotten[at..] + b.forgotten[|a.forgotten|..];
  }

  // ---- what others do ----

  /** Memory holds every durable owner, the files are sound, and the other documents are untouched. */
  ghost predicate Undisturbed(s: Store, b: Store) {
    && b.meta == s.meta && b.memory == s.memory && b.plan == s.plan
    && Inv(b.routes) && Healthy(b.files) && DurableInMemory(b) && Durably(s, b)
  }

  /** What is in memory stays too, unless it is forgotten. */
  ghost predicate StaysInMemory(s: Store, b: Store) {
    s.forgotten <= b.forgotten && KeptOrReleased(s.routes, b.routes, b.forgotten[|s.forgotten|..])
  }

  /** How forgetting ends: gone from memory and disk, or with both as they were. */
  ghost predicate ReleasedOrNot(s: Store, b: Store, t: Target) {
    && b == s.(files := b.files, flags := b.flags, routes := b.routes, dirty := b.dirty, forgotten := b.forgotten)
    && Inv(b.routes) && Healthy(b.files)
    && ((b.forgotten == s.forgotten + [t] && b.routes.targets.items == s.routes.targets.items - {t}
          && LoadedRoutes(b.files).targets == b.routes.targets)
        || (b.forgotten == s.forgotten && b.routes.targets == s.routes.targets
          && LoadedRoutes(b.files) == LoadedRoutes(s.files)))
  }

  lemma ForgottenAndRestored(s: Routes, owner: string, t: Target)
    requires Inv(s) && Forgettable(s, owner, t)
    ensures Inv(Forget(s, t)) && Forget(s, t).targets.items == s.targets.items - {t}
    ensures Inv(Restore(BodyOf(s))) && Restore(BodyOf(s)).targets == s.targets
  {
    ForgetInv(s, owner, t);
    RoundTrip(s);
  }

  lemma ReleaseEnds(s: Store, owner: string, t: Target, luck: Luck)
    requires Inv(s.routes) && Healthy(s.files) && Forgettable(s.routes, owner, t)
    ensures ReleasedOrNot(s, ReleaseRoute(s, owner, t, luck).0, t)
  {
    ForgottenAndRestored(s.routes, owner, t);
    WriteIsAtomic(s.files, s.flags, Forget(s.routes, t), luck);
  }

  lemma ReleasedKeeps(s: Store, b: Store, t: Target)
    requires Inv(s.routes) && Healthy(s.files) && DurableInMemory(s) && s.taken.None? && ReleasedOrNot(s, b, t)
    ensures Undisturbed(s, b) && StaysInMemory(s, b)
  {
    assert b.forgotten == s.forgotten + [t] ==> b.forgotten[|s.forgotten|..] == [t];
  }

  lemma ForgetRouteKeeps(s: Store, owner: string, t: Target, luck: Luck)
    requires Inv(s.routes) && Healthy(s.files) && DurableInMemory(s)
    ensures var (b, end) := ForgetRoute(s, owner, t, luck); Undisturbed(s, b) && StaysInMemory(s, b)
  {
    if s.taken.None? && ValidRobot(owner) && t.chatId != "" && Forgettable(s.routes, owner, t) {
      ReleaseEnds(s, owner, t, luck);
      ReleasedKeeps(s, ReleaseRoute(s, owner, t, luck).0, t);
    }
  }

  lemma BindKeeps(s: Store, st: Startup, q: Request)
    requires Inv(s.routes) && Healthy(s.files) && DurableInMemory(s)
    ensures Undisturbed(s, BindInbound(s, st, q)) && OwnersKept(s.routes, BindInbound(s, st, q).routes)
  {
    if Admitted(st, q) {
      BindInv(s.routes, q);
      BindKeepsOwners(s.routes, q);
    }
  }

  lemma TakeBodyKeeps(s: Store, force: bool)
    requires Inv(s.routes) && Healthy(s.files) && DurableInMemory(s)
    ensures Undisturbed(s, TakeBody(s, force)) && StaysInMemory(s, TakeBody(s, force))
  {
  }

  lemma WriteBodyKeeps(s: Store, luck: Luck)
    requires Inv(s.routes) && Healthy(s.files) && DurableInMemory(s)
    ensures var b := WriteBody(s, luck).store; Undisturbed(s, b) && StaysInMemory(s, b) && b.forgotten == s.forgotten
  {
    if s.taken.Some? {
      WriteBodyIsAtomic(s, luck);
    }
  }

  lemma DoOneKeeps(s: Store, st: Startup, a: Activity)
    requires Inv(s.routes) && Healthy(s.files) && DurableInMemory(s)
    ensures var (b, end) := DoOne(s, st, a); Undisturbed(s, b) && StaysInMemory(s, b)
  {
    match a
    case Binds(q) => BindKeeps(s, st, q);
    case Forgets(owner, t, luck) => ForgetRouteKeeps(s, owner, t, luck);
    case Takes => TakeBodyKeeps(s, false);
    case Writes(luck) => WriteBodyKeeps(s, luck);
  }

  lemma {:induction false} BindAllKeeps(s: Store, st: Startup, qs: seq<Request>)
    requires Inv(s.routes) && Healthy(s.files) && DurableInMemory(s)
    ensures var b := BindAll(s, st, qs);
      Undisturbed(s, b) && OwnersKept(s.routes, b.routes) && b.forgotten == s.forgotten && b.taken == s.taken
    decreases |qs|
  {
    if qs != [] {
      var next := BindInbound(s, st, qs[0]);
      BindKeeps(s, st, qs[0]);
      BindAllKeeps(next, st, qs[1..]);
      UndisturbedOn(s, next, BindAll(next, st, qs[1..]));
    }
  }

  lemma UndisturbedOn(a: Store, b: Store, c: Store)
    requires Undisturbed(a, b) && Undisturbed(b, c)
    ensures Undisturbed(a, c)
    ensures StaysInMemory(a, b) && StaysInMemory(b, c) ==> StaysInMemory(a, c)
  {
    DurablyOn(a, b, c);
    assert c.forgotten[|a.forgotten|..] == b.forgotten[|a.forgotten|..] + c.forgotten[|b.forgotten|..];
  }

  lemma {:induction false} DoAllKeeps(s: Store, st: Startup, acts: seq<Activity>)
    requires Inv(s.routes) && Healthy(s.files) && DurableInMemory(s)
    ensures var (b, end) := DoAll(s, st, acts); Undisturbed(s, b) && StaysInMemory(s, b)
    decreases |acts|
  {
    if acts != [] {
      DoOneKeeps(s, st, acts[0]);
      var (next, end) := DoOne(s, st, acts[0]);
      if end != Dead {
        DoAllKeeps(next, st, acts[1..]);
        UndisturbedOn(s, next, DoAll(next, st, acts[1..]).0);
      }
    }
  }

  // ---- the commit ----

  /** However binding a plan ends, memory keeps its owners. */
  lemma BoundRoutes(s: Store, robot: string, plan: Plan)
    requires Inv(s.routes)
    ensures var (b, end) := BindPlanned(s, robot, plan);
      && Inv(b.routes) && OwnersKept(s.routes, b.routes) && b == s.(routes := b.routes, dirty := b.dirty)
      && (end == Finished ==> OwnsAll(b.routes, robot, plan))
  {
    PlanOutcome(s.routes, robot, plan, s.dirty);
    RoundTrip(s.routes);
  }

  lemma BoundOutcome(s: Store, robot: string, plan: Plan)
    requires Inv(s.routes) && Healthy(s.files) && DurableInMemory(s)
    ensures var (b, end) := BindPlanned(s, robot, plan);
      Undisturbed(s, b) && StaysInMemory(s, b) && b.forgotten == s.forgotten && (end == Finished ==> OwnsAll(b.routes, robot, plan))
  {
    BoundRoutes(s, robot, plan);
  }

  /** Where a commit stands when it stops: with the other documents as they were, or migrated and durable. */
  ghost predicate Landed(s: Store, c: Outcome, robot: string, plan: Plan) {
    && Healthy(c.store.files) && Inv(c.store.routes) && c.store.plan == s.plan
    && DurableInMemory(c.store) && Durably(s, c.store)
    && (c.end != Finished ==> c.store.meta == s.meta && c.store.memory == s.memory)
    && (c.end == Finished ==>
        var m := Metadata(Migrated, robot, |plan|);
        && c.store.meta == Stored(m) && c.store.memory == Some(m)
        && OwnsOrReleased(LoadedRoutes(c.store.files), robot, plan, c.store.forgotten[|s.forgotten|..]))
  }

  /** A flush makes durable what memory held when it began, whatever is bound while it writes. */
  lemma FlushOutcome(s: Store, st: Startup, during: seq<Request>, luck: Luck)
    requires Inv(s.routes) && Healthy(s.files) && DurableInMemory(s) && s.taken.None?
    ensures var f := FlushWhile(s, st, during, luck);
      && Undisturbed(s, f.store) && f.store.forgotten == s.forgotten
      && (f.end == Finished ==> LoadedRoutes(f.store.files).targets == s.routes.targets)
  {
    var took := TakeBody(s, true);
    TakeBodyKeeps(s, true);
    var busy := BindAll(took, st, during);
    BindAllKeeps(took, st, during);
    UndisturbedOn(s, took, busy);
    WriteBodyIsAtomic(busy, luck);
    WriteBodyKeeps(busy, luck);
    UndisturbedOn(s, busy, WriteBody(busy, luck).store);
  }

  /** The last write of a commit, with the routes already durable. */
  lemma MetadataOutcome(s: Store, b: Store, robot: string, plan: Plan, luck: Luck)
    requires Undisturbed(s, b)
    requires OwnsOrReleased(LoadedRoutes(b.files), robot, plan, b.forgotten[|s.forgotten|..])
    ensures Landed(s, SaveMetadata(b, Metadata(Migrated, robot, |plan|), luck), robot, plan)
  {
  }

  /** Dead or failed before the metadata. */
  lemma StoppedOutcome(s: Store, b: Store, robot: string, plan: Plan, luck: Luck, end: End)
    requires Undisturbed(s, b) && end != Finished
    ensures Landed(s, Outcome(b, luck, end), robot, plan)
  {
  }

  lemma FlushedOutcome(s: Store, b: Store, st: Startup, robot: string, plan: Plan, others: Meanwhile, luck: Luck)
    requires Undisturbed(s, b) && OwnsOrReleased(b.routes, robot, plan, b.forgotten[|s.forgotten|..])
    requires b.taken.None?
    ensures Landed(s, FlushAndSave(b, st, robot, plan, others, luck), robot, plan)
  {
    var flushed := FlushWhile(b, st, others.during, luck);
    FlushOutcome(b, st, others.during, luck);
    UndisturbedOn(s, b, flushed.store);
    if flushed.end == Finished {
      var (busy, end) := DoAll(flushed.store, st, others.after);
      DoAllKeeps(flushed.store, st, others.after);
      UndisturbedOn(s, flushed.store, busy);
      OwnedOn(flushed.store, busy, |s.forgotten|, robot, plan);
      if end == Dead {
        StoppedOutcome(s, busy, robot, plan, flushed.luck, Dead);
      } else {
        MetadataOutcome(s, busy, robot, plan, flushed.luck);
      }
    } else {
      StoppedOutcome(s, flushed.store, robot, plan, flushed.luck, flushed.end);
    }
  }

  lemma CommitOutcome(s: Store, st: Startup, robot: string, plan: Plan, others: Meanwhile, luck: Luck)
    requires Inv(s.routes) && Healthy(s.files) && DurableInMemory(s)
    ensures Landed(s, Commit(s, st, robot, plan, others, luck), robot, plan)
  {
    BoundOutcome(s, robot, plan);
    var (bound, end) := BindPlanned(s, robot, plan);
    if end != Finished {
      StoppedOutcome(s, bound, robot, plan, luck, end);
    } else {
      var (busy, busyEnd) := DoAll(bound, st, others.between);
      DoAllKeeps(bound, st, others.between);
      UndisturbedOn(s, bound, busy);
      if busyEnd == Dead {
        StoppedOutcome(s, busy, robot, plan, luck, Dead);
      } else if busy.taken.Some? {
        StoppedOutcome(s, busy, robot, plan, luck, Failed);
      } else {
        assert OwnsOrReleased(busy.routes, robot, plan, busy.forgotten[|s.forgotten|..]);
        FlushedOutcome(s, busy, st, robot, plan, others, luck);
      }
    }
  }

  // ---- steps ----

  function Rank(m: Document<Metadata>): nat {
    match m
    case Stored(b) => (match b.phase case Single => 1 case Pending => 2 case Migrated => 3)
    case _ => 0
  }

  /** The phase on disk never moves backward, a legacy robot id once recorded never changes, nor does an owner but by forgetting. */
  ghost predicate Advances(a: Store, b: Store) {
    && Rank(a.meta) <= Rank(b.meta)
    && (a.meta.Stored? && a.meta.body.legacy != "" ==> b.meta.Stored? && b.meta.body.legacy == a.meta.body.legacy)
    && Durably(a, b)
  }

  lemma {:induction false} FilteredSame(plan: Plan)
    requires forall p <- plan :: Readable(p)
    ensures ReadablePart(plan) == plan
    decreases |plan|
  {
    if plan != [] {
      assert plan[0] in plan;
      FilteredSame(plan[1..]);
    }
  }

  /** A process that has just loaded its documents. */
  ghost predicate JustLoaded(s: Store) {
    && Documents(s) && s == Loaded(s)
  }

  lemma LoadingLoads(s: Store)
    requires Documents(s)
    ensures JustLoaded(Loaded(s)) && Loaded(s).taken.None? && Inv(Loaded(s).routes) && DurableInMemory(Loaded(s))
  {
    LoadedInv(s.files);
  }

  /** A start leaves the documents consistent, and a process that did start remembers them. */
  ghost predicate StartedWell(s: Store, b: Begun) {
    && Documents(b.store) && b.store.files == s.files && b.store.routes == s.routes && b.store.forgotten == s.forgotten && b.store.taken == s.taken
    && (b.startup.Some? ==> Remembers(b.store, b.startup.value))
    && Advances(s, b.store)
    && (s.meta != b.store.meta ==> b.store.meta.Stored? && b.store.meta.body.phase != Migrated)
  }

  lemma ResumeKeeps(s: Store)
    requires JustLoaded(s) && Inv(s.routes) && DurableInMemory(s) && s.memory.Some? && s.memory.value.phase != Single
    ensures StartedWell(s, Resume(s, s.memory.value))
  {
    if s.memory.value.phase == Pending {
      FilteredSame(s.plan.body);
    }
  }

  lemma SingleStartKeeps(s: Store, luck: Luck)
    requires JustLoaded(s) && Inv(s.routes) && DurableInMemory(s)
    ensures StartedWell(s, BeginSingle(s, luck))
  {
    if s.memory.Some? && s.memory.value.phase != Single {
      ResumeKeeps(s);
    }
  }

  /** A plan that is written while the phase is still single does no harm. */
  lemma PlanWritten(s: Store, plan: Plan)
    requires JustLoaded(s) && Inv(s.routes) && DurableInMemory(s) && s.meta.Stored? && s.meta.body.phase == Single
    ensures StartedWell(s, Begun(s.(plan := Stored(plan)), None))
  {
  }

  /** With the metadata behind it, the profile is pending. */
  lemma PendingWritten(s: Store, plan: Plan)
    requires JustLoaded(s) && Inv(s.routes) && DurableInMemory(s) && s.meta.Stored? && s.meta.body.phase == Single
    requires s.meta.body.legacy != "" && forall p <- plan :: Readable(p)
    ensures var m := Metadata(Pending, s.meta.body.legacy, |plan|);
      StartedWell(s, Begun(s.(plan := Stored(plan), meta := Stored(m), memory := Some(m)), Some(Startup(Pending, m.legacy, plan, false))))
  {
  }

  lemma FrozenStartKeeps(s: Store, entries: seq<LegacySession>, luck: Luck)
    requires JustLoaded(s) && Inv(s.routes) && DurableInMemory(s)
    requires s.memory.Some? && s.memory.value.legacy != "" && s.memory.value.phase == Single
    ensures StartedWell(s, BeginMulti(s, entries, luck))
  {
    FrozenPlan(entries);
    if FreezePlan(entries).Some? {
      PlanWritten(s, FreezePlan(entries).value);
      PendingWritten(s, FreezePlan(entries).value);
    }
  }

  lemma MultiStartKeeps(s: Store, entries: seq<LegacySession>, luck: Luck)
    requires JustLoaded(s) && Inv(s.routes) && DurableInMemory(s)
    ensures StartedWell(s, BeginMulti(s, entries, luck))
  {
    if s.memory.Some? && s.memory.value.legacy != "" {
      if s.memory.value.phase != Single {
        ResumeKeeps(s);
      } else {
        FrozenStartKeeps(s, entries, luck);
      }
    }
  }

  lemma StartedIsGood(w: World, b: Begun)
    requires Good(w) && Proper(Loaded(w.store)) && StartedWell(Loaded(w.store), b)
    ensures Good(w.(store := b.store, running := b.startup)) && Advances(w.store, b.store)
  {
  }

  lemma BeginKeeps(s: Store, e: Event)
    requires e.Start? && Documents(s)
    ensures StartedWell(Loaded(s), Begin(s, e.tokens, e.cards, e.entries, e.luck))
  {
    LoadingLoads(s);
    if e.tokens <= 1 {
      SingleStartKeeps(Loaded(s), e.luck);
    } else {
      MultiStartKeeps(Loaded(s), e.entries, e.luck);
    }
  }

  lemma StartKeeps(w: World, e: Event)
    requires Good(w) && e.Start?
    ensures Good(Step(w, e)) && Advances(w.store, Step(w, e).store)
  {
    LoadingLoads(w.store);
    BeginKeeps(w.store, e);
    StartedIsGood(w, Begin(w.store, e.tokens, e.cards, e.entries, e.luck));
  }

  lemma SettleKeeps(w: World, o: Outcome, robot: string, plan: Plan)
    requires Good(w) && w.running.Some? && Documents(w.store)
    requires w.store.meta.body.phase != Migrated && w.store.meta.body.legacy == robot && robot != ""
    requires Landed(w.store, o, robot, plan)
    ensures Good(Settle(w, o, robot, plan)) && Advances(w.store, o.store)
  {
  }

  /** Removing the plan file comes after the metadata and changes nothing else. */
  lemma PlanRemoval(w: World, c: Outcome, robot: string, plan: Plan)
    requires Good(w) && w.running.Some?
    requires w.store.meta.body.phase != Migrated && w.store.meta.body.legacy == robot && robot != ""
    requires Landed(w.store, c, robot, plan) && c.end == Finished
    ensures var removed := Outcome(c.store.(plan := Missing), c.luck.Spent(), Finished);
      Good(Settle(w, removed, robot, plan)) && Advances(w.store, removed.store)
    ensures var dead := Outcome(c.store, c.luck, Dead);
      Good(Settle(w, dead, robot, plan)) && Advances(w.store, dead.store)
  {
  }

  lemma ProtectKeeps(w: World, st: Startup, entries: seq<LegacySession>, others: Meanwhile, luck: Luck)
    requires Good(w) && w.running == Some(st) && st.sole && st.legacy != ""
    ensures var plan := FreezePlan(entries); var o := Protect(w.store, st, st.legacy, entries, others, luck);
      && Good(Settle(w, o, st.legacy, if plan.Some? then plan.value else [])) && Advances(w.store, o.store)
  {
    match FreezePlan(entries)
    case None =>
    case Some(plan) =>
      CommitOutcome(w.store, st, st.legacy, plan, others, luck);
      SettleKeeps(w, Commit(w.store, st, st.legacy, plan, others, luck), st.legacy, plan);
  }

  lemma ApplyKeeps(w: World, st: Startup, others: Meanwhile, luck: Luck)
    requires Good(w) && w.running == Some(st) && st.phase == Pending
    ensures var o := Apply(w.store, st, st.legacy, st.plan, others, luck);
      Good(Settle(w, o, st.legacy, st.plan)) && Advances(w.store, o.store)
  {
    CommitOutcome(w.store, st, st.legacy, st.plan, others, luck);
    var c := Commit(w.store, st, st.legacy, st.plan, others, luck);
    SettleKeeps(w, c, st.legacy, st.plan);
    if c.end == Finished {
      PlanRemoval(w, c, st.legacy, st.plan);
    }
  }

  lemma RegisteredKeeps(w: World, e: Event)
    requires Good(w) && e.Registered? && w.running.Some?
    ensures Good(Step(w, e)) && Advances(w.store, Step(w, e).store)
  {
    var st := w.running.value;
    if st.sole && st.legacy != "" && st.legacy != e.robot {
      ProtectKeeps(w, st, e.legacySessions, e.others, e.writes);
    } else if st.sole {
      RecordKeeps(w, st, e.robot, e.writes);
    } else if st.phase == Pending && st.legacy == e.robot {
      ApplyKeeps(w, st, e.others, e.writes);
    }
  }

  lemma RecordKeeps(w: World, st: Startup, robot: string, luck: Luck)
    requires Good(w) && w.running == Some(st) && st.sole
    ensures var r := Record(w.store, robot, luck);
      Good(w.(store := r.store, running := if r.end == Dead then None else w.running)) && Advances(w.store, r.store)
  {
  }

  /** A running process goes on, or dies, with its documents as they were. */
  lemma UndisturbedKeeps(w: World, b: Store, alive: bool)
    requires Good(w) && w.running.Some? && Undisturbed(w.store, b)
    ensures Good(w.(store := b, running := if alive then w.running else None)) && Advances(w.store, b)
  {
    if w.store.meta.body.phase == Migrated {
      OwnedOn(w.store, b, w.movedAt, w.store.meta.body.legacy, w.moved);
    }
  }

  /** Whatever others do to a running world, at any time. */
  lemma DoingKeeps(w: World, a: Activity)
    requires Good(w) && w.running.Some?
    ensures Good(Step(w, Doing(a))) && Advances(w.store, Step(w, Doing(a)).store)
  {
    var (b, end) := DoOne(w.store, w.running.value, a);
    DoOneKeeps(w.store, w.running.value, a);
    UndisturbedKeeps(w, b, end != Dead);
  }

  lemma StepKeeps(w: World, e: Event)
    requires Good(w)
    ensures Good(Step(w, e)) && Advances(w.store, Step(w, e).store)
  {
    if e.Start? {
      StartKeeps(w, e);
    } else if e.Registered? && w.running.Some? {
      RegisteredKeeps(w, e);
    } else if e.Doing? && w.running.Some? {
      DoingKeeps(w, e.activity);
    }
  }

  /** The world after a list of events. */
  ghost function Run(w: World, es: seq<Event>): (r: World)
    requires Good(w)
    ensures Good(r)
    decreases |es|
  {
    if es == [] then w else
    StepKeeps(w, es[0]);
    Run(Step(w, es[0]), es[1..])
  }

  lemma AdvancesOn(a: Store, b: Store, c: Store)
    requires Advances(a, b) && Advances(b, c)
    ensures Advances(a, c)
  {
    DurablyOn(a, b, c);
  }

  lemma {:induction false} RunAdvances(w: World, es: seq<Event>)
    requires Good(w)
    ensures Advances(w.store, Run(w, es).store)
    decreases |es|
  {
    if es != [] {
      StepKeeps(w, es[0]);
      var next := Step(w, es[0]);
      RunAdvances(next, es[1..]);
      AdvancesOn(w.store, next.store, Run(next, es[1..]).store);
    }
  }

  /**
   Over every run from an empty profile, cut short between any two writes: the phase never moves
   backward, a recorded legacy id never changes, and no durable route changes hands but by being
   forgotten; a pending profile always has its plan; and a profile called migrated has every planned
   target durably bound to its legacy robot, or forgotten since that migration began.
   */
  lemma MigrationSafety(first: seq<Event>, more: seq<Event>)
    ensures Good(FRESH)
    ensures var a := Run(FRESH, first); var b := Run(a, more);
      && Documents(a.store) && PlanBound(a) && Documents(b.store) && PlanBound(b)
      && Advances(a.store, b.store)
  {
    NoRoutesInv();
    RunAdvances(Run(FRESH, first), more);
  }
}
