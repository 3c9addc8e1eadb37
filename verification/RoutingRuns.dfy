/** Ownership of targets over runs of the registry, across failed writes, crashes and restarts. */
module RoutingRuns {
  import opened Wrappers
  import opened Routes
  import opened Snapshot
  import opened SnapshotFiles
  import opened RoutePlan
  import opened Migration
  import opened MigrationRuns

  /**
   What may happen to a registry.  A flush takes the body under the lock and writes it later; in
   between others may bind, but forgetting waits.  A write that dies, and Reload, are followed by a
   fresh load.
   */
  datatype Change =
    | BindOne(request: Request)
    | FollowAPlan(robot: string, plan: Plan)
    | ForgetOne(owner: string, target: Target, luck: Luck)
    | TakeOut(force: bool)
    | WriteOut(flushLuck: Luck)
    | Reload

  /** `taken` is what a flush has taken and not yet written: the routes of which it holds the body. */
  datatype Registry = Registry(routes: Routes, dirty: bool, taken: Option<Routes>, flags: Flags, files: Files<Body>)

  /** What is, or is about to be, on disk. */
  function Outgoing(r: Registry): Routes {
    match r.taken case None => LoadedRoutes(r.files) case Some(s) => s
  }

  /** Every owner on disk is in what is on its way there, and every owner in that is in memory. */
  ghost predicate Sound(r: Registry) {
    && Inv(r.routes) && Healthy(r.files) && Inv(Outgoing(r))
    && OwnersKept(LoadedRoutes(r.files), Outgoing(r)) && OwnersKept(Outgoing(r), r.routes)
  }

  function Reloaded(f: Files<Body>): Registry {
    Registry(LoadedRoutes(f), false, None, LoadFlags(f), f)
  }

  ghost function Apply(r: Registry, c: Change): Registry
    requires Sound(r)
  {
    match c
    case BindOne(q) => if q.Valid() then Bound(r, Claim(r.routes, q)) else r
    case FollowAPlan(robot, plan) =>
      (match FollowPlan(r.routes, robot, plan, r.dirty)
       case Followed(s, d) => r.(routes := s, dirty := d)
       case Refused => r.(routes := Restore(BodyOf(r.routes)))
       case Invalid(s, d) => r.(routes := s, dirty := d))
    case ForgetOne(owner, t, luck) =>
      if r.taken.Some? || !Forgettable(r.routes, owner, t) then r else
      ForgetInv(r.routes, owner, t);
      Written(r, Forget(r.routes, t), r.(routes := Restore(BodyOf(r.routes))), luck)
    case TakeOut(force) => if r.taken.Some? || !(r.dirty || force) then r else r.(taken := Some(r.routes), dirty := false)
    case WriteOut(luck) => if r.taken.Some? then WrittenOut(r, r.taken.value, luck) else r
    case Reload => Reloaded(r.files)
  }

  ghost function WrittenOut(r: Registry, s: Routes, luck: Luck): Registry
    requires Inv(s)
  {
    var w := WriteSnapshot(r.files, r.flags, BodyOf(s), luck);
    match w.fate
    case Done => r.(taken := None, flags := w.flags, files := w.files)
    case Raised => r.(taken := None, flags := w.flags, files := w.files, dirty := true)
    case Crashed => Reloaded(w.files)
  }

  function Bound(r: Registry, c: Claimed): Registry {
    r.(routes := c.routes, dirty := r.dirty || c.dirtied)
  }

  /** Writing out `kept`, which stays in memory on success, while a raise leaves what `fallback` has there. */
  ghost function Written(r: Registry, kept: Routes, fallback: Registry, luck: Luck): Registry
    requires Inv(kept)
  {
    var w := WriteSnapshot(r.files, r.flags, BodyOf(kept), luck);
    match w.fate
    case Done => Registry(kept, false, None, w.flags, w.files)
    case Raised => fallback.(flags := w.flags, files := w.files)
    case Crashed => Reloaded(w.files)
  }

  lemma LandsSoundly(r: Registry, f: Files<Body>, dirty: bool, flags: Flags)
    requires Inv(r.routes) && Healthy(f) && Inv(LoadedRoutes(f)) && OwnersKept(LoadedRoutes(f), r.routes)
    ensures Sound(r.(dirty := dirty, taken := None, flags := flags, files := f)) && Sound(Reloaded(f))
  {
  }

  lemma FilesAfter(r: Registry, kept: Routes, luck: Luck)
    requires Sound(r) && r.taken.None? && Inv(kept)
    ensures var w := WriteSnapshot(r.files, r.flags, BodyOf(kept), luck);
      && Healthy(w.files) && Inv(LoadedRoutes(w.files)) && (w.fate == Crashed ==> luck.crash)
      && (if w.fate == Done then LoadedRoutes(w.files).targets == kept.targets else LoadedRoutes(w.files) == LoadedRoutes(r.files))
  {
    WriteIsAtomic(r.files, r.flags, kept, luck);
    LoadedInv(WriteSnapshot(r.files, r.flags, BodyOf(kept), luck).files);
  }

  /** How a write ends: with `kept` in memory and durable, with the fallback in memory, or reloaded. */
  lemma WrittenKeeps(r: Registry, kept: Routes, fallback: Registry, luck: Luck)
    requires Sound(r) && r.taken.None? && Inv(kept) && Inv(fallback.routes)
    requires fallback.taken.None? && fallback.routes.targets == r.routes.targets
    ensures var w := Written(r, kept, fallback, luck);
      && Sound(w)
      && (|| (w.routes == kept && LoadedRoutes(w.files).targets == kept.targets)
          || (LoadedRoutes(w.files) == LoadedRoutes(r.files) && w.routes == fallback.routes)
          || (LoadedRoutes(w.files) == LoadedRoutes(r.files) && w.routes == LoadedRoutes(r.files) && luck.crash))
  {
    var w := WriteSnapshot(r.files, r.flags, BodyOf(kept), luck);
    FilesAfter(r, kept, luck);
    match w.fate
    case Done => LandsSoundly(r.(routes := kept), w.files, false, w.flags);
    case Raised => LandsSoundly(fallback, w.files, fallback.dirty, w.flags);
    case Crashed => LandsSoundly(fallback, w.files, fallback.dirty, w.flags);
  }

  /** What was taken becomes durable, or nothing does. */
  lemma TakenIsWritten(r: Registry, luck: Luck)
    requires Sound(r) && r.taken.Some?
    ensures var f := WriteSnapshot(r.files, r.flags, BodyOf(r.taken.value), luck).files;
      && Healthy(f) && Inv(LoadedRoutes(f))
      && OwnersKept(LoadedRoutes(r.files), LoadedRoutes(f)) && OwnersKept(LoadedRoutes(f), r.routes)
  {
    WriteIsAtomic(r.files, r.flags, r.taken.value, luck);
    LoadedInv(WriteSnapshot(r.files, r.flags, BodyOf(r.taken.value), luck).files);
  }

  lemma WrittenOutEnds(r: Registry, s: Routes, luck: Luck)
    requires Inv(s)
    ensures var w := WrittenOut(r, s, luck); var f := WriteSnapshot(r.files, r.flags, BodyOf(s), luck).files;
      w == Reloaded(f) || w == r.(dirty := w.dirty, taken := None, flags := w.flags, files := f)
    ensures !luck.crash ==> WrittenOut(r, s, luck).routes == r.routes
  {
  }

  /** Memory keeps what it has unless the process dies. */
  lemma WriteOutKeeps(r: Registry, luck: Luck)
    requires Sound(r) && r.taken.Some?
    ensures var w := WrittenOut(r, r.taken.value, luck);
      && Sound(w) && OwnersKept(LoadedRoutes(r.files), LoadedRoutes(w.files))
      && (w.routes == r.routes || (luck.crash && w.routes == LoadedRoutes(w.files)))
  {
    var w := WrittenOut(r, r.taken.value, luck);
    TakenIsWritten(r, luck);
    WrittenOutEnds(r, r.taken.value, luck);
    LandsSoundly(r, w.files, w.dirty, w.flags);
  }

  ghost predicate OwnedBy(s: Routes, t: Target, robot: string) {
    t in s.targets.items && s.targets.items[t] == robot
  }

  predicate EndsProcess(c: Change) {
    match c
    case Reload => true
    case ForgetOne(_, _, luck) => luck.crash
    case WriteOut(luck) => luck.crash
    case _ => false
  }

  lemma PlanKeepsOwners(r: Registry, robot: string, plan: Plan)
    requires Sound(r)
    ensures var w := Apply(r, FollowAPlan(robot, plan));
      Sound(w) && OwnersKept(r.routes, w.routes) && w.files == r.files
  {
    PlanOutcome(r.routes, robot, plan, r.dirty);
    RoundTrip(r.routes);
  }

  /** One change that forgets no `t` keeps the durable owner of `t`, in memory and on disk. */
  lemma ChangeKeepsOwner(r: Registry, c: Change, t: Target, robot: string)
    requires Sound(r) && !(c.ForgetOne? && c.target == t)
    ensures Sound(Apply(r, c))
    ensures OwnedBy(LoadedRoutes(r.files), t, robot) ==> OwnedBy(LoadedRoutes(Apply(r, c).files), t, robot)
    ensures OwnedBy(r.routes, t, robot) && !EndsProcess(c) ==> OwnedBy(Apply(r, c).routes, t, robot)
  {
    match c {
      case BindOne(q) =>
        if q.Valid() {
          BindInv(r.routes, q);
          BindKeepsOwners(r.routes, q);
        }
      case FollowAPlan(robot', plan) =>
        PlanKeepsOwners(r, robot', plan);
      case ForgetOne(owner, u, luck) => ForgetKeeps(r, owner, u, luck);
      case TakeOut(_) =>
      case WriteOut(luck) =>
        if r.taken.Some? {
          WriteOutKeeps(r, luck);
        }
      case Reload => LoadedInv(r.files);
    }
  }

  /** Everything `a` owns but the target `u` is owned by the same robots in `b`. */
  ghost predicate KeptBut(a: Routes, b: Routes, u: Target) {
    forall t <- a.targets.items :: t != u ==> OwnedBy(b, t, a.targets.items[t])
  }

  lemma ForgottenKeepsRest(a: Routes, s: Routes, robot: string, u: Target)
    requires Inv(s) && Forgettable(s, robot, u) && OwnersKept(a, s)
    ensures KeptBut(a, Forget(s, u), u)
  {
    ForgetInv(s, robot, u);
  }

  lemma SameTargetsKept(a: Routes, b: Routes, c: Routes, u: Target)
    requires KeptBut(a, b, u) && c.targets == b.targets
    ensures KeptBut(a, c, u)
  {
  }

  lemma ForgetKeeps(r: Registry, owner: string, u: Target, luck: Luck)
    requires Sound(r)
    ensures var w := Apply(r, ForgetOne(owner, u, luck));
      && Sound(w)
      && KeptBut(LoadedRoutes(r.files), LoadedRoutes(w.files), u)
      && (KeptBut(r.routes, w.routes, u) || (w.routes == LoadedRoutes(r.files) && luck.crash))
  {
    if r.taken.None? && Forgettable(r.routes, owner, u) {
      var kept, fallback := Forget(r.routes, u), r.(routes := Restore(BodyOf(r.routes)));
      ForgetInv(r.routes, owner, u);
      RoundTrip(r.routes);
      ForgottenKeepsRest(LoadedRoutes(r.files), r.routes, owner, u);
      ForgottenKeepsRest(r.routes, r.routes, owner, u);
      WrittenKeeps(r, kept, fallback, luck);
      var w := Written(r, kept, fallback, luck);
      if LoadedRoutes(w.files).targets == kept.targets {
        SameTargetsKept(LoadedRoutes(r.files), kept, LoadedRoutes(w.files), u);
      }
    }
  }

  ghost function Run(r: Registry, cs: seq<Change>): (r': Registry)
    requires Sound(r)
    ensures Sound(r')
    decreases |cs|
  {
    if cs == [] then r else
    ChangeSound(r, cs[0]);
    Run(Apply(r, cs[0]), cs[1..])
  }

  lemma ChangeSound(r: Registry, c: Change)
    requires Sound(r)
    ensures Sound(Apply(r, c))
  {
    if c.ForgetOne? {
      ForgetKeeps(r, c.owner, c.target, c.luck);
    } else {
      ChangeKeepsOwner(r, c, Target(Dm, ""), "");
    }
  }

  /**
   A target whose owner has once been made durable belongs to that robot, in memory and on disk,
   for as long as nobody asks to forget it: through every bind, plan, forgotten neighbour, failed
   write, crash and reload.
   */
  lemma {:induction false} DurableOwnerStays(r: Registry, cs: seq<Change>, t: Target, robot: string)
    requires Sound(r) && OwnedBy(LoadedRoutes(r.files), t, robot)
    requires forall c <- cs :: !(c.ForgetOne? && c.target == t)
    ensures OwnedBy(LoadedRoutes(Run(r, cs).files), t, robot) && OwnedBy(Run(r, cs).routes, t, robot)
    decreases |cs|
  {
    if cs != [] {
      assert cs[0] in cs;
      ChangeKeepsOwner(r, cs[0], t, robot);
      ChangeSound(r, cs[0]);
      DurableOwnerStays(Apply(r, cs[0]), cs[1..], t, robot);
    }
  }

  /** Within one process the same holds of every bound target, durable or not. */
  lemma {:induction false} ProcessOwnerStays(r: Registry, cs: seq<Change>, t: Target, robot: string)
    requires Sound(r) && OwnedBy(r.routes, t, robot)
    requires forall c <- cs :: !(c.ForgetOne? && c.target == t) && !EndsProcess(c)
    ensures OwnedBy(Run(r, cs).routes, t, robot)
    decreases |cs|
  {
    if cs != [] {
      assert cs[0] in cs;
      ChangeKeepsOwner(r, cs[0], t, robot);
      ChangeSound(r, cs[0]);
      ProcessOwnerStays(Apply(r, cs[0]), cs[1..], t, robot);
    }
  }

  // ---- what is clean is on disk ----

  /** A registry that is not dirty has everything but double links on disk, or on its way there. */
  ghost predicate CleanMeansOutgoing(r: Registry) {
    !r.dirty ==> SameButLinks(Outgoing(r), r.routes)
  }

  lemma {:induction false} CleanPlanChangesNothing(s: Routes, robot: string, plan: Plan, dirtied: bool)
    ensures var f := FollowPlan(s, robot, plan, dirtied);
      !f.Refused? && !f.dirtied ==> f.routes == s && !dirtied
    decreases |plan|
  {
    if plan != [] {
      var c := Claim(s, PlanRequest(robot, plan[0]));
      CleanPlanChangesNothing(c.routes, robot, plan[1..], dirtied || c.dirtied);
    }
  }

  lemma WriteLeaves(f: Files<Body>, g: Flags, s: Routes, luck: Luck)
    requires Inv(s) && Healthy(f)
    ensures var w := WriteSnapshot(f, g, BodyOf(s), luck);
      if w.fate == Done then SameButLinks(LoadedRoutes(w.files), s) else LoadedRoutes(w.files) == LoadedRoutes(f)
  {
    WriteIsAtomic(f, g, s, luck);
    RoundTrip(s);
  }

  lemma PlanKeepsClean(r: Registry, robot: string, plan: Plan)
    requires Sound(r) && CleanMeansOutgoing(r)
    ensures CleanMeansOutgoing(Apply(r, FollowAPlan(robot, plan)))
  {
    CleanPlanChangesNothing(r.routes, robot, plan, r.dirty);
    RoundTrip(r.routes);
  }

  lemma ForgottenIsClean(r: Registry, kept: Routes, fallback: Registry, luck: Luck)
    requires Inv(kept) && Healthy(r.files) && fallback.taken.None? && fallback.dirty == r.dirty && r.taken.None?
    requires SameButLinks(fallback.routes, r.routes) && fallback.files == r.files && CleanMeansOutgoing(r)
    ensures CleanMeansOutgoing(Written(r, kept, fallback, luck))
  {
    WriteLeaves(r.files, r.flags, kept, luck);
  }

  lemma ForgetKeepsClean(r: Registry, owner: string, t: Target, luck: Luck)
    requires Sound(r) && CleanMeansOutgoing(r)
    ensures CleanMeansOutgoing(Apply(r, ForgetOne(owner, t, luck)))
  {
    if r.taken.None? && Forgettable(r.routes, owner, t) {
      ForgetInv(r.routes, owner, t);
      RoundTrip(r.routes);
      ForgottenIsClean(r, Forget(r.routes, t), r.(routes := Restore(BodyOf(r.routes))), luck);
    }
  }

  lemma WriteOutKeepsClean(r: Registry, luck: Luck)
    requires Sound(r) && CleanMeansOutgoing(r)
    ensures CleanMeansOutgoing(Apply(r, WriteOut(luck)))
  {
    if r.taken.Some? {
      WriteLeaves(r.files, r.flags, r.taken.value, luck);
    }
  }

  lemma ChangeKeepsClean(r: Registry, c: Change)
    requires Sound(r) && CleanMeansOutgoing(r)
    ensures CleanMeansOutgoing(Apply(r, c))
  {
    match c
    case BindOne(q) =>
    case FollowAPlan(robot, plan) => PlanKeepsClean(r, robot, plan);
    case ForgetOne(owner, t, luck) => ForgetKeepsClean(r, owner, t, luck);
    case TakeOut(_) =>
    case WriteOut(luck) => WriteOutKeepsClean(r, luck);
    case Reload =>
  }

  /**
   Nothing is lost unnoticed: at every point of every run, with binds between the sections of a flush,
   failed writes and crashes, a registry that is neither dirty nor being written has everything but
   double links on disk, so a restart would load it.
   */
  lemma {:induction false} CleanIsDurable(r: Registry, cs: seq<Change>)
    requires Sound(r) && CleanMeansOutgoing(r)
    ensures var e := Run(r, cs);
      CleanMeansOutgoing(e) && (!e.dirty && e.taken.None? ==> SameButLinks(LoadedRoutes(e.files), e.routes))
    decreases |cs|
  {
    if cs != [] {
      ChangeSound(r, cs[0]);
      ChangeKeepsClean(r, cs[0]);
      CleanIsDurable(Apply(r, cs[0]), cs[1..]);
    }
  }

  /** Every registry that a run from no files at all leads to is sound, so the owners in it stay. */
  lemma ReachableIsSound(cs: seq<Change>)
    ensures Sound(Reloaded(Files(Missing, Missing))) && CleanMeansOutgoing(Reloaded(Files(Missing, Missing)))
    ensures Sound(Run(Reloaded(Files(Missing, Missing)), cs))
  {
    NoRoutesInv();
  }
}
