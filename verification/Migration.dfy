/**
 The start-up machine of identity.py: single, then pending with a frozen plan, then migrated, as
 steps over what is on disk and what the running process remembers.  Every operation takes the
 luck of its durable writes, so that it may be cut short between any two of them.
 */
module Migration {
  import opened Wrappers
  import opened OrderedDict
  import opened Routes
  import opened Snapshot
  import opened SnapshotFiles
  import opened RoutePlan

  datatype Phase = Single | Pending | Migrated

  datatype Metadata = Metadata(phase: Phase, legacy: string, planSize: nat)

  type Plan = seq<PlannedRoute>

  /** The session-store entries a plan is frozen from: key, chat type (None when unknown) and chat id. */
  datatype LegacySession = LegacySession(session: string, chatType: Option<ChatType>, chatId: string)

  // ---- _freeze_plan ----

  predicate HasThreadMark(chatId: string) {
    exists i :: 0 <= i <= |chatId| && "____" <= chatId[i..]
  }

  /** The exact wire type a structured origin stands for. */
  function PlannedChannel(chatType: ChatType, chatId: string): int {
    if chatType == Dm then 1 else if HasThreadMark(chatId) then 5 else 2
  }

  predicate Usable(e: LegacySession) { e.session != "" && e.chatType.Some? && e.chatId != "" }

  function Planned(e: LegacySession): PlannedRoute
    requires Usable(e)
  {
    PlannedRoute(e.session, Target(e.chatType.value, e.chatId), PlannedChannel(e.chatType.value, e.chatId))
  }

  /** One route a session key, in the order of first appearance, the last entry winning; None over capacity. */
  function Freeze(entries: seq<LegacySession>, plan: Dict<string, PlannedRoute>): (r: Option<Dict<string, PlannedRoute>>)
    decreases |entries|
  {
    if entries == [] then Some(plan)
    else if !Usable(entries[0]) then Freeze(entries[1..], plan)
    else
      var plan' := plan.Put(entries[0].session, Planned(entries[0]));
      if |plan'.keys| > MAX_ROUTES then None else Freeze(entries[1..], plan')
  }

  function Values(d: Dict<string, PlannedRoute>, keys: seq<string>): (p: Plan)
    requires forall k <- keys :: k in d.items
    ensures |p| == |keys|
    ensures forall i :: 0 <= i < |keys| ==> p[i] == d.items[keys[i]]
  {
    if keys == [] then [] else [d.items[keys[0]]] + Values(d, keys[1..])
  }

  function FreezePlan(entries: seq<LegacySession>): (r: Option<Plan>) {
    match Freeze(entries, Empty())
    case None => None
    case Some(d) => FreezeFacts(entries, Empty()); Some(Values(d, d.keys))
  }

  /** A planned route that reading the plan back would not drop. */
  predicate Readable(p: PlannedRoute) {
    p.session != "" && p.target.chatId != "" && ValidChannel(p.channel)
  }

  lemma {:induction false} FreezeFacts(entries: seq<LegacySession>, plan: Dict<string, PlannedRoute>)
    requires plan.Valid() && |plan.keys| <= MAX_ROUTES
    requires forall k <- plan.items :: Readable(plan.items[k]) && plan.items[k].session == k
    ensures Freeze(entries, plan).Some? ==>
      var d := Freeze(entries, plan).value;
      && d.Valid() && |d.keys| <= MAX_ROUTES
      && forall k <- d.items :: Readable(d.items[k]) && d.items[k].session == k
    decreases |entries|
  {
    if entries != [] {
      if !Usable(entries[0]) {
        FreezeFacts(entries[1..], plan);
      } else {
        var plan' := plan.Put(entries[0].session, Planned(entries[0]));
        if |plan'.keys| <= MAX_ROUTES {
          FreezeFacts(entries[1..], plan');
        }
      }
    }
  }

  /** A frozen plan fits the registry, has one route a session, and survives being written and read. */
  lemma FrozenPlan(entries: seq<LegacySession>)
    ensures FreezePlan(entries).Some? ==>
      var p := FreezePlan(entries).value;
      && |p| <= MAX_ROUTES && (forall r <- p :: Readable(r))
      && forall i, j :: 0 <= i < j < |p| ==> p[i].session != p[j].session
  {
    FreezeFacts(entries, Empty());
    if FreezePlan(entries).Some? {
      var d := Freeze(entries, Empty()).value;
      var p := Values(d, d.keys);
      forall i | 0 <= i < |p| ensures p[i].session == d.keys[i] && Readable(p[i]) {
        assert d.keys[i] in d.items;
      }
    }
  }

  // ---- the state store: three documents on disk, and what the process remembers of them ----

  /**
   `taken` is what a flush in another thread has taken and not yet written: the routes of which it
   holds the body.  Until it is written that thread has the flush lock.  `forgotten` lists, for the
   record, the targets an operator has durably released, in order.
   */
  datatype Store = Store(
    meta: Document<Metadata>,
    plan: Document<Plan>,
    files: Files<Body>,
    memory: Option<Metadata>,
    routes: Routes,
    dirty: bool,
    taken: Option<Routes>,
    flags: Flags,
    forgotten: seq<Target>)

  /** How an operation ended: in full, with an exception, or with the process dead. */
  datatype End = Finished | Failed | Dead

  datatype Outcome = Outcome(store: Store, luck: Luck, end: End)

  function Broken(luck: Luck): End { if luck.crash then Dead else Failed }

  function LoadedRoutes(f: Files<Body>): Routes {
    match Recoverable(f) case None => NoRoutes() case Some(b) => Restore(b)
  }

  predicate FilesExist(f: Files<Body>) { !f.primary.Missing? || !f.backup.Missing? }

  function ReadablePart(plan: Plan): Plan {
    if plan == [] then [] else if Readable(plan[0]) then [plan[0]] + ReadablePart(plan[1..]) else ReadablePart(plan[1..])
  }

  /** load_pending_plan; None is the IdentityStateError. */
  function LoadPending(plan: Document<Plan>, size: nat): Option<Plan> {
    var loaded := match plan case Missing => Some([]) case Unusable => None case Stored(p) => Some(ReadablePart(p));
    if loaded.Some? && |loaded.value| == size then loaded else None
  }

  predicate Corrupt(m: Document<Metadata>) {
    m.Unusable? || (m.Stored? && m.body.legacy != "" && !ValidRobot(m.body.legacy))
  }

  function SaveMetadata(s: Store, m: Metadata, luck: Luck): Outcome {
    if luck.left == 0 then Outcome(s, luck, Broken(luck))
    else Outcome(s.(meta := Stored(m), memory := Some(m)), luck.Spent(), Finished)
  }

  /** What a save leaves in memory is what the next process loads; one that does not finish changes nothing. */
  lemma SavedIsLoaded(s: Store, m: Metadata, luck: Luck)
    ensures var o := SaveMetadata(s, m, luck);
      if o.end == Finished then Loaded(o.store).memory == o.store.memory == Some(m) else o.store == s
  {
  }

  // ---- begin ----

  datatype Startup = Startup(phase: Phase, legacy: string, plan: Plan, sole: bool)

  /** A start, and the decision it took; None when it refused to start or died. */
  datatype Begun = Begun(store: Store, startup: Option<Startup>)

  /** A process has just started: metadata and routes are loaded into memory. */
  function Loaded(s: Store): Store {
    s.(memory := if s.meta.Stored? then Some(s.meta.body) else None,
       routes := LoadedRoutes(s.files), dirty := false, taken := None, flags := LoadFlags(s.files))
  }

  /** begin; `cards` says whether card-session files of an earlier run exist. */
  function Begin(s: Store, tokens: nat, cards: bool, entries: seq<LegacySession>, luck: Luck): Begun {
    var l := Loaded(s);
    if Corrupt(s.meta) then Begun(l, None)
    else if s.meta.Missing? && (FilesExist(s.files) || !s.plan.Missing? || cards) then Begun(l, None)
    else if tokens <= 1 then BeginSingle(l, luck)
    else BeginMulti(l, entries, luck)
  }

  function Resume(s: Store, m: Metadata): Begun {
    var plan := if m.phase == Pending then LoadPending(s.plan, m.planSize) else Some([]);
    if plan.None? then Begun(s, None) else Begun(s, Some(Startup(m.phase, m.legacy, plan.value, false)))
  }

  function BeginSingle(s: Store, luck: Luck): Begun {
    match s.memory
    case None =>
      var saved := SaveMetadata(s, Metadata(Single, "", 0), luck);
      Begun(saved.store, if saved.end == Finished then Some(Startup(Single, "", [], true)) else None)
    case Some(m) =>
      if m.phase == Single then Begun(s, Some(Startup(Single, m.legacy, [], true))) else Resume(s, m)
  }

  function BeginMulti(s: Store, entries: seq<LegacySession>, luck: Luck): Begun {
    if s.memory.None? || s.memory.value.legacy == "" then Begun(s, None) else
    var m := s.memory.value;
    if m.phase != Single then Resume(s, m) else
    var plan := FreezePlan(entries);
    if plan.None? || luck.left == 0 then Begun(s, None) else
    var saved := SaveMetadata(s.(plan := Stored(plan.value)), Metadata(Pending, m.legacy, |plan.value|), luck.Spent());
    Begun(saved.store, if saved.end == Finished then Some(Startup(Pending, m.legacy, plan.value, false)) else None)
  }

  // ---- the operations a registered identity triggers ----

  function EndOf(f: Fate): End {
    match f case Done => Finished case Raised => Failed case Crashed => Dead
  }

  ghost predicate Proper(s: Store) {
    Inv(s.routes) && (s.taken.Some? ==> Inv(s.taken.value))
  }

  /** The locked section of flush, which waits for a flush that is under way. */
  function TakeBody(s: Store, force: bool): Store {
    if s.taken.Some? || !(s.dirty || force) then s else s.(taken := Some(s.routes), dirty := false)
  }

  /** The rest of flush: writes what was taken. */
  ghost function WriteBody(s: Store, luck: Luck): Outcome
    requires Proper(s)
  {
    if s.taken.None? then Outcome(s, luck, Finished) else
    var w := WriteSnapshot(s.files, s.flags, BodyOf(s.taken.value), luck);
    Outcome(s.(files := w.files, flags := w.flags, taken := None, dirty := s.dirty || w.fate == Raised), w.luck, EndOf(w.fate))
  }

  /** bind_plan on the store's registry. */
  ghost function BindPlanned(s: Store, robot: string, plan: Plan): (Store, End)
    requires Inv(s.routes)
  {
    match FollowPlan(s.routes, robot, plan, s.dirty)
    case Followed(r, d) => (s.(routes := r, dirty := d), Finished)
    case Refused => (s.(routes := Restore(BodyOf(s.routes))), Failed)
    case Invalid(r, d) => (s.(routes := r, dirty := d), Failed)
  }

  /** record_single_identity: the identity of a single-token profile is written once. */
  function Record(s: Store, robot: string, luck: Luck): Outcome {
    var m := if s.memory.Some? then s.memory.value else Metadata(Single, "", 0);
    if m.phase != Single then Outcome(s, luck, Finished)
    else if m.legacy != "" then Outcome(s, luck, if m.legacy == robot then Finished else Failed)
    else SaveMetadata(s, Metadata(Single, robot, 0), luck)
  }

  /**
   The identity of a single-token profile is recorded once: after that, and after any restart, the
   same robot is accepted, any other is refused, and nothing is written.
   */
  lemma RecordedOnce(s: Store, robot: string, luck: Luck, other: string, later: Luck)
    requires s.memory == (if s.meta.Stored? then Some(s.meta.body) else None) && robot != ""
    requires s.memory.None? || s.memory.value.phase == Single
    requires Record(s, robot, luck).end == Finished
    ensures var recorded := Loaded(Record(s, robot, luck).store); var again := Record(recorded, other, later);
      again.store == recorded && (again.end == Finished <==> other == robot)
  {
  }

  /** forget_target, as the operator's command calls it; it waits for a flush that is under way. */
  ghost function ForgetRoute(s: Store, owner: string, t: Target, luck: Luck): (Store, End)
    requires Inv(s.routes)
  {
    if s.taken.None? && ValidRobot(owner) && t.chatId != "" && Forgettable(s.routes, owner, t) then ReleaseRoute(s, owner, t, luck)
    else (s, Finished)
  }

  /** The route goes from memory and disk; a write that raises puts it back. */
  ghost function ReleaseRoute(s: Store, owner: string, t: Target, luck: Luck): (Store, End)
    requires Inv(s.routes) && Forgettable(s.routes, owner, t)
  {
    ForgetInv(s.routes, owner, t);
    var w := WriteSnapshot(s.files, s.flags, BodyOf(Forget(s.routes, t)), luck);
    var written := s.(files := w.files, flags := w.flags);
    match w.fate
    case Done => (written.(routes := Forget(s.routes, t), dirty := false, forgotten := s.forgotten + [t]), Finished)
    case Raised => (written.(routes := Restore(BodyOf(s.routes))), Finished)
    case Crashed => (written, Dead)
  }

  /**
   A migration runs in its own thread while inbound messages may bind.  In the pending phase a
   frozen target is refused to every robot but the legacy one, and a sole identity binds nothing
   (`bind_inbound_route`).
   */
  predicate Admitted(st: Startup, q: Request) {
    q.Valid() && !st.sole && !(st.phase == Pending && q.robot != st.legacy && exists p <- st.plan :: p.target == q.target)
  }

  function BindInbound(s: Store, st: Startup, q: Request): Store {
    if !Admitted(st, q) then s else
    var c := Claim(s.routes, q);
    s.(routes := c.routes, dirty := s.dirty || c.dirtied)
  }

  /** What others do to the registry while a migration runs. */
  datatype Activity =
    | Binds(request: Request)
    | Forgets(owner: string, target: Target, forgetLuck: Luck)
    | Takes
    | Writes(writeLuck: Luck)

  ghost function DoOne(s: Store, st: Startup, a: Activity): (Store, End)
    requires Proper(s)
  {
    match a
    case Binds(q) => (BindInbound(s, st, q), Finished)
    case Forgets(owner, t, luck) => ForgetRoute(s, owner, t, luck)
    case Takes => (TakeBody(s, false), Finished)
    case Writes(luck) => (WriteBody(s, luck).store, WriteBody(s, luck).end)
  }

  ghost function DoAll(s: Store, st: Startup, acts: seq<Activity>): (Store, End)
    requires Proper(s)
    decreases |acts|
  {
    if acts == [] then (s, Finished) else
    DoOneInv(s, st, acts[0]);
    var (next, end) := DoOne(s, st, acts[0]);
    if end == Dead then (next, Dead) else DoAll(next, st, acts[1..])
  }

  /** While a flush writes, others can only bind. */
  ghost function BindAll(s: Store, st: Startup, qs: seq<Request>): Store
    requires Proper(s)
    decreases |qs|
  {
    if qs == [] then s else
    BindInboundInv(s, st, qs[0]);
    BindAll(BindInbound(s, st, qs[0]), st, qs[1..])
  }

  lemma BindInboundInv(s: Store, st: Startup, q: Request)
    requires Proper(s)
    ensures Proper(BindInbound(s, st, q)) && BindInbound(s, st, q).taken == s.taken
  {
    if Admitted(st, q) {
      BindInv(s.routes, q);
    }
  }

  lemma DoOneInv(s: Store, st: Startup, a: Activity)
    requires Proper(s)
    ensures Proper(DoOne(s, st, a).0)
  {
    if a.Binds? {
      BindInboundInv(s, st, a.request);
    } else if a.Forgets? {
      ForgetRouteInv(s, a.owner, a.target, a.forgetLuck);
    }
  }

  lemma RestoredInv(s: Routes)
    requires Inv(s)
    ensures Inv(Restore(BodyOf(s)))
  {
    RoundTrip(s);
  }

  lemma ReleasedRoutes(s: Store, owner: string, t: Target, luck: Luck)
    requires Inv(s.routes) && Forgettable(s.routes, owner, t)
    ensures var b := ReleaseRoute(s, owner, t, luck).0;
      && b.taken == s.taken
      && (b.routes == Forget(s.routes, t) || b.routes == Restore(BodyOf(s.routes)) || b.routes == s.routes)
  {
  }

  lemma ForgetRouteInv(s: Store, owner: string, t: Target, luck: Luck)
    requires Proper(s)
    ensures Proper(ForgetRoute(s, owner, t, luck).0)
  {
    if s.taken.None? && ValidRobot(owner) && t.chatId != "" && Forgettable(s.routes, owner, t) {
      ForgetInv(s.routes, owner, t);
      RestoredInv(s.routes);
      ReleasedRoutes(s, owner, t, luck);
    }
  }

  lemma {:induction false} DoAllInv(s: Store, st: Startup, acts: seq<Activity>)
    requires Proper(s)
    ensures Proper(DoAll(s, st, acts).0)
    decreases |acts|
  {
    if acts != [] {
      DoOneInv(s, st, acts[0]);
      var (next, end) := DoOne(s, st, acts[0]);
      if end != Dead {
        DoAllInv(next, st, acts[1..]);
      }
    }
  }

  lemma {:induction false} BindAllInv(s: Store, st: Startup, qs: seq<Request>)
    requires Proper(s)
    ensures Proper(BindAll(s, st, qs)) && BindAll(s, st, qs).taken == s.taken
    decreases |qs|
  {
    if qs != [] {
      BindInboundInv(s, st, qs[0]);
      BindAllInv(BindInbound(s, st, qs[0]), st, qs[1..]);
    }
  }

  /** What others do after the plan is bound, while the flush of the commit writes, and before the metadata. */
  datatype Meanwhile = Meanwhile(between: seq<Activity>, during: seq<Request>, after: seq<Activity>)

  const NOTHING := Meanwhile([], [], [])

  /** bind_plan, flush(force), save_metadata(migrated): both ways into the last phase. */
  ghost function Commit(s: Store, st: Startup, robot: string, plan: Plan, others: Meanwhile, luck: Luck): Outcome
    requires Proper(s)
  {
    BindPlannedInv(s, robot, plan);
    var (bound, end) := BindPlanned(s, robot, plan);
    if end != Finished then Outcome(bound, luck, end) else
    DoAllInv(bound, st, others.between);
    var (busy, busyEnd) := DoAll(bound, st, others.between);
    if busyEnd == Dead then Outcome(busy, luck, Dead) else FlushAndSave(busy, st, robot, plan, others, luck)
  }

  /** As long as another flush is under way, this one waits and the commit goes no further. */
  ghost function FlushAndSave(s: Store, st: Startup, robot: string, plan: Plan, others: Meanwhile, luck: Luck): Outcome
    requires Proper(s)
  {
    if s.taken.Some? then Outcome(s, luck, Failed) else
    var flushed := FlushWhile(s, st, others.during, luck);
    if flushed.end != Finished then flushed else
    var (busy, busyEnd) := DoAll(flushed.store, st, others.after);
    if busyEnd == Dead then Outcome(busy, flushed.luck, Dead)
    else SaveMetadata(busy, Metadata(Migrated, robot, |plan|), flushed.luck)
  }

  /** flush(force=True), with binds between its two sections. */
  ghost function FlushWhile(s: Store, st: Startup, during: seq<Request>, luck: Luck): (o: Outcome)
    requires Proper(s)
    ensures Proper(o.store)
  {
    BindAllInv(TakeBody(s, true), st, during);
    WriteBody(BindAll(TakeBody(s, true), st, during), luck)
  }

  lemma BindPlannedInv(s: Store, robot: string, plan: Plan)
    requires Proper(s)
    ensures Proper(BindPlanned(s, robot, plan).0)
  {
    PlanOutcome(s.routes, robot, plan, s.dirty);
    RoundTrip(s.routes);
  }

  /** protect_replaced_single_identity, when the one configured token now answers as another bot. */
  ghost function Protect(s: Store, st: Startup, previous: string, entries: seq<LegacySession>, others: Meanwhile, luck: Luck): Outcome
    requires Proper(s)
  {
    if s.memory.None? || s.memory.value.phase != Single || s.memory.value.legacy != previous then Outcome(s, luck, Failed) else
    match FreezePlan(entries)
    case None => Outcome(s, luck, Failed)
    case Some(plan) => Commit(s, st, previous, plan, others, luck)
  }

  /** apply_legacy_plan: after the commit the plan file goes; failing to remove it is only logged. */
  ghost function Apply(s: Store, st: Startup, robot: string, plan: Plan, others: Meanwhile, luck: Luck): Outcome
    requires Proper(s)
  {
    var c := Commit(s, st, robot, plan, others, luck);
    if c.end != Finished then c
    else if c.luck.left > 0 then Outcome(c.store.(plan := Missing), c.luck.Spent(), Finished)
    else Outcome(c.store, c.luck, if c.luck.crash then Dead else Finished)
  }
}
