/** `IdentityStateStore` of identity.py as an object: the documents, the metadata in memory, the registry. */
module StateStore {
  import opened Wrappers
  import opened OrderedDict
  import opened Routes
  import opened SnapshotFiles
  import opened RoutePlan
  import opened RouteRegistry
  import opened Migration

  class IdentityStateStore {
    const routes: IdentityRouteRegistry
    var metadataDocument: Document<Metadata>
    var planDocument: Document<Plan>
    var metadata: Option<Metadata>

    ghost predicate Valid()
      reads this, routes
    {
      routes.Valid()
    }

    /** The store as the value the runs in MigrationRuns.dfy speak of, with nobody else's flush under way and no history. */
    function View(): Store
      reads this, routes
    {
      Store(metadataDocument, planDocument, routes.files, metadata, routes.Model(), routes.dirty, None, routes.flags, [])
    }

    constructor (routes: IdentityRouteRegistry, metadataDocument: Document<Metadata>, planDocument: Document<Plan>)
      requires routes.Valid()
      ensures Valid() && this.routes == routes && metadata.None?
      ensures this.metadataDocument == metadataDocument && this.planDocument == planDocument
    {
      this.routes := routes;
      this.metadataDocument, this.planDocument, metadata := metadataDocument, planDocument, None;
    }

    method Save(m: Metadata, luck: Luck) returns (end: End, rest: Luck)
      requires Valid()
      modifies `metadataDocument, `metadata
      ensures Valid()
      ensures var o := SaveMetadata(old(View()), m, luck); View() == o.store && rest == o.luck && end == o.end
    {
      if luck.left == 0 {
        return Broken(luck), luck;
      }
      metadataDocument, metadata := Stored(m), Some(m);
      return Finished, luck.Spent();
    }

    method LoadPendingPlan(size: nat) returns (plan: Option<Plan>)
      ensures plan == LoadPending(planDocument, size)
    {
      var loaded: Plan := [];
      match planDocument {
        case Missing =>
        case Unusable => return None;
        case Stored(p) =>
          for i := 0 to |p|
            invariant loaded == ReadablePart(p[..i])
          {
            ReadableAppend(p[..i], p[i]);
            assert p[..i + 1] == p[..i] + [p[i]];
            if Readable(p[i]) {
              loaded := loaded + [p[i]];
            }
          }
          assert p[..|p|] == p;
      }
      return if |loaded| == size then Some(loaded) else None;
    }

    /** _freeze_plan: one route a session key, the last entry winning, within the route capacity. */
    method FreezePlanFrom(entries: seq<LegacySession>) returns (plan: Option<Plan>)
      ensures plan == FreezePlan(entries)
    {
      var planned := Empty<string, PlannedRoute>();
      ghost var left := entries;
      for i := 0 to |entries|
        invariant left == entries[i..]
        invariant Freeze(entries, Empty()) == Freeze(left, planned)
      {
        var e := entries[i];
        if Usable(e) {
          planned := planned.Put(e.session, Planned(e));
          if |planned.keys| > MAX_ROUTES {
            return None;
          }
        }
        left := left[1..];
      }
      FreezeFacts(entries, Empty());
      return Some(Values(planned, planned.keys));
    }

    /** begin: decides the mode before any listener starts; None is a refusal, an OSError or death. */
    method Start(tokens: nat, cards: bool, entries: seq<LegacySession>, luck: Luck) returns (startup: Option<Startup>)
      requires Valid() && routes.Model() == NoRoutes() && routes.flags == FRESH_FLAGS && !routes.dirty
      modifies this, routes
      ensures Valid()
      ensures var b := Begin(old(View()), tokens, cards, entries, luck); View() == b.store && startup == b.startup
    {
      LoadDocuments();
      if metadataDocument.Unusable? || (metadata.Some? && metadata.value.legacy != "" && !ValidRobot(metadata.value.legacy)) {
        return None;
      }
      if metadata.None? && (FilesExist(routes.files) || !planDocument.Missing? || cards) {
        return None;
      }
      if tokens <= 1 {
        startup := StartSingle(luck);
      } else {
        startup := StartMulti(entries, luck);
      }
    }

    /** What a new process reads before it decides anything. */
    method LoadDocuments()
      requires Valid() && routes.Model() == NoRoutes() && routes.flags == FRESH_FLAGS && !routes.dirty
      modifies `metadata, routes
      ensures Valid() && View() == Loaded(old(View()))
    {
      metadata := if metadataDocument.Stored? then Some(metadataDocument.body) else None;
      routes.Load();
    }

    method StartSingle(luck: Luck) returns (startup: Option<Startup>)
      requires Valid()
      modifies this
      ensures Valid()
      ensures var b := BeginSingle(old(View()), luck); View() == b.store && startup == b.startup
    {
      if metadata.None? {
        var end, rest := Save(Metadata(Single, "", 0), luck);
        return if end == Finished then Some(Startup(Single, "", [], true)) else None;
      }
      var m := metadata.value;
      if m.phase == Single {
        return Some(Startup(Single, m.legacy, [], true));
      }
      startup := ResumeFrom(m);
    }

    method ResumeFrom(m: Metadata) returns (startup: Option<Startup>)
      ensures startup == Resume(View(), m).startup
    {
      var plan: Option<Plan> := Some([]);
      if m.phase == Pending {
        plan := LoadPendingPlan(m.planSize);
      }
      return if plan.None? then None else Some(Startup(m.phase, m.legacy, plan.value, false));
    }

    method StartMulti(entries: seq<LegacySession>, luck: Luck) returns (startup: Option<Startup>)
      requires Valid()
      modifies this
      ensures Valid()
      ensures var b := BeginMulti(old(View()), entries, luck); View() == b.store && startup == b.startup
    {
      if metadata.None? || metadata.value.legacy == "" {
        return None;
      }
      var m := metadata.value;
      if m.phase != Single {
        startup := ResumeFrom(m);
        return;
      }
      var plan := FreezePlanFrom(entries);
      if plan.None? || luck.left == 0 {
        return None;
      }
      planDocument := Stored(plan.value);
      var end, rest := Save(Metadata(Pending, m.legacy, |plan.value|), luck.Spent());
      return if end == Finished then Some(Startup(Pending, m.legacy, plan.value, false)) else None;
    }

    method RecordSingleIdentity(robot: string, luck: Luck) returns (end: End, rest: Luck)
      requires Valid()
      modifies `metadataDocument, `metadata
      ensures Valid()
      ensures var o := Record(old(View()), robot, luck); View() == o.store && rest == o.luck && end == o.end
    {
      var m := if metadata.Some? then metadata.value else Metadata(Single, "", 0);
      if m.phase != Single {
        return Finished, luck;
      }
      if m.legacy != "" {
        if m.legacy != robot {
          return Failed, luck;
        }
        return Finished, luck;
      }
      end, rest := Save(Metadata(Single, robot, 0), luck);
    }

    /** Binds the plan, makes it durable, and only then calls the profile migrated. */
    method CommitPlan(st: Startup, robot: string, plan: Plan, luck: Luck) returns (end: End, rest: Luck)
      requires Valid()
      modifies this, routes
      ensures Valid()
      ensures var o := Commit(old(View()), st, robot, plan, NOTHING, luck);
        View() == o.store && rest == o.luck && end == o.end
    {
      PlanOutcome(routes.Model(), robot, plan, routes.dirty);
      var bound := routes.BindPlan(robot, plan);
      if bound != Some(true) {
        return Failed, luck;
      }
      end, rest := FlushThenSave(st, robot, plan, luck);
    }

    method FlushThenSave(st: Startup, robot: string, plan: Plan, luck: Luck) returns (end: End, rest: Luck)
      requires Valid()
      modifies this, routes
      ensures Valid()
      ensures var o := FlushAndSave(old(View()), st, robot, plan, NOTHING, luck);
        View() == o.store && rest == o.luck && end == o.end
    {
      var flushed;
      flushed, rest := routes.Flush(true, luck);
      if flushed.value != Done {
        return EndOf(flushed.value), rest;
      }
      end, rest := Save(Metadata(Migrated, robot, |plan|), rest);
    }

    method ProtectReplacedSingleIdentity(st: Startup, previous: string, entries: seq<LegacySession>, luck: Luck)
      returns (end: End, rest: Luck)
      requires Valid()
      modifies this, routes
      ensures Valid()
      ensures var o := Protect(old(View()), st, previous, entries, NOTHING, luck);
        View() == o.store && rest == o.luck && end == o.end
    {
      if metadata.None? || metadata.value.phase != Single || metadata.value.legacy != previous {
        return Failed, luck;
      }
      var plan := FreezePlanFrom(entries);
      if plan.None? {
        return Failed, luck;
      }
      end, rest := CommitPlan(st, previous, plan.value, luck);
    }

    method ApplyLegacyPlan(st: Startup, robot: string, plan: Plan, luck: Luck) returns (end: End, rest: Luck)
      requires Valid()
      modifies this, routes
      ensures Valid()
      ensures var o := Apply(old(View()), st, robot, plan, NOTHING, luck);
        View() == o.store && rest == o.luck && end == o.end
    {
      end, rest := CommitPlan(st, robot, plan, luck);
      if end != Finished {
        return;
      }
      if rest.left > 0 {
        planDocument := Missing;
        rest := rest.Spent();
      } else if rest.crash {
        end := Dead;
      }
    }
  }

  lemma {:induction false} ReadableAppend(plan: Plan, p: PlannedRoute)
    ensures ReadablePart(plan + [p]) == ReadablePart(plan) + if Readable(p) then [p] else []
    decreases |plan|
  {
    if plan == [] {
      assert plan + [p] == [p];
    } else {
      ReadableAppend(plan[1..], p);
      assert (plan + [p])[1..] == plan[1..] + [p];
    }
  }
}
