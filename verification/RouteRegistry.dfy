/** `IdentityRouteRegistry` of identity.py: the maps, the chat index derived from them, and the snapshot files. */
module RouteRegistry {
  import opened Wrappers
  import opened OrderedDict
  import opened Routes
  import opened Snapshot
  import opened SnapshotFiles
  import opened RoutePlan

  // ---- the chat index as a function of the target map ----

  type ChatIndex = map<string, set<(ChatType, string)>>

  function Holders(targets: map<Target, string>, chatId: string): set<(ChatType, string)> {
    set t | t in targets && t.chatId == chatId :: (t.chatType, targets[t])
  }

  function ChatIds(targets: map<Target, string>): set<string> {
    set t | t in targets :: t.chatId
  }

  function IndexOf(targets: map<Target, string>): ChatIndex {
    map c | c in ChatIds(targets) :: Holders(targets, c)
  }

  function Held(index: ChatIndex, chatId: string): set<(ChatType, string)> {
    if chatId in index then index[chatId] else {}
  }

  lemma HasHolders(targets: map<Target, string>, c: string)
    ensures c in ChatIds(targets) <==> Holders(targets, c) != {}
  {
    if c in ChatIds(targets) {
      var u :| u in targets && u.chatId == c;
      assert (u.chatType, targets[u]) in Holders(targets, c);
    }
    if Holders(targets, c) != {} {
      var h :| h in Holders(targets, c);
    }
  }

  /** An index without empty entries that holds, chat by chat, the right pairs is the index of the map. */
  lemma IndexByHolders(targets: map<Target, string>, index: ChatIndex)
    requires forall c: string :: Held(index, c) == Holders(targets, c)
    requires forall c <- index :: index[c] != {}
    ensures index == IndexOf(targets)
  {
    forall c: string ensures c in index <==> c in ChatIds(targets) {
      HasHolders(targets, c);
      assert Held(index, c) == Holders(targets, c);
    }
    forall c | c in index ensures index[c] == IndexOf(targets)[c] {
      assert Held(index, c) == Holders(targets, c);
    }
  }

  lemma IndexHolds(targets: map<Target, string>, c: string)
    ensures Held(IndexOf(targets), c) == Holders(targets, c)
    ensures c in IndexOf(targets) ==> IndexOf(targets)[c] != {}
  {
    HasHolders(targets, c);
  }

  lemma HoldersGrow(targets: map<Target, string>, t: Target, robot: string, c: string)
    requires t !in targets
    ensures Holders(targets[t := robot], c) ==
      if c == t.chatId then Holders(targets, c) + {(t.chatType, robot)} else Holders(targets, c)
  {
    var m := targets[t := robot];
    forall u | u in targets && u.chatId == c ensures (u.chatType, targets[u]) in Holders(m, c) {
      assert u in m && m[u] == targets[u];
    }
  }

  lemma ForgottenInv(s: Routes, robot: string, t: Target)
    requires Inv(s) && Forgettable(s, robot, t)
    ensures Inv(Forget(s, t))
  {
    ForgetInv(s, robot, t);
  }

  lemma IndexGrows(targets: map<Target, string>, t: Target, robot: string)
    requires t !in targets
    ensures IndexOf(targets[t := robot]) ==
      IndexOf(targets)[t.chatId := Held(IndexOf(targets), t.chatId) + {(t.chatType, robot)}]
  {
    var index := IndexOf(targets)[t.chatId := Held(IndexOf(targets), t.chatId) + {(t.chatType, robot)}];
    forall c: string ensures Held(index, c) == Holders(targets[t := robot], c) && (c in index ==> index[c] != {}) {
      IndexHolds(targets, c);
      HoldersGrow(targets, t, robot, c);
    }
    IndexByHolders(targets[t := robot], index);
  }

  lemma HoldersShrink(targets: map<Target, string>, t: Target, c: string)
    requires t in targets
    ensures Holders(targets - {t}, c) ==
      if c == t.chatId then Holders(targets, c) - {(t.chatType, targets[t])} else Holders(targets, c)
  {
    var m := targets - {t};
    forall h | h in Holders(targets, c) && (c != t.chatId || h != (t.chatType, targets[t])) ensures h in Holders(m, c) {
      var u :| u in targets && u.chatId == c && h == (u.chatType, targets[u]);
      assert u in m && m[u] == targets[u];
    }
    forall h | h in Holders(m, c) ensures h in Holders(targets, c) && (c == t.chatId ==> h != (t.chatType, targets[t])) {
      var u :| u in m && u.chatId == c && h == (u.chatType, m[u]);
      assert u in targets && u != t;
    }
  }

  lemma IndexShrinks(targets: map<Target, string>, t: Target)
    requires t in targets
    ensures var left := Held(IndexOf(targets), t.chatId) - {(t.chatType, targets[t])};
      IndexOf(targets - {t}) ==
      if left == {} then IndexOf(targets) - {t.chatId} else IndexOf(targets)[t.chatId := left]
  {
    var left := Held(IndexOf(targets), t.chatId) - {(t.chatType, targets[t])};
    var index := if left == {} then IndexOf(targets) - {t.chatId} else IndexOf(targets)[t.chatId := left];
    forall c: string ensures Held(index, c) == Holders(targets - {t}, c) && (c in index ==> index[c] != {}) {
      IndexHolds(targets, c);
      HoldersShrink(targets, t, c);
    }
    IndexByHolders(targets - {t}, index);
  }

  /** The index holds one entry for a chat exactly when one target of the chat is bound. */
  lemma OneHolder(s: Routes, chatId: string, chatType: ChatType, robot: string)
    requires Shaped(s)
    ensures Holders(s.targets.items, chatId) == {(chatType, robot)} <==>
      var t := Target(chatType, chatId); Only(s, t) && s.targets.items[t] == robot
  {
    var t, hs := Target(chatType, chatId), Holders(s.targets.items, chatId);
    if hs == {(chatType, robot)} {
      assert (chatType, robot) in hs;
      forall u | u in s.targets.items && u.chatId == chatId ensures u == t {
        assert (u.chatType, s.targets.items[u]) in hs;
      }
    }
    if Only(s, t) && s.targets.items[t] == robot {
      assert (t.chatType, robot) in hs;
      forall h | h in hs ensures h == (chatType, robot) {
      }
    }
  }

  // ---- the registry ----

  /** A document the registry itself wrote. */
  ghost predicate Genuine(b: Body) {
    exists s :: Inv(s) && b == BodyOf(s)
  }

  ghost predicate GenuineFiles(f: Files<Body>) {
    && (f.primary.Stored? ==> Genuine(f.primary.body))
    && (f.backup.Stored? ==> Genuine(f.backup.body))
  }

  datatype ForgetResult = Forgotten(found: bool) | NotPersisted | Died

  class IdentityRouteRegistry {
    var sessionRoutes: Dict<string, string>
    var targetRoutes: Dict<Target, string>
    var sessionConflicts: set<string>
    var targetConflicts: set<Target>
    var chatIndex: ChatIndex
    var targetSessions: Dict<Target, set<string>>
    var channelTypes: map<Target, int>
    var wireIds: map<Target, string>
    var dirty: bool
    var flags: Flags
    var files: Files<Body>

    function Model(): Routes
      reads this
    {
      Routes(sessionRoutes, targetRoutes, targetSessions, channelTypes, wireIds, sessionConflicts, targetConflicts)
    }

    /** The index is exactly what the target map determines. */
    ghost predicate Indexed()
      reads this
    {
      chatIndex == IndexOf(targetRoutes.items)
    }

    ghost predicate Valid()
      reads this
    {
      Indexed() && Inv(Model()) && GenuineFiles(files)
    }

    constructor (files: Files<Body>)
      requires GenuineFiles(files)
      ensures Valid() && Model() == NoRoutes() && !dirty && flags == FRESH_FLAGS && this.files == files
    {
      sessionRoutes, targetRoutes, targetSessions := Empty(), Empty(), Empty();
      sessionConflicts, targetConflicts := {}, {};
      chatIndex, channelTypes, wireIds := map[], map[], map[];
      dirty, flags, this.files := false, FRESH_FLAGS, files;
    }

    // ---- binding ----

    method EvictOldestSession()
      modifies `sessionRoutes, `targetSessions
      ensures Model() == Evict(old(Model()))
    {
      if sessionRoutes.keys == [] {
        return;
      }
      var victim := sessionRoutes.keys[0];
      sessionRoutes := sessionRoutes.Remove(victim);
      targetSessions := Dict(targetSessions.keys,
                             map t | t in targetSessions.items :: targetSessions.items[t] - {victim});
    }

    /** Atomically claims a session and/or a target for a robot; None is the ValueError. */
    method Bind(q: Request) returns (r: Option<BindResult>)
      requires Valid()
      modifies this
      ensures Valid() && files == old(files) && flags == old(flags)
      ensures !q.Valid() ==> r.None? && Model() == old(Model()) && dirty == old(dirty)
      ensures q.Valid() ==>
        var c := Claim(old(Model()), q);
        r == Some(c.result) && Model() == c.routes && dirty == (old(dirty) || c.dirtied)
    {
      if !q.Valid() {
        return None;
      }
      BindInv(Model(), q);
      var result := BindLocked(q);
      return Some(result);
    }

    method BindLocked(q: Request) returns (r: BindResult)
      requires Indexed()
      modifies this
      ensures Indexed() && files == old(files) && flags == old(flags)
      ensures var c := Claim(old(Model()), q);
        r == c.result && Model() == c.routes && dirty == (old(dirty) || c.dirtied)
    {
      var wire := q.WireTarget();
      if (q.session != "" && q.session in sessionConflicts) || q.target in targetConflicts {
        return Conflict;
      }
      var clash := RecordClash(q);
      if clash {
        dirty := true;
        return Conflict;
      }
      var targetKnown := q.target in targetRoutes.items;
      var fillable := wire.Some? && q.target !in wireIds;
      if targetKnown && (q.session == "" || q.session in sessionRoutes.items) {
        if fillable {
          channelTypes := channelTypes[q.target := q.channel];
          wireIds := wireIds[q.target := wire.value];
          dirty := true;
          return Bound;
        }
        return Idempotent;
      }
      if !targetKnown && |targetRoutes.keys| >= MAX_ROUTES {
        return Capacity;
      }
      AddTargetRoute(q);
      if q.session != "" {
        LinkTo(q);
      }
      dirty := true;
      return Bound;
    }

    /**
     bind_plan: follows the plan entry by entry.  A refusal puts back what a snapshot of the
     registry restores; a ValueError (None) leaves the binds made so far in place.
     */
    method BindPlan(robot: string, plan: seq<PlannedRoute>) returns (r: Option<bool>)
      requires Valid()
      modifies this
      ensures Valid() && files == old(files) && flags == old(flags)
      ensures match FollowPlan(old(Model()), robot, plan, old(dirty))
              case Followed(s, d) => r == Some(true) && Model() == s && dirty == d
              case Refused => r == Some(false) && Model() == Restore(BodyOf(old(Model()))) && dirty == old(dirty)
              case Invalid(s, d) => r.None? && Model() == s && dirty == d
    {
      var previous, previousDirty := BodyLocked(), dirty;
      ghost var before, left := Model(), plan;
      for i := 0 to |plan|
        invariant Valid() && files == old(files) && flags == old(flags)
        invariant left == plan[i..] && FollowPlan(before, robot, plan, old(dirty)) == FollowPlan(Model(), robot, left, dirty)
      {
        var result := Bind(PlanRequest(robot, plan[i]));
        if result.None? {
          return None;
        }
        if result.value in {Conflict, Capacity} {
          PutBack(previous, previousDirty, before);
          return Some(false);
        }
        left := left[1..];
      }
      return Some(true);
    }

    method PutBack(previous: Body, previousDirty: bool, ghost before: Routes)
      requires Valid() && Inv(before) && previous == BodyOf(before)
      modifies this
      ensures Valid() && Model() == Restore(previous) && dirty == previousDirty
      ensures files == old(files) && flags == old(flags)
    {
      ApplyBody(previous, before);
      dirty := previousDirty;
    }

    /** The three ways a claim can contradict an earlier one, and the conflicts each leaves behind. */
    method RecordClash(q: Request) returns (clash: bool)
      modifies `targetConflicts, `sessionConflicts
      ensures clash == (SessionClash(old(Model()), q) || TargetClash(old(Model()), q) || WireClash(old(Model()), q))
      ensures Model() == if clash then MarkConflicts(old(Model()), q) else old(Model())
    {
      var targetKnown := q.target in targetRoutes.items;
      if q.session != "" && q.session in sessionRoutes.items && sessionRoutes.items[q.session] != q.robot {
        sessionConflicts := sessionConflicts + {q.session};
        if targetKnown && targetRoutes.items[q.target] != q.robot {
          ConflictTarget(q.target);
        }
        return true;
      }
      if targetKnown && targetRoutes.items[q.target] != q.robot {
        ConflictTarget(q.target);
        return true;
      }
      var wire := q.WireTarget();
      if targetKnown && q.target in wireIds && wire.Some? && wireIds[q.target] != wire.value {
        ConflictTarget(q.target);
        return true;
      }
      return false;
    }

    /** Marks a target, and every session linked to it, as conflicted. */
    method ConflictTarget(t: Target)
      modifies `targetConflicts, `sessionConflicts
      ensures targetConflicts == old(targetConflicts) + {t}
      ensures sessionConflicts == old(sessionConflicts) + LinkedTo(old(Model()), t)
    {
      targetConflicts := targetConflicts + {t};
      sessionConflicts := sessionConflicts + if t in targetSessions.items then targetSessions.items[t] else {};
    }

    /** The target part of a successful bind, with its entry in the chat index. */
    method AddTargetRoute(q: Request)
      requires Indexed()
      modifies `targetRoutes, `chatIndex, `channelTypes, `wireIds
      ensures Indexed() && Model() == ClaimTarget(old(Model()), q)
    {
      if q.target !in targetRoutes.items {
        IndexGrows(targetRoutes.items, q.target, q.robot);
        targetRoutes := targetRoutes.Put(q.target, q.robot);
        chatIndex := chatIndex[q.target.chatId := Held(chatIndex, q.target.chatId) + {(q.target.chatType, q.robot)}];
      }
      channelTypes := channelTypes[q.target := q.channel];
      var wire := q.WireTarget();
      if wire.Some? {
        wireIds := wireIds[q.target := wire.value];
      }
    }

    /** The session part: room for the session, then the session and its link. */
    method LinkTo(q: Request)
      modifies `sessionRoutes, `targetSessions
      ensures Model() == LinkSession(old(Model()), q)
    {
      while |sessionRoutes.keys| >= MAX_ROUTES
        invariant EvictWhileFull(Model()) == EvictWhileFull(old(Model()))
        decreases |sessionRoutes.keys|
      {
        RemoveFacts(sessionRoutes.keys, sessionRoutes.keys[0]);
        EvictOldestSession();
      }
      sessionRoutes := sessionRoutes.Put(q.session, q.robot);
      var linked := if q.target in targetSessions.items then targetSessions.items[q.target] else {};
      targetSessions := targetSessions.Put(q.target, linked + {q.session});
    }

    // ---- resolution ----

    method RobotIdForSession(k: string) returns (r: Option<string>)
      ensures r == RobotForSession(Model(), k)
    {
      if k == "" || k in sessionConflicts {
        return None;
      }
      return if k in sessionRoutes.items then Some(sessionRoutes.items[k]) else None;
    }

    method RobotIdForTarget(t: Target) returns (r: Option<string>)
      ensures r == RobotForTarget(Model(), t)
    {
      if t in targetConflicts {
        return None;
      }
      return if t in targetRoutes.items then Some(targetRoutes.items[t]) else None;
    }

    /** Resolution through the index gives what a search through all bound targets would give. */
    method LookupChatId(chatId: string) returns (r: Option<TargetLookup>)
      requires Valid()
      ensures r == LookupChat(Model(), chatId)
    {
      if chatId !in chatIndex || |chatIndex[chatId]| != 1 {
        NotOneHolder(Model(), chatId);
        return None;
      }
      var holder :| holder in chatIndex[chatId];
      SingleElement(chatIndex[chatId], holder);
      var (chatType, robot) := holder;
      OneHolder(Model(), chatId, chatType, robot);
      var t := Target(chatType, chatId);
      OnlyIsFound(Model(), t);
      if t in targetConflicts || t !in channelTypes || t !in wireIds {
        return None;
      }
      return Some(TargetLookup(chatType, channelTypes[t], robot, wireIds[t]));
    }

    method ChatIdHasState(chatId: string) returns (r: bool)
      requires Valid()
      ensures r == ChatHasState(Model(), chatId)
    {
      var bound := chatId in chatIndex && chatIndex[chatId] != {};
      assert bound <==> exists t <- targetRoutes.items :: t.chatId == chatId by {
        HoldersExist(targetRoutes.items, chatId);
      }
      return bound || exists t <- targetConflicts :: t.chatId == chatId;
    }

    // ---- persistence ----

    function BodyLocked(): Body
      requires Valid()
      reads this
    {
      BodyOf(Model())
    }

    method WriteSnapshotFiles(body: Body, luck: Luck) returns (fate: Fate, rest: Luck)
      requires Valid() && Genuine(body)
      modifies `files, `flags
      ensures Valid()
      ensures var w := WriteSnapshot(old(files), old(flags), body, luck);
        files == w.files && flags == w.flags && fate == w.fate && rest == w.luck
    {
      rest := luck;
      if !files.primary.Missing? && !flags.restoredFromBackup && !flags.snapshotCorrupt {
        if rest.left == 0 {
          return rest.Fate(), rest;
        }
        files, rest := Files(Missing, files.primary), rest.Spent();
      }
      if rest.left == 0 {
        return rest.Fate(), rest;
      }
      files, rest := files.(primary := Stored(body)), rest.Spent();
      flags := FRESH_FLAGS;
      return Done, rest;
    }

    /** The locked section of flush: the body to write, taken as the maps are now; None when there is nothing to do. */
    method TakeBody(force: bool) returns (body: Option<Body>)
      requires Valid()
      modifies `dirty
      ensures Valid() && !dirty
      ensures body == if old(dirty) || force then Some(BodyOf(Model())) else None
    {
      if !dirty && !force {
        return None;
      }
      dirty := false;
      return Some(BodyLocked());
    }

    /** The rest of flush: writes a body taken before, whatever the maps have become; dirty again when the write raises. */
    method WriteTaken(body: Body, luck: Luck) returns (fate: Fate, rest: Luck)
      requires Valid() && Genuine(body)
      modifies `files, `flags, `dirty
      ensures Valid()
      ensures var w := WriteSnapshot(old(files), old(flags), body, luck);
        fate == w.fate && rest == w.luck && files == w.files && flags == w.flags && dirty == (old(dirty) || w.fate == Raised)
    {
      fate, rest := WriteSnapshotFiles(body, luck);
      if fate == Raised {
        dirty := true;
      }
    }

    /** flush(force), when nothing comes in between. */
    method Flush(force: bool, luck: Luck) returns (fate: Option<Fate>, rest: Luck)
      requires Valid()
      modifies this
      ensures Valid() && Model() == old(Model())
      ensures (!old(dirty) && !force) ==>
        fate.None? && rest == luck && files == old(files) && flags == old(flags) && dirty == old(dirty)
      ensures (old(dirty) || force) ==>
        var w := WriteSnapshot(old(files), old(flags), BodyOf(old(Model())), luck);
        fate == Some(w.fate) && rest == w.luck && files == w.files && flags == w.flags && dirty == (w.fate == Raised)
    {
      var body := TakeBody(force);
      if body.None? {
        return None, luck;
      }
      var f;
      f, rest := WriteTaken(body.value, luck);
      return Some(f), rest;
    }

    /** forget_target: removes one exact route and persists that before anyone can claim it again. */
    method ForgetTarget(robot: string, t: Target, luck: Luck) returns (r: Option<ForgetResult>)
      requires Valid()
      modifies this
      ensures Valid()
      ensures r.None? <==> !ValidRobot(robot) || t.chatId == ""
      ensures r.None? || r == Some(Forgotten(false)) ==>
        Model() == old(Model()) && files == old(files) && flags == old(flags) && dirty == old(dirty)
      ensures r.Some? ==> (r == Some(Forgotten(false)) <==> !Forgettable(old(Model()), robot, t))
      ensures r.Some? && r != Some(Forgotten(false)) ==>
        var forgot := Forget(old(Model()), t);
        && Shaped(forgot)
        && var w := WriteSnapshot(old(files), old(flags), BodyOf(forgot), luck);
        && files == w.files && flags == w.flags
        && (w.fate == Done ==> r == Some(Forgotten(true)) && Model() == forgot && !dirty)
        && (w.fate == Raised ==> r == Some(NotPersisted) && Model() == Restore(BodyOf(old(Model()))) && dirty == old(dirty))
        && (w.fate == Crashed ==> r == Some(Died))
    {
      if !ValidRobot(robot) || t.chatId == "" {
        return None;
      }
      if t in targetConflicts || t !in targetRoutes.items || targetRoutes.items[t] != robot {
        return Some(Forgotten(false));
      }
      var linked := if t in targetSessions.items then targetSessions.items[t] else {};
      if exists k <- linked :: k in sessionConflicts {
        return Some(Forgotten(false));
      }
      var result := RemoveDurably(robot, t, linked, luck);
      return Some(result);
    }

    /** The removal and its write; a write that raises puts the maps back as a snapshot of them restores them. */
    method RemoveDurably(robot: string, t: Target, linked: set<string>, luck: Luck) returns (r: ForgetResult)
      requires Valid() && Forgettable(Model(), robot, t) && linked == LinkedTo(Model(), t)
      modifies this
      ensures Valid()
      ensures var forgot := Forget(old(Model()), t);
        && Shaped(forgot)
        && var w := WriteSnapshot(old(files), old(flags), BodyOf(forgot), luck);
        && files == w.files && flags == w.flags
        && (w.fate == Done ==> r == Forgotten(true) && Model() == forgot && !dirty)
        && (w.fate == Raised ==> r == NotPersisted && Model() == Restore(BodyOf(old(Model()))) && dirty == old(dirty))
        && (w.fate == Crashed ==> r == Died)
    {
      ghost var before := Model();
      var previous, previousDirty := BodyLocked(), dirty;
      RemoveSoundly(robot, t, linked);
      r := PersistOrRestore(previous, previousDirty, luck, before);
    }

    method RemoveSoundly(robot: string, t: Target, linked: set<string>)
      requires Valid() && Forgettable(Model(), robot, t) && linked == LinkedTo(Model(), t)
      modifies this
      ensures Valid() && Model() == Forget(old(Model()), t) && Shaped(Model())
      ensures files == old(files) && flags == old(flags) && dirty == old(dirty)
    {
      ghost var forgot := Forget(Model(), t);
      ForgottenInv(Model(), robot, t);
      RemoveTarget(robot, t, linked);
      assert Model() == forgot;
    }

    method PersistOrRestore(previous: Body, previousDirty: bool, luck: Luck, ghost before: Routes) returns (r: ForgetResult)
      requires Valid() && Inv(before) && previous == BodyOf(before)
      modifies this
      ensures Valid()
      ensures var w := WriteSnapshot(old(files), old(flags), BodyOf(old(Model())), luck);
        && files == w.files && flags == w.flags
        && (w.fate == Done ==> r == Forgotten(true) && Model() == old(Model()) && !dirty)
        && (w.fate == Raised ==> r == NotPersisted && Model() == Restore(previous) && dirty == previousDirty)
        && (w.fate == Crashed ==> r == Died)
    {
      var fate, rest := WriteSnapshotFiles(BodyLocked(), luck);
      if fate == Done {
        dirty := false;
        return Forgotten(true);
      } else if fate == Raised {
        PutBack(previous, previousDirty, before);
        return NotPersisted;
      }
      return Died;
    }

    /** Takes one target, its index entry and the sessions that only it linked out of the maps. */
    method RemoveTarget(robot: string, t: Target, linked: set<string>)
      requires Indexed() && t in targetRoutes.items && targetRoutes.items[t] == robot
      requires linked == LinkedTo(Model(), t)
      modifies `targetRoutes, `targetSessions, `channelTypes, `wireIds, `chatIndex, `sessionRoutes
      ensures Indexed() && Model() == Forget(old(Model()), t)
    {
      IndexShrinks(targetRoutes.items, t);
      targetRoutes := targetRoutes.Remove(t);
      targetSessions := targetSessions.Remove(t);
      channelTypes := channelTypes - {t};
      wireIds := wireIds - {t};
      if t.chatId in chatIndex {
        var holders := chatIndex[t.chatId] - {(t.chatType, robot)};
        chatIndex := if holders == {} then chatIndex - {t.chatId} else chatIndex[t.chatId := holders];
      }
      var orphans := set k | k in linked && forall u <- targetSessions.items :: k !in targetSessions.items[u];
      assert forall u :: u in targetSessions.items <==> u in old(targetSessions).items && u != t;
      assert orphans == Orphans(old(Model()), t);
      sessionRoutes := RemoveAll(sessionRoutes, orphans);
    }

    /** load: the current snapshot, else the previous one, else nothing. */
    method Load()
      requires Valid() && Model() == NoRoutes() && flags == FRESH_FLAGS && !dirty
      modifies this
      ensures Valid() && files == old(files) && flags == LoadFlags(files) && !dirty
      ensures Model() == match Recoverable(files) case None => NoRoutes() case Some(b) => Restore(b)
    {
      var body: Option<Body> := None;
      if files.primary.Stored? {
        body := Some(files.primary.body);
      } else if files.backup.Stored? {
        flags := flags.(restoredFromBackup := true);
        body := Some(files.backup.body);
      } else if !(files.primary.Missing? && files.backup.Missing?) {
        flags := flags.(snapshotCorrupt := true);
      }
      if body.Some? {
        ghost var from :| Inv(from) && body.value == BodyOf(from);
        ApplyBody(body.value, from);
      }
    }

    /** Rebuilds every map from a snapshot, and the chat index target by target. */
    method ApplyBody(body: Body, ghost from: Routes)
      requires GenuineFiles(files) && Inv(from) && body == BodyOf(from)
      modifies this
      ensures Valid() && Model() == Restore(body) && !dirty
      ensures files == old(files) && flags == old(flags)
    {
      RoundTrip(from);
      RebuildMaps(body, from);
      dirty := false;
    }

    method RebuildMaps(body: Body, ghost from: Routes)
      requires Inv(from) && body == BodyOf(from)
      modifies `sessionRoutes, `targetRoutes, `targetSessions, `sessionConflicts, `targetConflicts,
               `chatIndex, `channelTypes, `wireIds
      ensures Indexed() && Model() == Restore(body)
    {
      sessionRoutes, targetRoutes, targetSessions := Empty(), Empty(), Empty();
      sessionConflicts, targetConflicts := {}, {};
      chatIndex, channelTypes, wireIds := map[], map[], map[];
      ApplySessions(body.sessions);
      ghost var base := Model();
      ApplyTargets(body.targets, from, base);
      sessionConflicts := set k | k in body.sessionConflicts && k != "";
      targetConflicts := set t | t in body.targetConflicts && t.chatId != "";
    }

    method ApplySessions(records: seq<SessionRecord>)
      requires Model() == NoRoutes()
      modifies `sessionRoutes, `targetSessions
      ensures Model() == AddSessions(NoRoutes(), records)
      ensures Model() == NoRoutes().(sessions := sessionRoutes, links := targetSessions)
    {
      for i := 0 to |records|
        invariant Model() == AddSessions(NoRoutes(), records[..i])
        invariant Model() == NoRoutes().(sessions := sessionRoutes, links := targetSessions)
      {
        var r := records[i];
        AddSessionsAppend(NoRoutes(), records[..i], r);
        assert records[..i + 1] == records[..i] + [r];
        if r.key != "" && ValidRobot(r.robot) {
          sessionRoutes := sessionRoutes.Put(r.key, r.robot);
          if r.target.Some? && r.target.value.chatId != "" {
            var linked := if r.target.value in targetSessions.items then targetSessions.items[r.target.value] else {};
            targetSessions := targetSessions.Put(r.target.value, linked + {r.key});
          }
        }
      }
      assert records[..|records|] == records;
    }

    method ApplyTargets(records: seq<TargetRecord>, ghost from: Routes, ghost base: Routes)
      requires Inv(from) && records == TargetRecords(from, from.targets.keys)
      requires Model() == base && base == NoRoutes().(sessions := base.sessions, links := base.links) && chatIndex == map[]
      modifies `targetRoutes, `channelTypes, `wireIds, `chatIndex
      ensures Model() == AddTargets(base, records)
      ensures Indexed()
    {
      RecordCount(from, from.targets.keys);
      for i := 0 to |records|
        invariant Model() == AddTargets(base, records[..i])
        invariant Indexed()
      {
        NextTarget(from, base, i);
        AddTargetsAppend(base, records[..i], records[i]);
        assert records[..i + 1] == records[..i] + [records[i]];
        ApplyTarget(records[i]);
      }
      assert records[..|records|] == records;
    }

    method ApplyTarget(r: TargetRecord)
      requires Indexed() && r.target !in targetRoutes.items
      modifies `targetRoutes, `channelTypes, `wireIds, `chatIndex
      ensures Model() == AddTarget(old(Model()), r)
      ensures Indexed()
    {
      var t := r.target;
      var wire := match r.wire case NoField => Some(t.chatId) case Null => None case Text(w) => Some(w);
      var known := match r.known
        case None => !(t.chatType == Dm && wire == Some(t.chatId))
        case Some(b) => b;
      if t.chatId != "" && ValidRobot(r.robot) && ValidChannel(r.channel) && (wire.Some? ==> ValidWire(wire.value)) {
        IndexGrows(targetRoutes.items, t, r.robot);
        targetRoutes := targetRoutes.Put(t, r.robot);
        channelTypes := channelTypes[t := r.channel];
        if known && wire.Some? {
          wireIds := wireIds[t := wire.value];
        }
        chatIndex := chatIndex[t.chatId := Held(chatIndex, t.chatId) + {(t.chatType, r.robot)}];
      }
    }
  }

  lemma SingleElement<T>(s: set<T>, x: T)
    requires |s| == 1 && x in s
    ensures s == {x}
  {
    assert |s - {x}| == 0;
  }

  lemma NotOneHolder(s: Routes, chatId: string)
    requires Inv(s) && (chatId !in IndexOf(s.targets.items) || |IndexOf(s.targets.items)[chatId]| != 1)
    ensures LookupChat(s, chatId).None?
  {
    if LookupChat(s, chatId).Some? {
      var l := LookupChat(s, chatId).value;
      LookupChatIsUnique(s, chatId, l);
      OneHolder(s, chatId, l.chatType, l.robot);
      assert false;
    }
  }

  /** The search finds the only target of a chat, and answers when it can be used. */
  lemma OnlyIsFound(s: Routes, t: Target)
    requires Inv(s) && Only(s, t)
    ensures LookupChat(s, t.chatId) ==
      if t in s.targetConflicts || t !in s.wires then None
      else Some(TargetLookup(t.chatType, s.channels[t], s.targets.items[t], s.wires[t]))
  {
    if LookupChat(s, t.chatId).Some? {
      var l := LookupChat(s, t.chatId).value;
      LookupChatIsUnique(s, t.chatId, l);
    }
    if t !in s.targetConflicts && t in s.wires {
      LookupChatIsUnique(s, t.chatId, TargetLookup(t.chatType, s.channels[t], s.targets.items[t], s.wires[t]));
    }
  }

  lemma HoldersExist(targets: map<Target, string>, chatId: string)
    ensures chatId in IndexOf(targets) && IndexOf(targets)[chatId] != {} <==> exists t <- targets :: t.chatId == chatId
  {
    if t: Target :| t in targets && t.chatId == chatId {
      assert (t.chatType, targets[t]) in Holders(targets, chatId);
    }
  }

  lemma {:induction false} RecordsOfKeys(s: Routes, keys: seq<Target>)
    requires forall t <- keys :: t in s.targets.items && t in s.channels
    ensures var rs := TargetRecords(s, keys);
      |rs| == |keys| && forall i :: 0 <= i < |keys| ==> rs[i] == RecordOf(s, keys[i])
    decreases |keys|
  {
    if keys != [] {
      RecordsOfKeys(s, keys[..|keys| - 1]);
    }
  }

  lemma RecordsOfPrefix(s: Routes, keys: seq<Target>, i: nat)
    requires i <= |keys| && forall t <- keys :: t in s.targets.items && t in s.channels
    ensures |TargetRecords(s, keys)| == |keys| && TargetRecords(s, keys)[..i] == TargetRecords(s, keys[..i])
  {
    RecordsOfKeys(s, keys);
    RecordsOfKeys(s, keys[..i]);
  }

  lemma RecordCount(s: Routes, keys: seq<Target>)
    requires forall t <- keys :: t in s.targets.items && t in s.channels
    ensures |TargetRecords(s, keys)| == |keys|
  {
    RecordsOfKeys(s, keys);
  }

  /** The next target of a genuine snapshot has not been restored yet. */
  lemma NextTarget(s: Routes, base: Routes, i: nat)
    requires Inv(s) && i < |s.targets.keys|
    requires base == NoRoutes().(sessions := base.sessions, links := base.links)
    ensures var rs := TargetRecords(s, s.targets.keys);
      |rs| == |s.targets.keys| && rs[i].target !in AddTargets(base, rs[..i]).targets.items
  {
    var keys := s.targets.keys;
    RecordsOfKeys(s, keys);
    RecordsOfPrefix(s, keys, i);
    assert Distinct(keys[..i]) && forall t <- keys[..i] :: t in keys;
    TargetsRoundTrip(s, base, keys[..i]);
  }
}
