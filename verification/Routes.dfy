/**
 The route registry of identity.py as a value: which bot owns which session and which target,
 what links them, and which of them are in conflict.  The derived chat index is not here: the
 class in RouteRegistry.dfy keeps it, and is proved to agree with these maps.
 */
module Routes {
  import opened Wrappers
  import opened OrderedDict

  const MAX_ROUTES := 4096

  datatype ChatType = Dm | Group

  datatype Target = Target(chatType: ChatType, chatId: string)

  predicate Alphanumeric(c: char) { 'A' <= c <= 'Z' || 'a' <= c <= 'z' || '0' <= c <= '9' }

  predicate ValidRobot(r: string) {
    1 <= |r| <= 128 && forall c <- r :: Alphanumeric(c) || c in "_.:@-"
  }

  predicate ValidWire(w: string) {
    1 <= |w| <= 128 && forall c <- w :: Alphanumeric(c) || c in "_@:-"
  }

  predicate ValidChannel(c: int) { c == 1 || c == 2 || c == 5 }

  datatype Routes = Routes(
    sessions: Dict<string, string>,
    targets: Dict<Target, string>,
    links: Dict<Target, set<string>>,
    channels: map<Target, int>,
    wires: map<Target, string>,
    sessionConflicts: set<string>,
    targetConflicts: set<Target>)

  function NoRoutes(): Routes {
    Routes(Empty(), Empty(), Empty(), map[], map[], {}, {})
  }

  // ---- the invariant ----

  predicate Linked(s: Routes, t: Target, k: string) {
    t in s.links.items && k in s.links.items[t]
  }

  function LinkedTo(s: Routes, t: Target): set<string> {
    if t in s.links.items then s.links.items[t] else {}
  }

  ghost predicate Shaped(s: Routes) {
    && s.sessions.Valid() && s.targets.Valid() && s.links.Valid()
    && |s.sessions.keys| <= MAX_ROUTES && |s.targets.keys| <= MAX_ROUTES
    && s.channels.Keys == s.targets.items.Keys
    && s.wires.Keys <= s.targets.items.Keys
  }

  /** Everything in the maps would pass the checks made on the way in. */
  ghost predicate Clean(s: Routes) {
    && (forall k <- s.sessions.items :: k != "" && ValidRobot(s.sessions.items[k]))
    && (forall t <- s.targets.items :: t.chatId != "" && ValidRobot(s.targets.items[t]))
    && (forall t <- s.channels :: ValidChannel(s.channels[t]))
    && (forall t <- s.wires :: ValidWire(s.wires[t]))
    && "" !in s.sessionConflicts
  }

  /** A session linked to a target is bound to the same robot as that target. */
  ghost predicate LinksAgree(s: Routes) {
    forall t, k :: Linked(s, t, k) ==>
      k in s.sessions.items && t in s.targets.items && s.sessions.items[k] == s.targets.items[t]
  }

  /** A conflicted target is still bound, and everything linked to it is conflicted too. */
  ghost predicate ConflictsHeld(s: Routes) {
    && s.targetConflicts <= s.targets.items.Keys
    && forall t, k :: t in s.targetConflicts && Linked(s, t, k) ==> k in s.sessionConflicts
  }

  ghost predicate Inv(s: Routes) {
    Shaped(s) && Clean(s) && LinksAgree(s) && ConflictsHeld(s)
  }

  lemma NoRoutesInv()
    ensures Inv(NoRoutes())
  {
  }

  // ---- bind ----

  datatype BindResult = Bound | Idempotent | Conflict | Capacity

  /** The arguments of one bind; the empty session stands for None. */
  datatype Request = Request(robot: string, session: string, target: Target, channel: int,
                             wireChatId: Option<string>, wireKnown: bool)
  {
    function WireTarget(): Option<string> {
      if !wireKnown then None
      else if wireChatId.None? then Some(target.chatId)
      else wireChatId
    }

    /** The checks that end in a ValueError when they fail. */
    predicate Valid() {
      && ValidRobot(robot) && target.chatId != "" && ValidChannel(channel)
      && (WireTarget().Some? ==> ValidWire(WireTarget().value))
    }
  }

  predicate AlreadyConflicted(s: Routes, q: Request) {
    (q.session != "" && q.session in s.sessionConflicts) || q.target in s.targetConflicts
  }

  predicate SessionClash(s: Routes, q: Request) {
    q.session != "" && q.session in s.sessions.items && s.sessions.items[q.session] != q.robot
  }

  predicate TargetClash(s: Routes, q: Request) {
    q.target in s.targets.items && s.targets.items[q.target] != q.robot
  }

  predicate WireClash(s: Routes, q: Request) {
    && q.target in s.targets.items && q.target in s.wires
    && q.WireTarget().Some? && s.wires[q.target] != q.WireTarget().value
  }

  /** The claims a clash turns into permanent conflicts. */
  function MarkConflicts(s: Routes, q: Request): Routes {
    var target := TargetClash(s, q) || (!SessionClash(s, q) && WireClash(s, q));
    s.(sessionConflicts := s.sessionConflicts
         + (if SessionClash(s, q) then {q.session} else {})
         + (if target then LinkedTo(s, q.target) else {}),
       targetConflicts := s.targetConflicts + (if target then {q.target} else {}))
  }

  function Unlinked(links: Dict<Target, set<string>>, k: string): (d: Dict<Target, set<string>>)
    ensures links.Valid() ==> d.Valid()
    ensures d.items.Keys == links.items.Keys
    ensures forall t <- d.items :: d.items[t] == links.items[t] - {k}
  {
    Dict(links.keys, map t | t in links.items :: links.items[t] - {k})
  }

  /** Room for one more session: the oldest one goes, wherever it is linked. */
  function Evict(s: Routes): Routes {
    if s.sessions.keys == [] then s else
    var victim := s.sessions.keys[0];
    s.(sessions := s.sessions.Remove(victim), links := Unlinked(s.links, victim))
  }

  function EvictWhileFull(s: Routes): Routes
    decreases |s.sessions.keys|
  {
    if |s.sessions.keys| < MAX_ROUTES then s else
    RemoveFacts(s.sessions.keys, s.sessions.keys[0]);
    EvictWhileFull(Evict(s))
  }

  function LinkSession(s: Routes, q: Request): Routes {
    var e := EvictWhileFull(s);
    e.(sessions := e.sessions.Put(q.session, q.robot),
       links := e.links.Put(q.target, LinkedTo(e, q.target) + {q.session}))
  }

  function ClaimTarget(s: Routes, q: Request): Routes {
    s.(targets := if q.target in s.targets.items then s.targets else s.targets.Put(q.target, q.robot),
       channels := s.channels[q.target := q.channel],
       wires := match q.WireTarget() case None => s.wires case Some(w) => s.wires[q.target := w])
  }

  /** The outcome of one bind with valid arguments, and whether the registry became dirty. */
  datatype Claimed = Claimed(result: BindResult, routes: Routes, dirtied: bool)

  function Claim(s: Routes, q: Request): Claimed {
    if AlreadyConflicted(s, q) then Claimed(Conflict, s, false)
    else if SessionClash(s, q) || TargetClash(s, q) || WireClash(s, q) then Claimed(Conflict, MarkConflicts(s, q), true)
    else if q.target in s.targets.items && (q.session == "" || q.session in s.sessions.items) then
      if q.WireTarget().Some? && q.target !in s.wires then
        Claimed(Bound, ClaimTarget(s, q), true)
      else Claimed(Idempotent, s, false)
    else if q.target !in s.targets.items && |s.targets.keys| >= MAX_ROUTES then Claimed(Capacity, s, false)
    else
      var claimed := ClaimTarget(s, q);
      Claimed(Bound, if q.session == "" then claimed else LinkSession(claimed, q), true)
  }

  // ---- the invariant is kept ----

  lemma EvictInv(s: Routes)
    requires Inv(s)
    ensures Inv(Evict(s))
    ensures var e := Evict(s);
      && e.targets == s.targets && e.channels == s.channels && e.wires == s.wires
      && e.sessionConflicts == s.sessionConflicts && e.targetConflicts == s.targetConflicts
    ensures forall t, k :: Linked(Evict(s), t, k) ==> Linked(s, t, k)
  {
    if s.sessions.keys != [] {
      var e, victim := Evict(s), s.sessions.keys[0];
      assert victim in s.sessions.items;
      forall t, k | Linked(e, t, k) ensures Linked(s, t, k) && k != victim {
      }
    }
  }

  lemma {:induction false} EvictWhileFullInv(s: Routes)
    requires Inv(s)
    ensures var e := EvictWhileFull(s);
      && Inv(e) && |e.sessions.keys| < MAX_ROUTES
      && e.targets == s.targets && e.channels == s.channels && e.wires == s.wires
      && e.sessionConflicts == s.sessionConflicts && e.targetConflicts == s.targetConflicts
      && forall t, k :: Linked(e, t, k) ==> Linked(s, t, k)
    decreases |s.sessions.keys|
  {
    if |s.sessions.keys| >= MAX_ROUTES {
      RemoveFacts(s.sessions.keys, s.sessions.keys[0]);
      EvictInv(s);
      EvictWhileFullInv(Evict(s));
    }
  }

  lemma ClaimTargetInv(s: Routes, q: Request)
    requires Inv(s) && q.Valid() && !TargetClash(s, q)
    requires q.target in s.targets.items || |s.targets.keys| < MAX_ROUTES
    ensures Inv(ClaimTarget(s, q))
    ensures ClaimTarget(s, q).targets.items == s.targets.items[q.target := q.robot]
  {
    var c := ClaimTarget(s, q);
    forall t, k | Linked(c, t, k) ensures Linked(s, t, k) {
    }
  }

  lemma LinkSessionLinks(s: Routes, q: Request, t: Target, k: string)
    ensures Linked(LinkSession(s, q), t, k) <==> Linked(EvictWhileFull(s), t, k) || (t == q.target && k == q.session)
  {
  }

  lemma LinkSessionInv(s: Routes, q: Request)
    requires Inv(s) && q.Valid() && q.session != ""
    requires q.target in s.targets.items && s.targets.items[q.target] == q.robot
    requires !AlreadyConflicted(s, q) && !SessionClash(s, q)
    ensures Inv(LinkSession(s, q))
    ensures var l := LinkSession(s, q);
      && l.targets == s.targets && l.sessionConflicts == s.sessionConflicts && l.targetConflicts == s.targetConflicts
      && q.session in l.sessions.items && l.sessions.items[q.session] == q.robot && Linked(l, q.target, q.session)
  {
    EvictWhileFullInv(s);
    SessionsOnlyEvicted(s);
    var e, l := EvictWhileFull(s), LinkSession(s, q);
    forall t, k
      ensures Linked(l, t, k) <==> Linked(e, t, k) || (t == q.target && k == q.session)
    {
      LinkSessionLinks(s, q, t, k);
    }
    assert LinksAgree(l);
  }

  lemma {:induction false} SessionsOnlyEvicted(s: Routes)
    ensures forall k :: k in EvictWhileFull(s).sessions.items ==>
      k in s.sessions.items && EvictWhileFull(s).sessions.items[k] == s.sessions.items[k]
    decreases |s.sessions.keys|
  {
    if |s.sessions.keys| >= MAX_ROUTES {
      RemoveFacts(s.sessions.keys, s.sessions.keys[0]);
      SessionsOnlyEvicted(Evict(s));
    }
  }

  lemma MarkConflictsInv(s: Routes, q: Request)
    requires Inv(s)
    requires SessionClash(s, q) || TargetClash(s, q) || WireClash(s, q)
    ensures Inv(MarkConflicts(s, q))
  {
    var m := MarkConflicts(s, q);
    assert forall t, k :: Linked(m, t, k) <==> Linked(s, t, k);
    assert forall k <- LinkedTo(s, q.target) :: Linked(s, q.target, k);
  }

  /** Every bind with valid arguments keeps the invariant. */
  lemma BindInv(s: Routes, q: Request)
    requires Inv(s) && q.Valid()
    ensures Inv(Claim(s, q).routes)
  {
    if AlreadyConflicted(s, q) {
    } else if SessionClash(s, q) || TargetClash(s, q) || WireClash(s, q) {
      MarkConflictsInv(s, q);
    } else if q.target in s.targets.items || |s.targets.keys| < MAX_ROUTES {
      ClaimTargetInv(s, q);
      var c := ClaimTarget(s, q);
      if q.session != "" && !(q.target in s.targets.items && q.session in s.sessions.items) {
        LinkSessionInv(c, q);
      }
    }
  }

  /**
   No bind takes a target away or gives it to another robot, conflicts only grow, and the only
   target that can be new is the one asked for.
   */
  lemma BindKeepsOwners(s: Routes, q: Request)
    requires Inv(s) && q.Valid()
    ensures var r := Claim(s, q).routes;
      && (forall t <- s.targets.items :: t in r.targets.items && r.targets.items[t] == s.targets.items[t])
      && (forall t <- r.targets.items :: t in s.targets.items || t == q.target)
      && s.sessionConflicts <= r.sessionConflicts && s.targetConflicts <= r.targetConflicts
  {
    if !AlreadyConflicted(s, q) && !SessionClash(s, q) && !TargetClash(s, q) && !WireClash(s, q) {
      if q.target in s.targets.items || |s.targets.keys| < MAX_ROUTES {
        ClaimTargetInv(s, q);
        EvictWhileFullInv(ClaimTarget(s, q));
      }
    }
  }

  /** A bind that answers "bound" or "idempotent" leaves the robot owning the target and the session. */
  lemma BindSucceeds(s: Routes, q: Request)
    requires Inv(s) && q.Valid() && Claim(s, q).result in {Bound, Idempotent}
    ensures var r := Claim(s, q).routes;
      && q.target in r.targets.items && r.targets.items[q.target] == q.robot && q.target !in r.targetConflicts
      && (q.session != "" ==>
          q.session in r.sessions.items && r.sessions.items[q.session] == q.robot && q.session !in r.sessionConflicts)
  {
    if q.target in s.targets.items || |s.targets.keys| < MAX_ROUTES {
      ClaimTargetInv(s, q);
      var c := ClaimTarget(s, q);
      if q.session != "" && !(q.target in s.targets.items && q.session in s.sessions.items) {
        LinkSessionInv(c, q);
      }
    }
  }

  /** A bind that clashes leaves the session or the target it claimed in conflict for good. */
  lemma BindConflicts(s: Routes, q: Request)
    requires Inv(s) && Claim(s, q).result == Conflict
    ensures AlreadyConflicted(Claim(s, q).routes, q)
  {
  }

  // ---- forget_target ----

  predicate Forgettable(s: Routes, robot: string, t: Target) {
    && t !in s.targetConflicts
    && t in s.targets.items && s.targets.items[t] == robot
    && LinkedTo(s, t) !! s.sessionConflicts
  }

  /** Sessions whose only link was to the forgotten target. */
  function Orphans(s: Routes, t: Target): set<string> {
    set k | k in LinkedTo(s, t) && forall u <- s.links.items :: u != t ==> k !in s.links.items[u]
  }

  function RemoveAll<V>(d: Dict<string, V>, ks: set<string>): (r: Dict<string, V>)
    ensures r.items == d.items - ks
  {
    Dict(Filtered(d.keys, ks), d.items - ks)
  }

  function Filtered(keys: seq<string>, ks: set<string>): seq<string> {
    if keys == [] then [] else
    if keys[0] in ks then Filtered(keys[1..], ks) else [keys[0]] + Filtered(keys[1..], ks)
  }

  function Forget(s: Routes, t: Target): Routes {
    s.(targets := s.targets.Remove(t),
       links := s.links.Remove(t),
       channels := s.channels - {t},
       wires := s.wires - {t},
       sessions := RemoveAll(s.sessions, Orphans(s, t)))
  }

  lemma {:induction false} FilteredFacts(keys: seq<string>, ks: set<string>)
    ensures forall k :: k in Filtered(keys, ks) <==> k in keys && k !in ks
    ensures |Filtered(keys, ks)| <= |keys|
    ensures (forall i, j :: 0 <= i < j < |keys| ==> keys[i] != keys[j]) ==>
      forall i, j :: 0 <= i < j < |Filtered(keys, ks)| ==> Filtered(keys, ks)[i] != Filtered(keys, ks)[j]
    decreases |keys|
  {
    if keys != [] {
      var tail := keys[1..];
      assert keys == [keys[0]] + tail;
      FilteredFacts(tail, ks);
      if forall i, j :: 0 <= i < j < |keys| ==> keys[i] != keys[j] {
        assert keys[0] !in tail;
        forall i, j | 0 <= i < j < |tail| ensures tail[i] != tail[j] {
          assert keys[i + 1] != keys[j + 1];
        }
      }
    }
  }

  /** What forgetting does to the maps. */
  lemma ForgetFacts(s: Routes, t: Target)
    requires Shaped(s)
    ensures var f := Forget(s, t);
      && Shaped(f) && f.targets.items == s.targets.items - {t}
      && (forall k :: k in f.sessions.items <==> k in s.sessions.items && k !in Orphans(s, t))
      && (forall u, k :: Linked(f, u, k) <==> u != t && Linked(s, u, k))
  {
    FilteredFacts(s.sessions.keys, Orphans(s, t));
  }

  /** Forgetting keeps the invariant, frees exactly one target, and disturbs no other route. */
  lemma ForgetInv(s: Routes, robot: string, t: Target)
    requires Inv(s) && Forgettable(s, robot, t)
    ensures Inv(Forget(s, t))
    ensures var f := Forget(s, t);
      && f.targets.items == s.targets.items - {t}
      && f.sessionConflicts == s.sessionConflicts && f.targetConflicts == s.targetConflicts
      && (forall k :: k in f.sessions.items <==> k in s.sessions.items && k !in Orphans(s, t))
      && forall u, k :: u != t ==> (Linked(f, u, k) <==> Linked(s, u, k))
  {
    ForgetFacts(s, t);
    forall u, k | Linked(Forget(s, t), u, k) ensures k !in Orphans(s, t) {
    }
  }

  // ---- lookups ----

  function RobotForSession(s: Routes, k: string): Option<string> {
    if k == "" || k in s.sessionConflicts || k !in s.sessions.items then None else Some(s.sessions.items[k])
  }

  function RobotForTarget(s: Routes, t: Target): Option<string> {
    if t in s.targetConflicts || t !in s.targets.items then None else Some(s.targets.items[t])
  }

  /** A session that resolves, resolves to the owner that each of its targets resolves to. */
  lemma LookupsAgree(s: Routes, t: Target, k: string)
    requires Inv(s) && Linked(s, t, k) && RobotForSession(s, k).Some?
    ensures RobotForTarget(s, t) == RobotForSession(s, k)
  {
    if t in s.targetConflicts {
      ConflictedNeverResolves(s, t);
    }
  }

  datatype TargetLookup = TargetLookup(chatType: ChatType, channel: int, robot: string, wire: string)

  /** The bound targets of one chat id, in the order in which they were bound. */
  function TargetsOf(keys: seq<Target>, chatId: string): (ts: seq<Target>) {
    if keys == [] then [] else
    if keys[0].chatId == chatId then [keys[0]] + TargetsOf(keys[1..], chatId) else TargetsOf(keys[1..], chatId)
  }

  /** Chat-id-only resolution as a linear search: exactly one bound target, unconflicted, its wire id known. */
  function LookupChat(s: Routes, chatId: string): (r: Option<TargetLookup>)
    requires Shaped(s)
  {
    TargetsOfFacts(s.targets.keys, chatId);
    var ts := TargetsOf(s.targets.keys, chatId);
    if |ts| != 1 || ts[0] in s.targetConflicts || ts[0] !in s.wires then None
    else Some(TargetLookup(ts[0].chatType, s.channels[ts[0]], s.targets.items[ts[0]], s.wires[ts[0]]))
  }

  lemma {:induction false} TargetsOfFacts(keys: seq<Target>, chatId: string)
    ensures forall t :: t in TargetsOf(keys, chatId) <==> t in keys && t.chatId == chatId
    ensures (forall i, j :: 0 <= i < j < |keys| ==> keys[i] != keys[j]) ==>
      forall i, j :: 0 <= i < j < |TargetsOf(keys, chatId)| ==> TargetsOf(keys, chatId)[i] != TargetsOf(keys, chatId)[j]
    decreases |keys|
  {
    if keys != [] {
      var tail := keys[1..];
      assert keys == [keys[0]] + tail;
      TargetsOfFacts(tail, chatId);
      if forall i, j :: 0 <= i < j < |keys| ==> keys[i] != keys[j] {
        assert keys[0] !in tail;
        forall i, j | 0 <= i < j < |tail| ensures tail[i] != tail[j] {
          assert keys[i + 1] != keys[j + 1];
        }
      }
    }
  }

  lemma TwoDiffer<T>(ts: seq<T>)
    requires forall i, j :: 0 <= i < j < |ts| ==> ts[i] != ts[j]
    ensures |ts| >= 2 ==> ts[0] in ts && ts[1] in ts && ts[0] != ts[1]
  {
  }

  /** A chat is bound, ambiguous or conflicted. */
  predicate ChatHasState(s: Routes, chatId: string) {
    (exists t <- s.targets.items :: t.chatId == chatId) || exists t <- s.targetConflicts :: t.chatId == chatId
  }

  /** `t` is the only bound target of its chat. */
  ghost predicate Only(s: Routes, t: Target) {
    t in s.targets.items && forall u <- s.targets.items :: u.chatId == t.chatId ==> u == t
  }

  /** The search answers exactly for the one bound target of the chat, if it can be used. */
  lemma LookupChatIsUnique(s: Routes, chatId: string, l: TargetLookup)
    requires Inv(s)
    ensures LookupChat(s, chatId) == Some(l) <==>
      var t := Target(l.chatType, chatId);
      && Only(s, t) && t !in s.targetConflicts && t in s.wires
      && l == TargetLookup(t.chatType, s.channels[t], s.targets.items[t], s.wires[t])
  {
    var ts, t := TargetsOf(s.targets.keys, chatId), Target(l.chatType, chatId);
    TargetsOfFacts(s.targets.keys, chatId);
    if Only(s, t) {
      assert t in ts;
      assert forall u <- ts :: u == t;
      TwoDiffer(ts);
    }
    if LookupChat(s, chatId) == Some(l) {
      assert ts[0] in ts && ts[0] == t;
      forall u | u in s.targets.items && u.chatId == chatId ensures u == t {
        assert u in ts;
      }
    }
  }

  /** A conflicted target resolves by no lookup: not by itself, not by its chat, not by a linked session. */
  lemma ConflictedNeverResolves(s: Routes, t: Target)
    requires Inv(s) && t in s.targetConflicts
    ensures RobotForTarget(s, t).None? && LookupChat(s, t.chatId).None?
    ensures forall k :: Linked(s, t, k) ==> RobotForSession(s, k).None?
  {
    if LookupChat(s, t.chatId).Some? {
      var l := LookupChat(s, t.chatId).value;
      LookupChatIsUnique(s, t.chatId, l);
      assert false;
    }
  }
}
