/**
 The route snapshot: what `_body_locked` writes, what `_apply_body` makes of it, and how much of
 the registry a round trip restores.
 */
module Snapshot {
  import opened Wrappers
  import opened OrderedDict
  import opened Routes

  datatype SessionRecord = SessionRecord(key: string, robot: string, target: Option<Target>)

  /** A wire id as the document may hold it: no such field (an old snapshot), null, or a text. */
  datatype WireField = NoField | Null | Text(wire: string)

  datatype TargetRecord = TargetRecord(target: Target, robot: string, channel: int, wire: WireField, known: Option<bool>)

  datatype Body = Body(sessions: seq<SessionRecord>, targets: seq<TargetRecord>,
                       sessionConflicts: set<string>, targetConflicts: set<Target>)

  // ---- _body_locked ----

  /** Which target a session is filed under: the last one, in link order, that holds it. */
  function FiledUnder(links: Dict<Target, set<string>>, n: nat, k: string): (r: Option<Target>)
    requires links.Valid() && n <= |links.keys|
  {
    if n == 0 then None
    else if k in links.items[links.keys[n - 1]] then Some(links.keys[n - 1])
    else FiledUnder(links, n - 1, k)
  }

  function Home(s: Routes, k: string): Option<Target>
    requires s.links.Valid()
  {
    FiledUnder(s.links, |s.links.keys|, k)
  }

  function SessionRecordOf(s: Routes, k: string): SessionRecord
    requires s.links.Valid() && k in s.sessions.items
  {
    SessionRecord(k, s.sessions.items[k], Home(s, k))
  }

  function RecordOf(s: Routes, t: Target): TargetRecord
    requires t in s.targets.items && t in s.channels
  {
    TargetRecord(t, s.targets.items[t], s.channels[t], if t in s.wires then Text(s.wires[t]) else Null, Some(t in s.wires))
  }

  function SessionRecords(s: Routes, keys: seq<string>): (rs: seq<SessionRecord>)
    requires s.links.Valid() && forall k <- keys :: k in s.sessions.items
  {
    if keys == [] then [] else
    var n := |keys| - 1;
    SessionRecords(s, keys[..n]) + [SessionRecordOf(s, keys[n])]
  }

  function TargetRecords(s: Routes, keys: seq<Target>): (rs: seq<TargetRecord>)
    requires forall t <- keys :: t in s.targets.items && t in s.channels
  {
    if keys == [] then [] else
    var n := |keys| - 1;
    TargetRecords(s, keys[..n]) + [RecordOf(s, keys[n])]
  }

  function BodyOf(s: Routes): Body
    requires Shaped(s)
  {
    Body(SessionRecords(s, s.sessions.keys), TargetRecords(s, s.targets.keys), s.sessionConflicts, s.targetConflicts)
  }

  // ---- _apply_body ----

  function AddSession(s: Routes, r: SessionRecord): Routes {
    if r.key == "" || !ValidRobot(r.robot) then s else
    var bound := s.(sessions := s.sessions.Put(r.key, r.robot));
    if r.target.None? || r.target.value.chatId == "" then bound
    else bound.(links := s.links.Put(r.target.value, LinkedTo(s, r.target.value) + {r.key}))
  }

  function AddTarget(s: Routes, r: TargetRecord): Routes {
    var wire := match r.wire case NoField => Some(r.target.chatId) case Null => None case Text(w) => Some(w);
    var known := match r.known
      case None => !(r.target.chatType == Dm && wire == Some(r.target.chatId))
      case Some(b) => b;
    if r.target.chatId == "" || !ValidRobot(r.robot) || !ValidChannel(r.channel)
      || (wire.Some? && !ValidWire(wire.value)) then s
    else
      s.(targets := s.targets.Put(r.target, r.robot),
         channels := s.channels[r.target := r.channel],
         wires := if known && wire.Some? then s.wires[r.target := wire.value] else s.wires)
  }

  function AddSessions(s: Routes, rs: seq<SessionRecord>): Routes {
    if rs == [] then s else AddSession(AddSessions(s, rs[..|rs| - 1]), rs[|rs| - 1])
  }

  function AddTargets(s: Routes, rs: seq<TargetRecord>): Routes {
    if rs == [] then s else AddTarget(AddTargets(s, rs[..|rs| - 1]), rs[|rs| - 1])
  }

  /** The registry a snapshot restores.  The target conflicts of a document name targets with a chat id. */
  function Restore(b: Body): Routes {
    var s := AddTargets(AddSessions(NoRoutes(), b.sessions), b.targets);
    s.(sessionConflicts := (set k | k in b.sessionConflicts && k != ""),
       targetConflicts := (set t | t in b.targetConflicts && t.chatId != ""))
  }

  // ---- the round trip ----

  lemma {:induction false} FiledUnderLinked(links: Dict<Target, set<string>>, n: nat, k: string)
    requires links.Valid() && n <= |links.keys|
    ensures FiledUnder(links, n, k).Some? ==>
      var t := FiledUnder(links, n, k).value; t in links.items && k in links.items[t]
    ensures FiledUnder(links, n, k).None? ==> forall i :: 0 <= i < n ==> k !in links.items[links.keys[i]]
  {
    if n > 0 && k !in links.items[links.keys[n - 1]] {
      FiledUnderLinked(links, n - 1, k);
    }
  }

  /** A session's home is one of the targets it is linked to, and it has one when it is linked at all. */
  lemma HomeIsLinked(s: Routes, k: string)
    requires s.links.Valid()
    ensures Home(s, k).Some? ==> Linked(s, Home(s, k).value, k)
    ensures forall t :: Linked(s, t, k) ==> Home(s, k).Some?
  {
    FiledUnderLinked(s.links, |s.links.keys|, k);
  }

  /** The sessions restored so far, `keys` of them: names, order, owners and homes. */
  ghost predicate SessionsRestored(s: Routes, r: Routes, keys: seq<string>)
    requires Shaped(s)
  {
    && r.sessions.keys == keys && r.links.Valid()
    && (forall k :: k in r.sessions.items <==> k in keys)
    && (forall k <- keys :: k in s.sessions.items && r.sessions.items[k] == s.sessions.items[k])
    && forall t, k :: Linked(r, t, k) <==> k in keys && Home(s, k) == Some(t)
  }

  ghost predicate Distinct<K(!new)>(keys: seq<K>) {
    forall i, j :: 0 <= i < j < |keys| ==> keys[i] != keys[j]
  }

  lemma LastKey<K(!new)>(keys: seq<K>)
    requires keys != [] && Distinct(keys)
    ensures var n := |keys| - 1;
      keys == keys[..n] + [keys[n]] && Distinct(keys[..n]) && keys[n] !in keys[..n] && keys[n] in keys
      && forall k <- keys[..n] :: k in keys
  {
  }

  lemma {:induction false} SessionsRoundTrip(s: Routes, keys: seq<string>)
    requires Inv(s) && Distinct(keys) && forall k <- keys :: k in s.sessions.items
    ensures var r := AddSessions(NoRoutes(), SessionRecords(s, keys));
      SessionsRestored(s, r, keys) && r == NoRoutes().(sessions := r.sessions, links := r.links)
    decreases |keys|
  {
    if keys != [] {
      LastKey(keys);
      var n := |keys| - 1;
      SessionsRoundTrip(s, keys[..n]);
      AddSessionsAppend(NoRoutes(), SessionRecords(s, keys[..n]), SessionRecordOf(s, keys[n]));
      SessionStep(s, AddSessions(NoRoutes(), SessionRecords(s, keys[..n])), keys[..n], keys[n]);
    }
  }

  lemma SessionStep(s: Routes, r: Routes, keys: seq<string>, k: string)
    requires Inv(s) && k in s.sessions.items && k !in keys && SessionsRestored(s, r, keys)
    ensures var r' := AddSession(r, SessionRecordOf(s, k));
      SessionsRestored(s, r', keys + [k]) && r' == r.(sessions := r'.sessions, links := r'.links)
  {
    var r' := AddSession(r, SessionRecordOf(s, k));
    HomeIsLinked(s, k);
    assert Home(s, k).Some? ==> Home(s, k).value.chatId != "";
    forall t, j ensures Linked(r', t, j) <==> Linked(r, t, j) || (j == k && Home(s, k) == Some(t)) {
    }
  }

  ghost predicate TargetsRestored(s: Routes, r: Routes, keys: seq<Target>)
    requires Shaped(s)
  {
    && r.targets.keys == keys
    && (forall t :: t in r.targets.items <==> t in keys)
    && r.channels.Keys == r.targets.items.Keys
    && (forall t :: t in r.wires <==> t in keys && t in s.wires)
    && forall t <- keys :: TargetRestored(s, r, t)
  }

  predicate TargetRestored(s: Routes, r: Routes, t: Target) {
    && t in s.targets.items && t in r.targets.items && r.targets.items[t] == s.targets.items[t]
    && t in s.channels && t in r.channels && r.channels[t] == s.channels[t]
    && (t in s.wires && t in r.wires ==> r.wires[t] == s.wires[t])
  }

  lemma {:induction false} TargetsRoundTrip(s: Routes, base: Routes, keys: seq<Target>)
    requires Inv(s) && Distinct(keys) && forall t <- keys :: t in s.targets.items
    requires base == NoRoutes().(sessions := base.sessions, links := base.links)
    ensures var r := AddTargets(base, TargetRecords(s, keys));
      TargetsRestored(s, r, keys) && r == base.(targets := r.targets, channels := r.channels, wires := r.wires)
    decreases |keys|
  {
    if keys != [] {
      LastKey(keys);
      var n := |keys| - 1;
      TargetsRoundTrip(s, base, keys[..n]);
      AddTargetsAppend(base, TargetRecords(s, keys[..n]), RecordOf(s, keys[n]));
      TargetsExtend(s, base, AddTargets(base, TargetRecords(s, keys[..n])), keys[..n], keys[n]);
    }
  }

  lemma AddTargetsAppend(s: Routes, rs: seq<TargetRecord>, r: TargetRecord)
    ensures AddTargets(s, rs + [r]) == AddTarget(AddTargets(s, rs), r)
  {
    assert (rs + [r])[..|rs|] == rs;
  }

  lemma AddSessionsAppend(s: Routes, rs: seq<SessionRecord>, r: SessionRecord)
    ensures AddSessions(s, rs + [r]) == AddSession(AddSessions(s, rs), r)
  {
    assert (rs + [r])[..|rs|] == rs;
  }

  lemma TargetsExtend(s: Routes, base: Routes, r: Routes, keys: seq<Target>, t: Target)
    requires Inv(s) && t in s.targets.items && t !in keys && TargetsRestored(s, r, keys)
    requires r == base.(targets := r.targets, channels := r.channels, wires := r.wires)
    ensures var r' := AddTarget(r, RecordOf(s, t));
      TargetsRestored(s, r', keys + [t]) && r' == base.(targets := r'.targets, channels := r'.channels, wires := r'.wires)
  {
    RecordAdds(s, r, t);
    TargetStep(s, r, keys, t);
  }

  function WithTarget(s: Routes, r: Routes, t: Target): Routes
    requires t in s.targets.items && t in s.channels
  {
    r.(targets := r.targets.Put(t, s.targets.items[t]), channels := r.channels[t := s.channels[t]],
       wires := if t in s.wires then r.wires[t := s.wires[t]] else r.wires)
  }

  /** A record made from a valid registry passes every check when it is read back. */
  lemma RecordAdds(s: Routes, r: Routes, t: Target)
    requires Inv(s) && t in s.targets.items
    ensures AddTarget(r, RecordOf(s, t)) == WithTarget(s, r, t)
  {
  }

  lemma OthersStayRestored(s: Routes, r: Routes, keys: seq<Target>, t: Target)
    requires Inv(s) && t in s.targets.items && t !in keys && TargetsRestored(s, r, keys)
    ensures forall u <- keys + [t] :: TargetRestored(s, WithTarget(s, r, t), u)
  {
    forall u | u in keys ensures TargetRestored(s, WithTarget(s, r, t), u) {
      assert TargetRestored(s, r, u);
    }
  }

  lemma TargetStep(s: Routes, r: Routes, keys: seq<Target>, t: Target)
    requires Inv(s) && t in s.targets.items && t !in keys && TargetsRestored(s, r, keys)
    ensures TargetsRestored(s, WithTarget(s, r, t), keys + [t])
  {
    OthersStayRestored(s, r, keys, t);
  }

  /** Everything but the links is the same, in the same order. */
  predicate SameButLinks(a: Routes, b: Routes) {
    a == b.(links := a.links)
  }

  /** No session is linked to two targets. */
  ghost predicate SingleLinks(s: Routes) {
    forall t, u, k :: Linked(s, t, k) && Linked(s, u, k) ==> t == u
  }

  ghost predicate SameLinks(a: Routes, b: Routes) {
    forall t, k :: Linked(a, t, k) <==> Linked(b, t, k)
  }

  /**
   Writing a snapshot and restoring it gives back owners, order, wire ids, channel types and
   conflicts; each linked session keeps exactly one of its links.
   */
  lemma RoundTrip(s: Routes)
    requires Inv(s)
    ensures var r := Restore(BodyOf(s));
      && SameButLinks(r, s) && Inv(r)
      && (forall t, k :: Linked(r, t, k) <==> k in s.sessions.items && Home(s, k) == Some(t))
      && (forall t, k :: Linked(r, t, k) ==> Linked(s, t, k))
  {
    SessionsRoundTrip(s, s.sessions.keys);
    var base := AddSessions(NoRoutes(), SessionRecords(s, s.sessions.keys));
    TargetsRoundTrip(s, base, s.targets.keys);
    AllRestored(s, base, AddTargets(base, TargetRecords(s, s.targets.keys)));
  }

  /** Fewer links of the same sessions and targets keep the invariant. */
  lemma FewerLinksInv(s: Routes, q: Routes)
    requires Inv(s) && SameButLinks(q, s) && q.links.Valid() && forall t, k :: Linked(q, t, k) ==> Linked(s, t, k)
    ensures Inv(q)
  {
  }

  lemma TargetsAreBack(s: Routes, r: Routes)
    requires Shaped(s) && TargetsRestored(s, r, s.targets.keys)
    ensures r.targets == s.targets && r.channels == s.channels && r.wires == s.wires
  {
    assert forall t <- s.targets.items :: TargetRestored(s, r, t);
    assert r.targets.items == s.targets.items;
  }

  lemma SessionsAreBack(s: Routes, base: Routes)
    requires Shaped(s) && SessionsRestored(s, base, s.sessions.keys)
    ensures base.sessions == s.sessions && base.links.Valid()
    ensures forall t, k :: Linked(base, t, k) <==> k in s.sessions.items && Home(s, k) == Some(t)
    ensures forall t, k :: Linked(base, t, k) ==> Linked(s, t, k)
  {
    assert base.sessions.items == s.sessions.items;
    forall t, k | Linked(base, t, k) ensures Linked(s, t, k) {
      HomeIsLinked(s, k);
    }
  }

  lemma AllRestored(s: Routes, base: Routes, r: Routes)
    requires Inv(s) && SessionsRestored(s, base, s.sessions.keys) && TargetsRestored(s, r, s.targets.keys)
    requires r == base.(targets := r.targets, channels := r.channels, wires := r.wires)
    ensures var q := r.(sessionConflicts := (set k | k in s.sessionConflicts && k != ""),
                        targetConflicts := (set t | t in s.targetConflicts && t.chatId != ""));
      && SameButLinks(q, s) && Inv(q)
      && (forall t, k :: Linked(q, t, k) <==> k in s.sessions.items && Home(s, k) == Some(t))
      && (forall t, k :: Linked(q, t, k) ==> Linked(s, t, k))
  {
    var q := r.(sessionConflicts := (set k | k in s.sessionConflicts && k != ""),
                targetConflicts := (set t | t in s.targetConflicts && t.chatId != ""));
    SessionsAreBack(s, base);
    TargetsAreBack(s, r);
    assert q.sessionConflicts == s.sessionConflicts && q.targetConflicts == s.targetConflicts;
    assert forall t, k :: Linked(q, t, k) <==> Linked(base, t, k);
    FewerLinksInv(s, q);
  }

  /** The links themselves survive the round trip exactly when no session is linked to two targets. */
  lemma LinksSurviveIffSingle(s: Routes)
    requires Inv(s)
    ensures SameLinks(Restore(BodyOf(s)), s) <==> SingleLinks(s)
  {
    RoundTrip(s);
    var r := Restore(BodyOf(s));
    if SingleLinks(s) {
      forall t, k | Linked(s, t, k) ensures Linked(r, t, k) {
        HomeIsLinked(s, k);
      }
    }
  }
}
