/** What every hook and every step of a drain keeps. */
module ProgressInvariant {
  import opened Wrappers
  import opened OrderedDict
  import opened CardProgress

  // ---- steps ----

  datatype Event =
    | Starting(key: Key, adapter: nat, chat: string, requester: string)
    | Hooking(session: string, turn: string, target: Key, hook: Hook, accepts: bool)
    | Rolling(inChat: string, sender: string, rolled: Key, rollAccepts: bool)
    | Cancelling(gone: Key)
    | Draining(drain: nat, luck: Luck)

  /** No drain sleeps on the key of a turn that has gone. */
  ghost predicate KeyFree(w: World, k: Key) {
    forall d <- w.drains :: w.drains[d].key != k
  }

  /** The event can happen, and it reuses no key on which a drain still sleeps. */
  ghost predicate Legal(w: World, ev: Event) {
    match ev
    case Starting(k, _, _, _) => Begins(w, k) && KeyFree(w, k)
    case Hooking(session, turn, k, _, _) => Picks(w.states, session, turn, k)
    case Rolling(chat, sender, k, _) => OnlyCandidate(w.states, chat, sender, k) && KeyFree(w, NextSegment(k))
    case Cancelling(_) => true
    case Draining(d, _) => d in w.drains
  }

  ghost function Next(w: World, ev: Event): World
    requires Inv(w) && Legal(w, ev)
  {
    match ev
    case Starting(k, adapter, chat, requester) => BeginAt(w, k, adapter, chat, requester)
    case Hooking(_, _, k, hook, accepts) => OnTurn(w, k, hook, accepts)
    case Rolling(_, _, k, accepts) => RolloverAt(w, k, accepts)
    case Cancelling(k) => Drop(w, k, Cancelled)
    case Draining(d, luck) => DrainStep(w, d, luck)
  }

  // ---- the log ----

  function Edits(log: seq<Note>, ident: nat): nat {
    if log == [] then 0 else
    var n := |log| - 1;
    Edits(log[..n], ident) + if log[n].Edited? && log[n].ident == ident then 1 else 0
  }

  predicate Shows(note: Note) {
    note.Sent? || note.Edited?
  }

  /** The frame the server saw last. */
  function LastFrame(log: seq<Note>, ident: nat): Option<Frame> {
    if log == [] then None else
    var n := |log| - 1;
    if Shows(log[n]) && log[n].ident == ident then Some(log[n].frame) else LastFrame(log[..n], ident)
  }

  function Seen(log: seq<Note>, ident: nat): int {
    match LastFrame(log, ident)
    case None => -1
    case Some(f) => f.revision
  }

  lemma Append(log: seq<Note>, note: Note, ident: nat)
    ensures Edits(log + [note], ident) == Edits(log, ident) + if note.Edited? && note.ident == ident then 1 else 0
    ensures LastFrame(log + [note], ident) ==
      if Shows(note) && note.ident == ident then Some(note.frame) else LastFrame(log, ident)
  {
    assert (log + [note])[..|log|] == log;
  }

  /**
   Edits of one turn are numbered 1, 2, 3, ...; a turn is closed with its final frame shown, and
   then nothing more of it is told; a turn that was blank or rolled away has shown nothing.
   */
  ghost predicate WellTold(log: seq<Note>) {
    forall i :: 0 <= i < |log| ==>
      && (log[i].Edited? ==> log[i].seqNo == Edits(log[..i], log[i].ident) + 1)
      && (log[i].Closed? ==> LastFrame(log[..i], log[i].ident).Some? && LastFrame(log[..i], log[i].ident).value.final)
      && (log[i].Dropped? && Showless(log[i].why) ==> LastFrame(log[..i], log[i].ident).None?)
      && Closed(log[i].ident) !in log[..i]
  }

  predicate Showless(why: Reason) {
    why == Blank || why == RolledAway
  }

  lemma WellToldAppend(log: seq<Note>, note: Note)
    requires WellTold(log) && Closed(note.ident) !in log
    requires note.Edited? ==> note.seqNo == Edits(log, note.ident) + 1
    requires note.Closed? ==> LastFrame(log, note.ident).Some? && LastFrame(log, note.ident).value.final
    requires note.Dropped? && Showless(note.why) ==> LastFrame(log, note.ident).None?
    ensures WellTold(log + [note])
  {
    var log' := log + [note];
    assert log'[..|log|] == log;
    forall i | 0 <= i < |log| ensures log'[..i] == log[..i] {
    }
  }

  // ---- turns and drains ----

  ghost predicate Known(ident: nat, k: Key, created: seq<Key>) {
    ident < |created| && created[ident] == k
  }

  ghost predicate HasDrain(drains: map<nat, Drain>, k: Key) {
    exists d <- drains :: drains[d].key == k
  }

  /** A turn that is scheduled has a drain and something to show. */
  ghost predicate TurnFits(t: Turn, k: Key, w: World) {
    && t.tools.Valid() && Known(t.ident, k, w.created) && Closed(t.ident) !in w.log
    && t.delivered <= t.revision && t.asked <= t.revision
    && (t.scheduled ==> HasRealTool(t.tools) && HasDrain(w.drains, k))
    && (LastFrame(w.log, t.ident).Some? ==> HasRealTool(t.tools) && (t.messageId.Some? || t.sendStarted))
  }

  /** A turn that is not scheduled is live, and has shown what it last asked to show. */
  predicate Served(t: Turn) {
    !t.scheduled ==> !t.final && t.asked <= t.delivered
  }

  /** What the server saw of a turn is what the turn believes, unless a drain is about to say so. */
  ghost predicate Told(t: Turn, k: Key, w: World) {
    NoneShown(w.drains, k) ==> Edits(w.log, t.ident) == t.cardSeq && Seen(w.log, t.ident) == t.delivered
  }

  ghost predicate NoneShown(drains: map<nat, Drain>, k: Key) {
    forall d <- drains :: drains[d].key == k ==> !drains[d].place.Shown?
  }

  predicate SnapFits(s: Snap, t: Turn)
    requires t.tools.Valid()
  {
    && s.ident == t.ident && s.messageId == t.messageId && s.nextSeq == t.cardSeq + 1
    && s.frame.revision <= t.revision && (s.frame.revision == t.revision ==> s.frame == FrameOf(t))
    && (s.configured ==> t.configured)
  }

  /** A drain away from the lock, whether its turn is still there or not. */
  ghost predicate SnapKnown(drain: Drain, w: World)
    requires !drain.place.Top?
  {
    var s := drain.place.snap;
    && Known(s.ident, drain.key, w.created) && Closed(s.ident) !in w.log && s.frame.tools != []
    && Edits(w.log, s.ident) == s.nextSeq - (if drain.place.Shown? && drain.place.sentAs.None? then 0 else 1)
    && (!drain.place.Snapped? ==> s.configured)
    && (drain.place.Sending? ==> s.messageId.None?)
    && (drain.place.Shown? ==> (drain.place.sentAs.Some? <==> s.messageId.None?) && LastFrame(w.log, s.ident) == Some(s.frame))
  }

  ghost predicate DrainFits(drain: Drain, w: World) {
    && (!drain.place.Top? ==> SnapKnown(drain, w))
    && (drain.key in w.states ==>
          var t := w.states[drain.key];
          t.scheduled && t.tools.Valid() && (!drain.place.Top? ==> SnapFits(drain.place.snap, t))
          && (drain.place.Sending? || drain.place.Shown? ==> t.messageId.Some? || t.sendStarted))
  }

  ghost predicate OneDrainEach(w: World) {
    && (forall d <- w.drains :: d < w.nextDrain)
    && forall d, e :: d in w.drains && e in w.drains && w.drains[d].key == w.drains[e].key ==> d == e
  }

  /** The live segment of a turn is its last. */
  ghost predicate LastIsLive(states: map<Key, Turn>) {
    forall a, b :: a in states && b in states && a != b && SameTurn(a, b) && !states[a].final ==>
      states[b].final && b.segment < a.segment
  }

  ghost predicate LogKnown(w: World) {
    forall i :: 0 <= i < |w.log| ==> w.log[i].ident < |w.created|
  }

  ghost predicate TurnsOk(w: World, but: set<Key>) {
    forall k <- w.states :: TurnFits(w.states[k], k, w) && Told(w.states[k], k, w) && (k in but || Served(w.states[k]))
  }

  ghost predicate DrainsOk(w: World) {
    forall d <- w.drains :: DrainFits(w.drains[d], w)
  }

  /** Everything holds, except that the turns in `but` may still have to be scheduled. */
  ghost predicate InvBut(w: World, but: set<Key>) {
    TurnsOk(w, but) && DrainsOk(w) && OneDrainEach(w) && LastIsLive(w.states) && LogKnown(w) && WellTold(w.log)
  }

  ghost predicate Inv(w: World) {
    && InvBut(w, {})
    && forall k <- w.states :: w.states[k].tools.Valid()
  }

  // ---- hooks ----

  lemma RemoveInv(w: World, k: Key, but: set<Key>)
    requires InvBut(w, but)
    ensures InvBut(Remove(w, k), but - {k})
  {
  }

  /** That a turn is dropped is no news of any card. */
  lemma DropNoteInv(w: World, ident: nat, why: Reason, but: set<Key>)
    requires InvBut(w, but) && ident < |w.created| && Closed(ident) !in w.log
    requires Showless(why) ==> LastFrame(w.log, ident).None?
    ensures InvBut(w.(log := w.log + [Dropped(ident, why)]), but)
  {
    var note := Dropped(ident, why);
    var w' := w.(log := w.log + [note]);
    WellToldAppend(w.log, note);
    forall x | x in w'.states ensures TurnFits(w'.states[x], x, w') && Told(w'.states[x], x, w') {
      assert TurnFits(w.states[x], x, w) && Told(w.states[x], x, w);
      Append(w.log, note, w.states[x].ident);
    }
    forall d | d in w'.drains ensures DrainFits(w'.drains[d], w') {
      assert DrainFits(w.drains[d], w);
      if !w.drains[d].place.Top? {
        Append(w.log, note, w.drains[d].place.snap.ident);
      }
    }
  }

  lemma DropInv(w: World, k: Key, why: Reason, but: set<Key>)
    requires InvBut(w, but)
    requires k in w.states && Showless(why) ==> LastFrame(w.log, w.states[k].ident).None?
    ensures InvBut(Drop(w, k, why), but - {k})
  {
    if k in w.states {
      assert TurnFits(w.states[k], k, w);
      DropNoteInv(w, w.states[k].ident, why, but);
      RemoveInv(w.(log := w.log + [Dropped(w.states[k].ident, why)]), k, but);
    }
  }

  lemma Whole(w: World)
    requires InvBut(w, {})
    ensures Inv(w)
  {
    forall k | k in w.states ensures w.states[k].tools.Valid() {
      assert TurnFits(w.states[k], k, w);
    }
  }

  /** A turn moves on: what is shown changes only under a new revision, and tools only come. */
  ghost predicate Moved(t: Turn, t': Turn) {
    && t.tools.Valid() && t'.tools.Valid() && (HasRealTool(t.tools) ==> HasRealTool(t'.tools))
    && t'.revision >= t.revision && (t'.revision == t.revision ==> FrameOf(t') == FrameOf(t))
    && t'.asked <= t'.revision && (t.final ==> t'.final) && (t.configured ==> t'.configured)
    && t'.ident == t.ident && t'.messageId == t.messageId && t'.cardSeq == t.cardSeq
    && t'.delivered == t.delivered && t'.scheduled == t.scheduled && (t.sendStarted ==> t'.sendStarted)
  }

  lemma MoveFits(w: World, k: Key, t: Turn, x: Key)
    requires k in w.states && Moved(w.states[k], t) && x in w.states && TurnFits(w.states[x], x, w) && Told(w.states[x], x, w)
    ensures var w' := SetTurn(w, k, t); TurnFits(w'.states[x], x, w') && Told(w'.states[x], x, w')
  {
  }

  lemma MoveDrains(w: World, k: Key, t: Turn)
    requires DrainsOk(w) && k in w.states && Moved(w.states[k], t)
    ensures DrainsOk(SetTurn(w, k, t))
  {
    var w' := SetTurn(w, k, t);
    forall d | d in w'.drains ensures DrainFits(w'.drains[d], w') {
      assert DrainFits(w.drains[d], w);
    }
  }

  lemma MoveInv(w: World, k: Key, t: Turn, but: set<Key>)
    requires InvBut(w, but) && k in w.states && Moved(w.states[k], t)
    ensures InvBut(SetTurn(w, k, t), but + {k})
    ensures Served(t) ==> InvBut(SetTurn(w, k, t), but - {k})
  {
    MoveDrains(w, k, t);
    forall x | x in w.states {
      MoveFits(w, k, t, x);
    }
  }

  lemma NoDrainYet(w: World, k: Key)
    requires DrainsOk(w) && k in w.states && !w.states[k].scheduled
    ensures KeyFree(w, k)
  {
  }

  lemma NewDrainKeeps(drains: map<nat, Drain>, n: nat, k: Key, x: Key)
    requires n !in drains
    ensures var drains' := drains[n := Drain(k, Top, 0)];
      && (HasDrain(drains, x) ==> HasDrain(drains', x)) && HasDrain(drains', k)
      && (NoneShown(drains', x) ==> NoneShown(drains, x))
  {
    var drains' := drains[n := Drain(k, Top, 0)];
    assert drains'[n].key == k;
    if HasDrain(drains, x) {
      var d :| d in drains && drains[d].key == x;
      assert drains'[d].key == x;
    }
    if NoneShown(drains', x) {
      forall d | d in drains && drains[d].key == x ensures !drains[d].place.Shown? {
        assert drains'[d] == drains[d];
      }
    }
  }

  lemma StartDrainFits(w: World, k: Key, x: Key)
    requires InvBut(w, {k}) && k in w.states && HasRealTool(w.states[k].tools) && x in w.states
    ensures var w' := NewDrain(SetTurn(w, k, w.states[k].(scheduled := true)), k);
      TurnFits(w'.states[x], x, w') && Told(w'.states[x], x, w')
  {
    assert TurnFits(w.states[x], x, w) && Told(w.states[x], x, w);
    NewDrainKeeps(w.drains, w.nextDrain, k, x);
  }

  lemma StartDrainDrains(w: World, k: Key)
    requires InvBut(w, {k}) && k in w.states && !w.states[k].scheduled
    ensures var w' := NewDrain(SetTurn(w, k, w.states[k].(scheduled := true)), k); DrainsOk(w') && OneDrainEach(w')
  {
    NoDrainYet(w, k);
    assert TurnFits(w.states[k], k, w);
    var w' := NewDrain(SetTurn(w, k, w.states[k].(scheduled := true)), k);
    forall d | d in w'.drains ensures DrainFits(w'.drains[d], w') {
      if d != w.nextDrain {
        assert DrainFits(w.drains[d], w);
      }
    }
  }

  lemma StartDrainInv(w: World, k: Key)
    requires InvBut(w, {k}) && k in w.states && !w.states[k].scheduled && HasRealTool(w.states[k].tools)
    ensures InvBut(NewDrain(SetTurn(w, k, w.states[k].(scheduled := true)), k), {})
  {
    StartDrainDrains(w, k);
    forall x | x in w.states {
      StartDrainFits(w, k, x);
    }
  }

  lemma SetTurnTwice(w: World, k: Key, a: Turn, b: Turn)
    ensures SetTurn(SetTurn(w, k, a), k, b) == SetTurn(w, k, b)
  {
    assert w.states[k := a][k := b] == w.states[k := b];
  }

  lemma AskInv(w: World, k: Key)
    requires InvBut(w, {k}) && k in w.states
    ensures InvBut(SetTurn(w, k, w.states[k].(asked := w.states[k].revision)), {k})
    ensures w.states[k].scheduled ==> InvBut(SetTurn(w, k, w.states[k].(asked := w.states[k].revision)), {})
  {
    assert TurnFits(w.states[k], k, w);
    MoveInv(w, k, w.states[k].(asked := w.states[k].revision), {k});
  }

  lemma StartInv(w: World, k: Key)
    requires InvBut(w, {k}) && k in w.states && !w.states[k].scheduled && HasRealTool(w.states[k].tools)
    ensures InvBut(NewDrain(SetTurn(w, k, w.states[k].(scheduled := true, asked := w.states[k].revision)), k), {})
  {
    var asked := w.states[k].(asked := w.states[k].revision);
    AskInv(w, k);
    StartDrainInv(SetTurn(w, k, asked), k);
    SetTurnTwice(w, k, asked, asked.(scheduled := true));
  }

  lemma ScheduleInv(w: World, k: Key, accepts: bool)
    requires InvBut(w, {k}) && (k in w.states && !w.states[k].scheduled ==> w.states[k].asked <= w.states[k].delivered)
    ensures InvBut(Schedule(w, k, accepts), {})
  {
    if k in w.states {
      if w.states[k].scheduled {
        AskInv(w, k);
      } else if HasRealTool(w.states[k].tools) && accepts {
        StartInv(w, k);
      } else {
        assert TurnFits(w.states[k], k, w);
        DropInv(w, k, if HasRealTool(w.states[k].tools) then Unschedulable else Blank, {k});
      }
    }
  }

  // ---- hooks ----

  lemma {:induction false} LastThoughtFits(tools: Tools, keys: seq<StepId>)
    ensures LastRunningThought(tools, keys).Some? ==>
      LastRunningThought(tools, keys).value.Thought? && LastRunningThought(tools, keys).value in tools.items
    decreases |keys|
  {
    if keys != [] {
      LastThoughtFits(tools, keys[..|keys| - 1]);
    }
  }

  lemma RealToolStays(a: Tools, b: Tools)
    requires forall id <- a.items :: id.ToolCall? ==> id in b.items
    ensures HasRealTool(a) ==> HasRealTool(b)
  {
  }

  lemma HookMoves(t: Turn, h: Hook)
    requires t.tools.Valid() && !t.final && t.asked <= t.revision && Hooked(t, h).Some?
    ensures Moved(t, Hooked(t, h).value) && Hooked(t, h).value.asked == t.asked
    ensures !Asks(h) ==> !Hooked(t, h).value.final
  {
    LastThoughtFits(t.tools, t.tools.keys);
    RealToolStays(t.tools, Hooked(t, h).value.tools);
  }

  lemma OnTurnInv(w: World, k: Key, h: Hook, accepts: bool)
    requires InvBut(w, {}) && k in w.states && !w.states[k].final
    ensures InvBut(OnTurn(w, k, h, accepts), {})
  {
    var t := w.states[k];
    assert TurnFits(t, k, w) && Served(t);
    if Hooked(t, h).Some? {
      HookMoves(t, h);
      MoveInv(w, k, Hooked(t, h).value, {});
      if Asks(h) {
        ScheduleInv(SetTurn(w, k, Hooked(t, h).value), k, accepts);
      }
    }
  }

  // ---- new turns ----

  lemma {:induction false} Untold(log: seq<Note>, ident: nat)
    requires forall i :: 0 <= i < |log| ==> log[i].ident != ident
    ensures Edits(log, ident) == 0 && LastFrame(log, ident) == None
    decreases |log|
  {
    if log != [] {
      Untold(log[..|log| - 1], ident);
    }
  }

  ghost predicate IsNew(t: Turn, w: World) {
    t == NewTurn(|w.created|, t.adapter, t.chat, t.requester, t.configured)
  }

  lemma AddTurnTurns(w: World, k: Key, t: Turn, but: set<Key>)
    requires TurnsOk(w, but) && IsNew(t, w) && KeyFree(w, k) && LogKnown(w)
    ensures TurnsOk(AddTurn(w, k, t), but)
  {
    var w' := AddTurn(w, k, t);
    Untold(w.log, t.ident);
    forall x | x in w'.states ensures TurnFits(w'.states[x], x, w') && Told(w'.states[x], x, w') {
      if x != k {
        assert TurnFits(w.states[x], x, w) && Told(w.states[x], x, w);
      }
    }
  }

  lemma AddTurnDrains(w: World, k: Key, t: Turn, but: set<Key>)
    requires InvBut(w, but) && IsNew(t, w) && KeyFree(w, k)
    ensures DrainsOk(AddTurn(w, k, t))
  {
    var w' := AddTurn(w, k, t);
    forall d | d in w'.drains ensures DrainFits(w'.drains[d], w') {
      assert DrainFits(w.drains[d], w);
    }
  }

  lemma AddTurnInv(w: World, k: Key, t: Turn, but: set<Key>)
    requires InvBut(w, but) && IsNew(t, w) && KeyFree(w, k)
    requires forall x <- w.states :: SameTurn(x, k) ==> x.segment < k.segment && w.states[x].final
    ensures InvBut(AddTurn(w, k, t), but)
  {
    AddTurnTurns(w, k, t, but);
    AddTurnDrains(w, k, t, but);
  }

  /** Rolling over never overwrites a segment: the live one is the last. */
  lemma NextSegmentIsNew(w: World, k: Key)
    requires LastIsLive(w.states) && Live(w.states, k)
    ensures NextSegment(k) !in w.states
    ensures forall x <- w.states :: SameTurn(x, k) && x != k ==> x.segment < k.segment && w.states[x].final
  {
    forall x | x in w.states && SameTurn(x, k) && x != k ensures x.segment < k.segment && w.states[x].final {
    }
  }

  lemma SetAdd(w: World, k: Key, a: Turn, n: Key, b: Turn)
    requires k != n
    ensures SetTurn(AddTurn(w, n, b), k, a) == AddTurn(SetTurn(w, k, a), n, b)
  {
    assert w.states[n := b][k := a] == w.states[k := a][n := b];
  }

  lemma DropAdd(w: World, k: Key, n: Key, b: Turn)
    requires k != n
    ensures Drop(AddTurn(w, n, b), k, RolledAway) == AddTurn(Drop(w, k, RolledAway), n, b)
  {
    assert w.states[n := b] - {k} == (w.states - {k})[n := b];
  }

  lemma EndedInv(w: World, k: Key)
    requires InvBut(w, {}) && Live(w.states, k)
    ensures var ended := Ended(w.states[k], Stopped, Broken);
      InvBut(SetTurn(w, k, ended), {k}) && (!ended.scheduled ==> ended.asked <= ended.delivered)
  {
    assert TurnFits(w.states[k], k, w) && Served(w.states[k]);
    HookMoves(w.states[k], Complete(Stopped));
    MoveInv(w, k, Ended(w.states[k], Stopped, Broken), {});
  }

  lemma RollAdds(w: World, k: Key, t: Turn)
    requires InvBut(w, {}) && Live(w.states, k) && KeyFree(w, NextSegment(k)) && IsNew(t, w)
    ensures InvBut(SetTurn(AddTurn(w, NextSegment(k), t), k, Ended(w.states[k], Stopped, Broken)), {k})
  {
    var ended := Ended(w.states[k], Stopped, Broken);
    EndedInv(w, k);
    NextSegmentIsNew(w, k);
    AddTurnInv(SetTurn(w, k, ended), NextSegment(k), t, {k});
    SetAdd(w, k, ended, NextSegment(k), t);
  }

  lemma RollInto(w: World, k: Key, t: Turn, accepts: bool)
    requires InvBut(w, {}) && Live(w.states, k) && KeyFree(w, NextSegment(k)) && IsNew(t, w)
    ensures InvBut(Schedule(SetTurn(AddTurn(w, NextSegment(k), t), k, Ended(w.states[k], Stopped, Broken)), k, accepts), {})
  {
    RollAdds(w, k, t);
    EndedInv(w, k);
    ScheduleInv(SetTurn(AddTurn(w, NextSegment(k), t), k, Ended(w.states[k], Stopped, Broken)), k, accepts);
  }

  lemma RollAway(w: World, k: Key, t: Turn)
    requires InvBut(w, {}) && Live(w.states, k) && KeyFree(w, NextSegment(k)) && IsNew(t, w)
    requires w.states[k].messageId.None? && !w.states[k].sendStarted
    ensures InvBut(Drop(AddTurn(w, NextSegment(k), t), k, RolledAway), {})
  {
    NextSegmentIsNew(w, k);
    assert TurnFits(w.states[k], k, w);
    DropInv(w, k, RolledAway, {});
    AddTurnInv(Drop(w, k, RolledAway), NextSegment(k), t, {});
    DropAdd(w, k, NextSegment(k), t);
  }

  lemma RolloverInv(w: World, k: Key, accepts: bool)
    requires InvBut(w, {}) && Live(w.states, k) && KeyFree(w, NextSegment(k))
    ensures InvBut(RolloverAt(w, k, accepts), {})
  {
    var t := w.states[k];
    var next := NewTurn(|w.created|, t.adapter, t.chat, t.requester, t.configured);
    if HasRealTool(t.tools) || t.messageId.Some? {
      if t.messageId.None? && !t.sendStarted {
        RollAway(w, k, next);
      } else {
        RollInto(w, k, next, accepts);
      }
    }
  }

  // ---- drains ----

  /** One drain moves: it, its turn and what is told of its turn may change, and nothing else. */
  ghost predicate OnlyDrain(w: World, w': World, d: nat, k: Key, ident: nat) {
    && d in w.drains && w.drains[d].key == k && Known(ident, k, w.created)
    && w'.created == w.created && w'.nextDrain == w.nextDrain
    && w'.states == (if k in w.states && k in w'.states then w.states[k := w'.states[k]] else w.states)
    && d in w'.drains && w'.drains[d].key == k && w'.drains == w.drains[d := w'.drains[d]]
    && (w'.log == w.log || (|w'.log| == |w.log| + 1 && w'.log == w.log + [w'.log[|w.log|]] && w'.log[|w.log|].ident == ident))
  }

  lemma OthersTold(w: World, w': World, d: nat, k: Key, ident: nat, other: nat)
    requires OnlyDrain(w, w', d, k, ident) && other != ident
    ensures Edits(w'.log, other) == Edits(w.log, other) && LastFrame(w'.log, other) == LastFrame(w.log, other)
  {
    if w'.log != w.log {
      Append(w.log, w'.log[|w.log|], other);
    }
  }

  ghost predicate TurnKept(t: Turn, t': Turn, k: Key, w': World) {
    t'.final == t.final && TurnFits(t', k, w') && Told(t', k, w') && Served(t')
  }

  lemma OtherTurnKept(w: World, w': World, d: nat, k: Key, ident: nat, x: Key)
    requires TurnsOk(w, {}) && OnlyDrain(w, w', d, k, ident) && x in w.states && x != k
    ensures TurnKept(w.states[x], w'.states[x], x, w')
  {
    assert TurnFits(w.states[x], x, w) && Told(w.states[x], x, w) && Served(w.states[x]);
    OthersTold(w, w', d, k, ident, w.states[x].ident);
    OtherDrainsStay(w, w', d, k, ident, x);
    OthersOpen(w, w', d, k, ident, w.states[x].ident);
  }

  lemma OtherDrainKept(w: World, w': World, d: nat, k: Key, ident: nat, e: nat)
    requires DrainsOk(w) && OneDrainEach(w) && OnlyDrain(w, w', d, k, ident) && e in w.drains && e != d
    ensures DrainFits(w'.drains[e], w')
  {
    assert DrainFits(w.drains[e], w);
    if !w.drains[e].place.Top? {
      OthersTold(w, w', d, k, ident, w.drains[e].place.snap.ident);
      OthersOpen(w, w', d, k, ident, w.drains[e].place.snap.ident);
    }
  }

  lemma OthersOpen(w: World, w': World, d: nat, k: Key, ident: nat, other: nat)
    requires OnlyDrain(w, w', d, k, ident) && other != ident && Closed(other) !in w.log
    ensures Closed(other) !in w'.log
  {
  }

  lemma OtherTurnsKept(w: World, w': World, d: nat, k: Key, ident: nat)
    requires TurnsOk(w, {}) && OnlyDrain(w, w', d, k, ident)
    requires k in w.states ==> k in w'.states && TurnKept(w.states[k], w'.states[k], k, w')
    ensures TurnsOk(w', {})
  {
    forall x | x in w.states && x != k {
      OtherTurnKept(w, w', d, k, ident, x);
    }
  }

  lemma OtherDrainsKept(w: World, w': World, d: nat, k: Key, ident: nat)
    requires DrainsOk(w) && OneDrainEach(w) && OnlyDrain(w, w', d, k, ident) && DrainFits(w'.drains[d], w')
    ensures DrainsOk(w') && OneDrainEach(w')
  {
    forall e | e in w.drains && e != d {
      OtherDrainKept(w, w', d, k, ident, e);
    }
  }

  lemma OthersKeep(w: World, w': World, d: nat, k: Key, ident: nat)
    requires InvBut(w, {}) && OnlyDrain(w, w', d, k, ident)
    requires WellTold(w'.log) && DrainFits(w'.drains[d], w')
    requires k in w.states ==> k in w'.states && TurnKept(w.states[k], w'.states[k], k, w')
    ensures InvBut(w', {})
  {
    OtherTurnsKept(w, w', d, k, ident);
    OtherDrainsKept(w, w', d, k, ident);
    SegmentsKept(w, w', d, k, ident);
  }

  lemma SegmentsKept(w: World, w': World, d: nat, k: Key, ident: nat)
    requires LastIsLive(w.states) && LogKnown(w) && OnlyDrain(w, w', d, k, ident)
    requires k in w.states ==> k in w'.states && w'.states[k].final == w.states[k].final
    ensures LastIsLive(w'.states) && LogKnown(w')
  {
  }

  lemma OtherDrainsStay(w: World, w': World, d: nat, k: Key, ident: nat, x: Key)
    requires OnlyDrain(w, w', d, k, ident) && x != k
    ensures HasDrain(w.drains, x) ==> HasDrain(w'.drains, x)
    ensures NoneShown(w'.drains, x) ==> NoneShown(w.drains, x)
  {
    if HasDrain(w.drains, x) {
      var e :| e in w.drains && w.drains[e].key == x;
      assert w'.drains[e].key == x;
    }
    if NoneShown(w'.drains, x) {
      forall e | e in w.drains && w.drains[e].key == x ensures !w.drains[e].place.Shown? {
        assert w'.drains[e] == w.drains[e];
      }
    }
  }

  lemma IsHeld(w: World, d: nat)
    requires d in w.drains
    ensures HasDrain(w.drains, w.drains[d].key)
  {
  }

  /** A drain whose turn has gone ends without a trace. */
  lemma EndDrainInv(w: World, d: nat)
    requires InvBut(w, {}) && d in w.drains && w.drains[d].key !in w.states
    ensures InvBut(EndDrain(w, d), {})
  {
    var w' := EndDrain(w, d);
    forall x | x in w'.states ensures TurnFits(w'.states[x], x, w') && Told(w'.states[x], x, w') {
      assert TurnFits(w.states[x], x, w) && Told(w.states[x], x, w);
      WithoutDrain(w, d, x);
    }
    forall e | e in w'.drains ensures DrainFits(w'.drains[e], w') {
      assert DrainFits(w.drains[e], w);
    }
  }

  lemma WithoutDrain(w: World, d: nat, x: Key)
    requires d in w.drains && w.drains[d].key != x
    ensures HasDrain(w.drains, x) ==> HasDrain(w.drains - {d}, x)
    ensures NoneShown(w.drains - {d}, x) ==> NoneShown(w.drains, x)
  {
    if HasDrain(w.drains, x) {
      var e :| e in w.drains && w.drains[e].key == x;
      assert e in w.drains - {d} && (w.drains - {d})[e].key == x;
    }
    if NoneShown(w.drains - {d}, x) {
      forall e | e in w.drains && w.drains[e].key == x ensures !w.drains[e].place.Shown? {
        assert (w.drains - {d})[e] == w.drains[e];
      }
    }
  }

  /** A failure drops the turn and ends the drain. */
  lemma FailInv(w: World, d: nat, why: Reason)
    requires InvBut(w, {}) && d in w.drains && !Showless(why)
    ensures InvBut(EndDrain(Drop(w, w.drains[d].key, why), d), {})
  {
    DropInv(w, w.drains[d].key, why, {});
    EndDrainInv(Drop(w, w.drains[d].key, why), d);
  }

  lemma SnapshotShows(tools: Tools)
    requires tools.Valid() && HasRealTool(tools)
    ensures Snapshot(tools) != []
  {
    var id :| id in tools.items && id.ToolCall?;
    assert id in tools.keys;
  }

  /** All that is known of a drain that still has its turn. */
  lemma DrainFacts(w: World, d: nat)
    requires InvBut(w, {}) && d in w.drains && w.drains[d].key in w.states
    ensures var k := w.drains[d].key; var t := w.states[k]; var p := w.drains[d].place;
      && TurnFits(t, k, w) && Told(t, k, w) && t.scheduled && t.tools.Valid()
      && (!p.Top? ==> SnapKnown(w.drains[d], w) && SnapFits(p.snap, t) && StillThere(w, k, p.snap))
      && (!p.Shown? ==> NoneShown(w.drains, k))
  {
    var k := w.drains[d].key;
    assert DrainFits(w.drains[d], w) && TurnFits(w.states[k], k, w) && Told(w.states[k], k, w);
  }

  lemma AtTopInv(w: World, d: nat, luck: Luck)
    requires Inv(w) && d in w.drains && w.drains[d].place.Top?
    ensures InvBut(AtTop(w, d, luck), {})
  {
    var k := w.drains[d].key;
    if k !in w.states {
      EndDrainInv(w, d);
    } else if luck.offline {
      FailInv(w, d, Offline);
    } else {
      var t, w' := w.states[k], AtTop(w, d, luck);
      DrainFacts(w, d);
      SnapshotShows(t.tools);
      IsHeld(w', d);
      OthersKeep(w, w', d, k, t.ident);
    }
  }

  lemma ConfigureInv(w: World, d: nat, luck: Luck)
    requires Inv(w) && d in w.drains && w.drains[d].place.Snapped?
    ensures InvBut(Configure(w, d, w.drains[d].place.snap, luck), {})
  {
    var k, s := w.drains[d].key, w.drains[d].place.snap;
    if luck.outcome != Works {
      FailInv(w, d, DeliveryFailed);
    } else if k !in w.states {
      EndDrainInv(w, d);
    } else {
      var w' := Configure(w, d, s, luck);
      DrainFacts(w, d);
      IsHeld(w', d);
      OthersKeep(w, w', d, k, s.ident);
    }
  }

  lemma StartSendInv(w: World, d: nat)
    requires Inv(w) && d in w.drains && w.drains[d].place.Snapped? && w.drains[d].place.snap.messageId.None?
      && w.drains[d].place.snap.configured
    ensures InvBut(StartSend(w, d, w.drains[d].place.snap), {})
  {
    var k, s := w.drains[d].key, w.drains[d].place.snap;
    if k !in w.states {
      EndDrainInv(w, d);
    } else {
      var w' := StartSend(w, d, s);
      DrainFacts(w, d);
      IsHeld(w', d);
      OthersKeep(w, w', d, k, s.ident);
    }
  }

  lemma ShownInv(w: World, d: nat, place: Place, exhaustions: nat, note: Note)
    requires InvBut(w, {}) && d in w.drains && !w.drains[d].place.Top? && !w.drains[d].place.Shown?
    requires place.Shown? && place.snap == w.drains[d].place.snap && place.snap.configured && (place.sentAs.Some? <==> place.snap.messageId.None?)
    requires w.drains[d].place.Sending? || place.sentAs.None?
    requires note == if place.sentAs.Some? then Sent(place.snap.ident, place.snap.frame)
                     else Edited(place.snap.ident, place.snap.nextSeq, place.snap.frame)
    ensures InvBut(w.(drains := w.drains[d := Drain(w.drains[d].key, place, exhaustions)], log := w.log + [note]), {})
  {
    var k, s := w.drains[d].key, place.snap;
    var w' := w.(drains := w.drains[d := Drain(k, place, exhaustions)], log := w.log + [note]);
    assert DrainFits(w.drains[d], w);
    Append(w.log, note, s.ident);
    WellToldAppend(w.log, note);
    IsHeld(w', d);
    assert !NoneShown(w'.drains, k) by {
      assert w'.drains[d].place.Shown?;
    }
    if k in w.states {
      DrainFacts(w, d);
    }
    OthersKeep(w, w', d, k, s.ident);
  }

  lemma SendInv(w: World, d: nat, luck: Luck)
    requires InvBut(w, {}) && d in w.drains && w.drains[d].place.Sending?
    ensures InvBut(Send(w, d, w.drains[d].place.snap, luck), {})
  {
    var s := w.drains[d].place.snap;
    if luck.outcome == Works {
      assert DrainFits(w.drains[d], w);
      ShownInv(w, d, Shown(s, Some(luck.newId)), w.drains[d].exhaustions, Sent(s.ident, s.frame));
    } else {
      FailInv(w, d, DeliveryFailed);
    }
  }

  lemma SendEditInv(w: World, d: nat, luck: Luck)
    requires InvBut(w, {}) && d in w.drains && w.drains[d].place.Snapped? && w.drains[d].place.snap.messageId.Some?
      && w.drains[d].place.snap.configured
    ensures InvBut(SendEdit(w, d, w.drains[d].place.snap, luck), {})
  {
    match luck.outcome
    case Works =>
      var s := w.drains[d].place.snap;
      ShownInv(w, d, Shown(s, None), 0, Edited(s.ident, s.nextSeq, s.frame));
    case GivesUp => GiveUpInv(w, d);
    case Throws => FailInv(w, d, DeliveryFailed);
  }

  lemma GiveUpInv(w: World, d: nat)
    requires InvBut(w, {}) && d in w.drains && w.drains[d].place.Snapped?
    ensures InvBut(GiveUp(w, d), {})
  {
    if w.drains[d].exhaustions + 1 >= MAX_PROGRESS_EDIT_EXHAUSTIONS {
      FailInv(w, d, DeliveryFailed);
    } else {
      RetryInv(w, d);
    }
  }

  lemma RetryInv(w: World, d: nat)
    requires InvBut(w, {}) && d in w.drains && w.drains[d].place.Snapped?
    ensures InvBut(Retry(w, d), {})
  {
    var k, w' := w.drains[d].key, Retry(w, d);
    assert DrainFits(w.drains[d], w);
    IsHeld(w', d);
    if k in w.states {
      DrainFacts(w, d);
    }
    OthersKeep(w, w', d, k, w.drains[d].place.snap.ident);
  }

  lemma CloseInv(w: World, ident: nat)
    requires InvBut(w, {}) && ident < |w.created| && w.created[ident] !in w.states && KeyFree(w, w.created[ident])
    requires LastFrame(w.log, ident).Some? && LastFrame(w.log, ident).value.final && Closed(ident) !in w.log
    ensures InvBut(w.(log := w.log + [Closed(ident)]), {})
  {
    var w' := w.(log := w.log + [Closed(ident)]);
    WellToldAppend(w.log, Closed(ident));
    forall x | x in w'.states ensures TurnFits(w'.states[x], x, w') && Told(w'.states[x], x, w') {
      assert TurnFits(w.states[x], x, w) && Told(w.states[x], x, w);
      Append(w.log, Closed(ident), w.states[x].ident);
    }
    forall e | e in w'.drains ensures DrainFits(w'.drains[e], w') {
      assert DrainFits(w.drains[e], w);
      if !w.drains[e].place.Top? {
        Append(w.log, Closed(ident), w.drains[e].place.snap.ident);
      }
    }
  }

  /** What a drain has shown is what its turn takes over. */
  lemma DeliveredFacts(w: World, d: nat)
    requires InvBut(w, {}) && d in w.drains && w.drains[d].place.Shown? && w.drains[d].key in w.states
    ensures var k := w.drains[d].key; var s := w.drains[d].place.snap;
      var t := Delivered(w.states[k], s, w.drains[d].place.sentAs);
      && TurnFits(t, k, w) && Edits(w.log, t.ident) == t.cardSeq && Seen(w.log, t.ident) == t.delivered
      && (t.revision == s.frame.revision ==> t.asked <= t.delivered && (t.final ==> s.frame.final))
  {
    DrainFacts(w, d);
  }

  lemma GoOnInv(w: World, d: nat)
    requires InvBut(w, {}) && d in w.drains && w.drains[d].place.Shown? && w.drains[d].key in w.states
    ensures var k := w.drains[d].key;
      InvBut(MoveDrain(SetTurn(w, k, Delivered(w.states[k], w.drains[d].place.snap, w.drains[d].place.sentAs)), d, Top), {})
  {
    var k, s := w.drains[d].key, w.drains[d].place.snap;
    var w' := MoveDrain(SetTurn(w, k, Delivered(w.states[k], s, w.drains[d].place.sentAs)), d, Top);
    DrainFacts(w, d);
    DeliveredFacts(w, d);
    IsHeld(w', d);
    OthersKeep(w, w', d, k, s.ident);
  }

  lemma RestInv(w: World, d: nat, t: Turn)
    requires InvBut(w, {}) && d in w.drains && w.drains[d].key in w.states
    requires TurnFits(t, w.drains[d].key, w) && Edits(w.log, t.ident) == t.cardSeq && Seen(w.log, t.ident) == t.delivered
    requires !t.scheduled && Served(t) && t.final == w.states[w.drains[d].key].final
    ensures InvBut(EndDrain(SetTurn(w, w.drains[d].key, t), d), {})
  {
    var k := w.drains[d].key;
    var w' := EndDrain(SetTurn(w, k, t), d);
    forall x | x in w'.states ensures TurnFits(w'.states[x], x, w') && Told(w'.states[x], x, w') {
      if x != k {
        assert TurnFits(w.states[x], x, w) && Told(w.states[x], x, w);
        WithoutDrain(w, d, x);
      }
    }
    forall e | e in w'.drains ensures DrainFits(w'.drains[e], w') {
      assert DrainFits(w.drains[e], w);
    }
  }

  lemma CommitInv(w: World, d: nat)
    requires InvBut(w, {}) && d in w.drains && w.drains[d].place.Shown?
    ensures InvBut(Commit(w, d, w.drains[d].place.snap, w.drains[d].place.sentAs), {})
  {
    var k, s := w.drains[d].key, w.drains[d].place.snap;
    if k !in w.states {
      EndDrainInv(w, d);
    } else {
      var t := Delivered(w.states[k], s, w.drains[d].place.sentAs);
      DrainFacts(w, d);
      DeliveredFacts(w, d);
      if t.revision != s.frame.revision {
        GoOnInv(w, d);
      } else if t.final {
        RemoveInv(w, k, {});
        EndDrainInv(Remove(w, k), d);
        CloseInv(EndDrain(Remove(w, k), d), t.ident);
      } else {
        RestInv(w, d, t.(scheduled := false));
      }
    }
  }

  /** There is always something to show: the branch for an empty snapshot is never taken. */
  lemma NeverEmpty(w: World, d: nat)
    requires InvBut(w, {}) && d in w.drains && !w.drains[d].place.Top?
    ensures w.drains[d].place.snap.frame.tools != []
  {
    assert DrainFits(w.drains[d], w);
  }

  lemma DrainStepInv(w: World, d: nat, luck: Luck)
    requires Inv(w) && d in w.drains
    ensures InvBut(DrainStep(w, d, luck), {})
  {
    match w.drains[d].place
    case Top => AtTopInv(w, d, luck);
    case Snapped(s) =>
      NeverEmpty(w, d);
      if !s.configured {
        ConfigureInv(w, d, luck);
      } else if s.messageId.None? {
        StartSendInv(w, d);
      } else {
        SendEditInv(w, d, luck);
      }
    case Sending(s) => SendInv(w, d, luck);
    case Shown(s, sentAs) => CommitInv(w, d);
  }

  /** Every step keeps the invariant. */
  lemma NextInv(w: World, ev: Event)
    requires Inv(w) && Legal(w, ev)
    ensures Inv(Next(w, ev))
  {
    match ev {
      case Starting(k, adapter, chat, requester) =>
        AddTurnInv(w, k, NewTurn(|w.created|, adapter, chat, requester, false), {});
      case Hooking(_, _, k, hook, accepts) => OnTurnInv(w, k, hook, accepts);
      case Rolling(_, _, k, accepts) => RolloverInv(w, k, accepts);
      case Cancelling(k) => DropInv(w, k, Cancelled, {});
      case Draining(d, luck) => DrainStepInv(w, d, luck);
    }
    Whole(Next(w, ev));
  }
}
