/** CardProgressController of card_progress.py: every method is one section under its lock. */
module ProgressController {
  import opened Wrappers
  import opened OrderedDict
  import opened CardProgress

  /** A hook finds its turn and does what it does to it, or finds none and does nothing. */
  ghost predicate HookDone(w: World, w': World, session: string, turn: string, h: Hook, accepts: bool) {
    if exists k :: Picks(w.states, session, turn, k)
    then exists k :: Picks(w.states, session, turn, k) && w' == OnTurn(w, k, h, accepts)
    else w' == w
  }

  /** There is never a choice of turns. */
  lemma PicksOne(states: map<Key, Turn>, session: string, turn: string, a: Key, b: Key)
    requires Picks(states, session, turn, a) && Picks(states, session, turn, b)
    ensures a == b
  {
    assert Live(states, a) && Live(states, b);
  }

  lemma PickedHook(w: World, session: string, turn: string, k: Key, h: Hook, accepts: bool)
    requires Picks(w.states, session, turn, k)
    ensures HookDone(w, OnTurn(w, k, h, accepts), session, turn, h, accepts)
  {
  }

  /** Dropping several turns, in the order of the list. */
  function DropAll(w: World, keys: seq<Key>): World
    decreases |keys|
  {
    if keys == [] then w else DropAll(Drop(w, keys[0], Cancelled), keys[1..])
  }

  lemma {:induction false} DropAllOneMore(w: World, keys: seq<Key>, k: Key)
    ensures DropAll(w, keys + [k]) == Drop(DropAll(w, keys), k, Cancelled)
    decreases |keys|
  {
    if keys == [] {
      assert keys + [k] == [k] && [k][1..] == [];
    } else {
      DropAllOneMore(Drop(w, keys[0], Cancelled), keys[1..], k);
      assert (keys + [k])[1..] == keys[1..] + [k];
    }
  }

  /** The turns of a session; none for the empty one. */
  ghost predicate ListsSession(keys: seq<Key>, states: map<Key, Turn>, session: string) {
    forall k :: k in keys <==> k in states && k.session == session && session != ""
  }

  method MaxSegment(keys: set<Key>) returns (best: Key)
    requires keys != {}
    ensures best in keys && forall x <- keys :: x.segment <= best.segment
  {
    best :| best in keys;
    var rest := keys - {best};
    while rest != {}
      invariant best in keys && rest <= keys
      invariant forall x <- keys - rest :: x.segment <= best.segment
      decreases rest
    {
      var x :| x in rest;
      rest := rest - {x};
      if x.segment > best.segment {
        best := x;
      }
    }
  }

  class CardProgressController {
    var states: map<Key, Turn>
    var drains: map<nat, Drain>
    var created: seq<Key>
    var nextDrain: nat
    var log: seq<Note>

    function State(): World
      reads this
    {
      World(states, drains, created, nextDrain, log)
    }

    constructor ()
      ensures State() == World(map[], map[], [], 0, [])
    {
      states, drains, created, nextDrain, log := map[], map[], [], 0, [];
    }

    method FindKey(session: string, turn: string) returns (r: Option<Key>)
      ensures r.Some? ==> Picks(states, session, turn, r.value)
      ensures r.None? ==> !exists k :: Picks(states, session, turn, k)
    {
      if session == "" {
        return None;
      }
      var candidates := set k | k in states && !states[k].final && k.session == session;
      assert forall x :: x in candidates <==> Live(states, x) && x.session == session;
      if turn != "" {
        var exact := set k | k in candidates && k.turn == turn;
        if exact != {} {
          var best := MaxSegment(exact);
          return Some(best);
        }
        forall x | Live(states, x) && x.session == session ensures x.turn != turn {
          assert x.turn == turn ==> x in exact;
        }
      }
      if candidates == {} {
        return None;
      }
      var best := MaxSegment(candidates);
      var others := set k | k in candidates && k.turn != best.turn;
      if others != {} {
        var other :| other in others;
        assert Live(states, best) && Live(states, other);
        return None;
      }
      forall x | Live(states, x) && x.session == session ensures x.turn == best.turn {
        assert x.turn != best.turn ==> x in others;
      }
      r := Some(best);
    }

    /** _drop_state_locked. */
    method DropState(k: Key, why: Reason)
      modifies this`states, this`log
      ensures State() == Drop(old(State()), k, why)
    {
      if k in states {
        log := log + [Dropped(states[k].ident, why)];
        states := states - {k};
      }
    }

    method ScheduleLocked(k: Key, accepts: bool)
      modifies this
      ensures State() == Schedule(old(State()), k, accepts)
    {
      if k !in states {
        return;
      }
      var t := states[k];
      if t.scheduled {
        states := states[k := t.(asked := t.revision)];
        return;
      }
      if !HasRealTool(t.tools) {
        if t.final {
          DropState(k, Blank);
        }
        return;
      }
      if accepts {
        states := states[k := t.(scheduled := true, asked := t.revision)];
        drains := drains[nextDrain := Drain(k, Top, 0)];
        nextDrain := nextDrain + 1;
      } else {
        DropState(k, Unschedulable);
      }
    }

    /** begin: nothing while a segment is live, and else the segment after the last. */
    method BeginTurn(session: string, turn: string, adapter: nat, chat: string, requester: string)
      modifies this
      ensures (exists k :: Begins(old(State()), k) && k.session == session && k.turn == turn) ==>
        exists k :: Begins(old(State()), k) && k.session == session && k.turn == turn
          && State() == BeginAt(old(State()), k, adapter, chat, requester)
      ensures (!exists k :: Begins(old(State()), k) && k.session == session && k.turn == turn) ==> State() == old(State())
    {
      if session == "" || turn == "" {
        return;
      }
      var matching := set k | k in states && k.session == session && k.turn == turn;
      if exists k :: k in matching && !states[k].final {
        return;
      }
      var segment := 0;
      if matching != {} {
        var last := MaxSegment(matching);
        segment := last.segment + 1;
        assert last == Key(session, turn, segment - 1);
      }
      var k := Key(session, turn, segment);
      assert forall x <- states :: SameTurn(x, k) ==> x in matching;
      assert Begins(State(), k);
      states := states[k := NewTurn(|created|, adapter, chat, requester, false)];
      created := created + [k];
    }

    method ModelStarted(session: string, turn: string, call: string)
      modifies this`states
      ensures HookDone(old(State()), State(), session, turn, Hook.ModelStarted(call), true)
    {
      var found := FindKey(session, turn);
      if found.Some? {
        PickedHook(State(), session, turn, found.value, Hook.ModelStarted(call), true);
        var t := states[found.value];
        t := t.(tools := t.tools.Put(Thought(call), Running));
        t := t.(phase := Thinking);
        states := states[found.value := t.(revision := t.revision + 1)];
      }
    }

    method ModelFinished(session: string, turn: string, call: Option<string>, answering: bool, failed: bool, accepts: bool)
      modifies this
      ensures HookDone(old(State()), State(), session, turn, Hook.ModelFinished(call, answering, failed), accepts)
    {
      var found := FindKey(session, turn);
      if found.Some? {
        PickedHook(State(), session, turn, found.value, Hook.ModelFinished(call, answering, failed), accepts);
        var k, t := found.value, states[found.value];
        var step := ThoughtToEnd(t.tools, call);
        if step.None? {
          return;
        }
        t := t.(tools := t.tools.Put(step.value, if failed then Broken else Succeeded));
        if answering {
          t := t.(phase := Answering);
        }
        states := states[k := t.(revision := t.revision + 1)];
        assert Hooked(old(states[k]), Hook.ModelFinished(call, answering, failed)) == Some(states[k]);
        ScheduleLocked(k, accepts);
      }
    }

    /** A card-authoring tool ends the thinking without asking for a delivery. */
    method ToolStarted(session: string, turn: string, call: string, authoring: bool, accepts: bool)
      modifies this
      ensures HookDone(old(State()), State(), session, turn, if authoring then AuthoringStarted else Hook.ToolStarted(call), accepts)
    {
      var found := FindKey(session, turn);
      if found.Some? {
        PickedHook(State(), session, turn, found.value, if authoring then AuthoringStarted else Hook.ToolStarted(call), accepts);
        var k, t := found.value, states[found.value];
        if authoring {
          HideThinking(k);
          return;
        }
        t := t.(tools := t.tools.Put(ToolCall(call), Running), phase := UsingTool);
        states := states[k := t.(revision := t.revision + 1)];
        assert Hooked(old(states[k]), Hook.ToolStarted(call)) == Some(states[k]);
        ScheduleLocked(k, accepts);
      }
    }

    method HideThinking(k: Key)
      requires k in states
      modifies this`states
      ensures State() == OnTurn(old(State()), k, AuthoringStarted, true)
      ensures forall accepts :: OnTurn(old(State()), k, AuthoringStarted, accepts) == State()
    {
      var t := states[k].(tools := EndThinking(states[k].tools));
      states := states[k := t.(revision := t.revision + 1)];
    }

    method ToolFinished(session: string, turn: string, call: string, failed: bool, accepts: bool)
      modifies this
      ensures HookDone(old(State()), State(), session, turn, Hook.ToolFinished(call, failed), accepts)
    {
      var found := FindKey(session, turn);
      if found.Some? {
        PickedHook(State(), session, turn, found.value, Hook.ToolFinished(call, failed), accepts);
        var k, t := found.value, states[found.value];
        if ToolCall(call) !in t.tools.items {
          return;
        }
        t := t.(tools := t.tools.Put(ToolCall(call), if failed then Broken else Succeeded));
        states := states[k := t.(revision := t.revision + 1)];
        assert Hooked(old(states[k]), Hook.ToolFinished(call, failed)) == Some(states[k]);
        ScheduleLocked(k, accepts);
      }
    }

    method CompleteTurn(session: string, turn: string, terminal: Phase, accepts: bool)
      modifies this
      ensures HookDone(old(State()), State(), session, turn, Complete(terminal), accepts)
    {
      var found := FindKey(session, turn);
      if found.Some? {
        PickedHook(State(), session, turn, found.value, Complete(terminal), accepts);
        var k, t := found.value, states[found.value];
        t := t.(final := true, phase := terminal);
        t := t.(tools := EndRunning(t.tools, if terminal == Completed then Succeeded else Broken));
        states := states[k := t.(revision := t.revision + 1)];
        assert Hooked(old(states[k]), Complete(terminal)) == Some(states[k]);
        ScheduleLocked(k, accepts);
      }
    }

    /** rollover_for_inbound: acts when the chat and requester have exactly one live turn. */
    method Rollover(chat: string, requester: string, accepts: bool)
      modifies this
      ensures (exists k :: OnlyCandidate(old(states), chat, requester, k)) ==>
        exists k :: OnlyCandidate(old(states), chat, requester, k) && State() == RolloverAt(old(State()), k, accepts)
      ensures (!exists k :: OnlyCandidate(old(states), chat, requester, k)) ==> State() == old(State())
    {
      if chat == "" || requester == "" {
        return;
      }
      var candidates := set k | k in states && RollsOver(states[k], chat, requester);
      assert forall x :: OnlyCandidate(states, chat, requester, x) ==> x in candidates && candidates == {x};
      if candidates == {} {
        return;
      }
      var k :| k in candidates;
      if candidates != {k} {
        return;
      }
      assert forall x <- states :: RollsOver(states[x], chat, requester) ==> x in candidates;
      assert OnlyCandidate(states, chat, requester, k);
      RollSegment(k, accepts);
    }

    method RollSegment(k: Key, accepts: bool)
      requires k in states
      modifies this
      ensures State() == RolloverAt(old(State()), k, accepts)
    {
      var t := states[k];
      if !HasRealTool(t.tools) && t.messageId.None? {
        return;
      }
      var next := Key(k.session, k.turn, k.segment + 1);
      states := states[next := NewTurn(|created|, t.adapter, t.chat, t.requester, t.configured)];
      created := created + [next];
      if t.messageId.None? && !t.sendStarted {
        DropState(k, RolledAway);
        return;
      }
      t := t.(final := true, phase := Stopped, tools := EndRunning(t.tools, Broken));
      states := states[k := t.(revision := t.revision + 1)];
      ScheduleLocked(k, accepts);
    }

    /** cancel_session: every turn of the session is dropped, one by one. */
    method CancelSession(session: string)
      modifies this`states, this`log
      ensures exists keys :: ListsSession(keys, old(states), session) && State() == DropAll(old(State()), keys)
    {
      if session == "" {
        assert ListsSession([], states, session);
        return;
      }
      var doomed := set k | k in states && k.session == session;
      ghost var keys: seq<Key> := [];
      while doomed != {}
        invariant State() == DropAll(old(State()), keys)
        invariant forall k :: k in doomed <==> k in old(states) && k.session == session && k !in keys
        invariant forall k <- keys :: k in old(states) && k.session == session
        decreases doomed
      {
        var k :| k in doomed;
        DropAllOneMore(old(State()), keys, k);
        DropState(k, Cancelled);
        doomed := doomed - {k};
        keys := keys + [k];
      }
      assert ListsSession(keys, old(states), session);
    }

    // ---- drains ----

    method EndTask(d: nat)
      modifies this`drains
      ensures State() == EndDrain(old(State()), d)
    {
      drains := drains - {d};
    }

    /** One drain from where it stands to where it next lets go of the lock. */
    method AdvanceDrain(d: nat, luck: Luck)
      requires d in drains && forall k <- states :: states[k].tools.Valid()
      modifies this
      ensures State() == DrainStep(old(State()), d, luck)
    {
      match drains[d].place {
        case Top => ReadTurn(d, luck);
        case Snapped(s) =>
          if !s.configured {
            ChooseCard(d, s, luck);
          } else if s.frame.tools == [] {
            SettleEmpty(d, s);
          } else if s.messageId.None? {
            if drains[d].key !in states || states[drains[d].key].ident != s.ident {
              EndTask(d);
            } else {
              states := states[drains[d].key := states[drains[d].key].(sendStarted := true)];
              drains := drains[d := drains[d].(place := Sending(s))];
            }
          } else {
            EditCard(d, s, luck);
          }
        case Sending(s) =>
          if luck.outcome == Works {
            log := log + [Sent(s.ident, s.frame)];
            drains := drains[d := drains[d].(place := Shown(s, Some(luck.newId)))];
          } else {
            DropState(drains[d].key, DeliveryFailed);
            EndTask(d);
          }
        case Shown(s, sentAs) => TakeOver(d, s, sentAs);
      }
    }

    method ReadTurn(d: nat, luck: Luck)
      requires d in drains && forall k <- states :: states[k].tools.Valid()
      modifies this
      ensures State() == AtTop(old(State()), d, luck)
    {
      var k := drains[d].key;
      if k !in states {
        EndTask(d);
        return;
      }
      if luck.offline {
        DropState(k, Offline);
        EndTask(d);
        return;
      }
      var t := states[k];
      var snap := Snap(t.ident, t.messageId, t.cardSeq + 1, t.configured, FrameOf(t));
      drains := drains[d := drains[d].(place := Snapped(snap))];
    }

    method ChooseCard(d: nat, s: Snap, luck: Luck)
      requires d in drains
      modifies this
      ensures State() == Configure(old(State()), d, s, luck)
    {
      var k := drains[d].key;
      if luck.outcome != Works {
        DropState(k, DeliveryFailed);
        EndTask(d);
        return;
      }
      if k !in states || states[k].ident != s.ident {
        EndTask(d);
        return;
      }
      states := states[k := states[k].(configured := true)];
      drains := drains[d := drains[d].(place := Top)];
    }

    method SettleEmpty(d: nat, s: Snap)
      requires d in drains
      modifies this
      ensures State() == NothingToShow(old(State()), d, s)
    {
      var k := drains[d].key;
      if k in states && states[k].ident == s.ident {
        var t := states[k].(delivered := s.frame.revision, scheduled := false);
        if t.final {
          DropState(k, Blank);
        } else {
          states := states[k := t];
        }
      }
      EndTask(d);
    }

    method EditCard(d: nat, s: Snap, luck: Luck)
      requires d in drains
      modifies this
      ensures State() == SendEdit(old(State()), d, s, luck)
    {
      var drain := drains[d];
      match luck.outcome {
        case Works =>
          log := log + [Edited(s.ident, s.nextSeq, s.frame)];
          drains := drains[d := Drain(drain.key, Shown(s, None), 0)];
        case GivesUp =>
          var exhaustions := drain.exhaustions + 1;
          if exhaustions >= MAX_PROGRESS_EDIT_EXHAUSTIONS {
            DropState(drain.key, DeliveryFailed);
            EndTask(d);
          } else {
            drains := drains[d := Drain(drain.key, Top, exhaustions)];
          }
        case Throws =>
          DropState(drain.key, DeliveryFailed);
          EndTask(d);
      }
    }

    method TakeOver(d: nat, s: Snap, sentAs: Option<string>)
      requires d in drains
      modifies this
      ensures State() == Commit(old(State()), d, s, sentAs)
    {
      var k := drains[d].key;
      if k !in states || states[k].ident != s.ident {
        EndTask(d);
        return;
      }
      var t := states[k];
      if sentAs.Some? {
        t := t.(sendStarted := false, messageId := sentAs);
      } else {
        t := t.(cardSeq := s.nextSeq);
      }
      t := t.(delivered := s.frame.revision);
      if t.revision != s.frame.revision {
        states := states[k := t];
        drains := drains[d := drains[d].(place := Top)];
        return;
      }
      if t.final {
        states := states - {k};
        log := log + [Closed(t.ident)];
      } else {
        states := states[k := t.(scheduled := false)];
      }
      EndTask(d);
    }
  }
}
