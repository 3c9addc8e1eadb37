/** A run of progress cards from the very start that leaves a drain asleep on a key that is free again. */
module ProgressWitness {
  import opened Wrappers
  import opened OrderedDict
  import opened CardProgress
  import opened ProgressInvariant
  import opened ProgressRuns

  ghost predicate Reached(w: World) {
    Inv(Start()) && exists evs :: LegalRun(Start(), evs) && Run(Start(), evs) == w
  }

  lemma {:induction false} RunOn(w: World, evs: seq<Event>, ev: Event)
    requires Inv(w) && LegalRun(w, evs) && Legal(Run(w, evs), ev)
    ensures LegalRun(w, evs + [ev]) && Run(w, evs + [ev]) == Next(Run(w, evs), ev)
    decreases |evs|
  {
    if evs == [] {
      assert evs + [ev] == [ev] && [ev][1..] == [];
      NextInv(w, ev);
    } else {
      NextInv(w, evs[0]);
      RunOn(Next(w, evs[0]), evs[1..], ev);
      assert (evs + [ev])[1..] == evs[1..] + [ev];
    }
  }

  lemma ReachedInv(w: World)
    requires Reached(w)
    ensures Inv(w)
  {
  }

  lemma ReachedOn(w: World, ev: Event)
    requires Reached(w) && Inv(w) && Legal(w, ev)
    ensures Reached(Next(w, ev))
  {
    var evs :| LegalRun(Start(), evs) && Run(Start(), evs) == w;
    RunOn(Start(), evs, ev);
    NextInv(w, ev);
  }

  const LUCKY := Luck(false, Works, "m")

  /** The only turn, with the only drain. */
  ghost predicate Alone(w: World, k: Key, t: Turn, p: Place) {
    Reached(w) && t.tools.Valid() && w.states == map[k := t] && w.drains == map[0 := Drain(k, p, 0)]
  }

  lemma FirstTurn(k: Key) returns (w: World, t: Turn)
    requires k == Key("s", "t", 0)
    ensures Reached(w) && w.states == map[k := t] && w.drains == map[] && w.nextDrain == 0
    ensures t == NewTurn(0, 0, "c", "r", false)
  {
    FromNothing();
    assert Run(Start(), []) == Start();
    ReachedOn(Start(), Starting(k, 0, "c", "r"));
    w := BeginAt(Start(), k, 0, "c", "r");
    t := NewTurn(0, 0, "c", "r", false);
    assert w.states == map[k := t];
  }

  /** The only turn is what a hook picks. */
  lemma PicksOnly(states: map<Key, Turn>, k: Key)
    requires k == Key("s", "t", 0) && k in states && states == map[k := states[k]] && !states[k].final
    ensures Picks(states, "s", "t", k)
  {
    assert Live(states, k);
  }

  lemma StartsFirstTool(w: World, k: Key, t: Turn) returns (t': Turn)
    requires t == NewTurn(0, 0, "c", "r", false) && w.states == map[k := t] && w.drains == map[] && w.nextDrain == 0
    ensures var w' := OnTurn(w, k, ToolStarted("a"), true); w'.states == map[k := t'] && w'.drains == map[0 := Drain(k, Top, 0)]
    ensures t' == Hooked(t, ToolStarted("a")).value.(scheduled := true, asked := 1) && ToolCall("a") in t'.tools.items
    ensures t'.tools.Valid()
  {
    t' := Hooked(t, ToolStarted("a")).value;
    assert ToolCall("a") in t'.tools.items;
    t' := t'.(scheduled := true, asked := 1);
    assert OnTurn(w, k, ToolStarted("a"), true).states == map[k := t'];
  }

  lemma FirstToolStarts(k: Key) returns (w: World, t: Turn)
    requires k == Key("s", "t", 0)
    ensures Alone(w, k, t, Top) && !t.final && !t.configured && t.messageId.None? && t.scheduled
    ensures ToolCall("a") in t.tools.items
  {
    var w1, t1 := FirstTurn(k);
    PicksOnly(w1.states, k);
    ReachedInv(w1);
    ReachedOn(w1, Hooking("s", "t", k, ToolStarted("a"), true));
    t := StartsFirstTool(w1, k, t1);
    w := OnTurn(w1, k, ToolStarted("a"), true);
  }

  lemma OneDrainStep(w: World, k: Key, t: Turn, p: Place, luck: Luck) returns (w': World)
    requires Alone(w, k, t, p)
    ensures Reached(w') && w' == DrainStep(w, 0, luck)
  {
    ReachedInv(w);
    ReachedOn(w, Draining(0, luck));
    w' := DrainStep(w, 0, luck);
  }

  lemma CardIsChosen(w: World, k: Key, t: Turn) returns (w': World, t': Turn)
    requires Alone(w, k, t, Top) && !t.configured && HasRealTool(t.tools)
    ensures Alone(w', k, t', Top) && t' == t.(configured := true)
  {
    var w1 := OneDrainStep(w, k, t, Top, LUCKY);
    w' := OneDrainStep(w1, k, t, Snapped(TakeSnap(t)), LUCKY);
    t' := t.(configured := true);
  }

  lemma SendStarts(w: World, k: Key, t: Turn) returns (w': World, t': Turn)
    requires Alone(w, k, t, Top) && t.configured && t.messageId.None? && HasRealTool(t.tools)
    ensures Alone(w', k, t', Sending(TakeSnap(t))) && t' == t.(sendStarted := true)
  {
    SnapshotShows(t.tools);
    var w1 := OneDrainStep(w, k, t, Top, LUCKY);
    t' := t.(sendStarted := true);
    w' := OneDrainStep(w1, k, t, Snapped(TakeSnap(t)), LUCKY);
  }

  lemma FirstFrameIsShown(w: World, k: Key, t: Turn) returns (w': World, t': Turn, p: Place)
    requires Alone(w, k, t, Top) && !t.final && t.configured && t.messageId.None? && t.scheduled && HasRealTool(t.tools)
    ensures Alone(w', k, t', p) && p.Shown? && p.sentAs == Some("m") && p.snap.ident == t'.ident
    ensures p.snap.frame.revision == t'.revision && t' == t.(sendStarted := true)
  {
    var w1;
    w1, t' := SendStarts(w, k, t);
    w' := OneDrainStep(w1, k, t', Sending(TakeSnap(t)), LUCKY);
    p := Shown(TakeSnap(t), Some("m"));
  }

  lemma FinishesTool(w: World, k: Key, t: Turn) returns (t': Turn)
    requires w.states == map[k := t] && t.tools.Valid() && t.scheduled && ToolCall("a") in t.tools.items
    ensures OnTurn(w, k, ToolFinished("a", false), true) == w.(states := map[k := t'])
    ensures t'.revision == t.revision + 1 && ToolCall("a") in t'.tools.items && t'.tools.Valid()
    ensures t' == t.(tools := t'.tools, revision := t'.revision, asked := t'.revision)
  {
    t' := Hooked(t, ToolFinished("a", false)).value;
    t' := t'.(asked := t'.revision);
    assert OnTurn(w, k, ToolFinished("a", false), true).states == map[k := t'];
  }

  /** A hook that comes while the frame is on its way. */
  lemma ToolFinishesMeanwhile(w: World, k: Key, t: Turn, p: Place) returns (w': World, t': Turn)
    requires k == Key("s", "t", 0) && Alone(w, k, t, p) && !t.final && t.scheduled && ToolCall("a") in t.tools.items
    ensures Alone(w', k, t', p) && t'.revision == t.revision + 1 && ToolCall("a") in t'.tools.items
    ensures t' == t.(tools := t'.tools, revision := t'.revision, asked := t'.revision)
  {
    PicksOnly(w.states, k);
    ReachedInv(w);
    ReachedOn(w, Hooking("s", "t", k, ToolFinished("a", false), true));
    t' := FinishesTool(w, k, t);
    w' := OnTurn(w, k, ToolFinished("a", false), true);
  }

  lemma FrameIsTakenOver(w: World, k: Key, t: Turn, p: Place) returns (w': World, t': Turn)
    requires Alone(w, k, t, p) && p.Shown? && p.sentAs == Some("m") && p.snap.ident == t.ident
    requires p.snap.frame.revision < t.revision
    ensures t' == Delivered(t, p.snap, p.sentAs) && Alone(w', k, t', Top)
  {
    t' := Delivered(t, p.snap, p.sentAs);
    w' := OneDrainStep(w, k, t, p, LUCKY);
  }

  lemma EditGivesUp(w: World, k: Key, t: Turn) returns (w': World)
    requires Alone(w, k, t, Top) && t.messageId.Some? && HasRealTool(t.tools) && t.configured
    ensures Reached(w') && w'.states == map[k := t] && w'.drains == map[0 := Drain(k, Top, 1)]
  {
    SnapshotShows(t.tools);
    var w1 := OneDrainStep(w, k, t, Top, LUCKY);
    w' := OneDrainStep(w1, k, t, Snapped(TakeSnap(t)), Luck(false, GivesUp, ""));
    assert w' == Retry(w1, 0);
  }

  lemma CancelledSleeper(w: World, k: Key)
    requires k == Key("s", "t", 0) && Reached(w) && k in w.states && w.states == map[k := w.states[k]]
    requires w.drains == map[0 := Drain(k, Top, 1)]
    ensures var w' := Drop(w, k, Cancelled); Reached(w') && Begins(w', k) && w'.drains == w.drains
  {
    ReachedInv(w);
    ReachedOn(w, Cancelling(k));
    assert Drop(w, k, Cancelled).states == map[];
  }

  /** A run from the very start that ends with a drain asleep on a key that is free again. */
  lemma SleeperIsReached()
    ensures exists w, k :: Reached(w) && Inv(w) && Begins(w, k) && 0 in w.drains && w.drains[0] == Drain(k, Top, 1)
  {
    var k := Key("s", "t", 0);
    var w1, t1 := FirstToolStarts(k);
    var w2, t2 := CardIsChosen(w1, k, t1);
    var w3, t3, p := FirstFrameIsShown(w2, k, t2);
    var w4, t4 := ToolFinishesMeanwhile(w3, k, t3, p);
    var w5, t5 := FrameIsTakenOver(w4, k, t4, p);
    var w6 := EditGivesUp(w5, k, t5);
    CancelledSleeper(w6, k);
    ReachedInv(Drop(w6, k, Cancelled));
  }
}
