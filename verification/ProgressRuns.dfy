/** Progress cards over whole runs of hooks and drains. */
module ProgressRuns {
  import opened Wrappers
  import opened CardProgress
  import opened ProgressInvariant
  import opened ProgressAccounts

  function Start(): World {
    World(map[], map[], [], 0, [])
  }

  ghost predicate LegalRun(w: World, evs: seq<Event>)
    requires Inv(w)
    decreases |evs|
  {
    evs == [] || (Legal(w, evs[0]) && (NextInv(w, evs[0]); LegalRun(Next(w, evs[0]), evs[1..])))
  }

  ghost function Run(w: World, evs: seq<Event>): (r: World)
    requires Inv(w) && LegalRun(w, evs)
    ensures Inv(r)
    decreases |evs|
  {
    if evs == [] then w else (NextInv(w, evs[0]); Run(Next(w, evs[0]), evs[1..]))
  }

  // ---- the numbers of a turn's edits ----

  function EditNumbers(log: seq<Note>, ident: nat): seq<nat> {
    if log == [] then [] else
    var n := |log| - 1;
    EditNumbers(log[..n], ident) + if log[n].Edited? && log[n].ident == ident then [log[n].seqNo] else []
  }

  lemma {:induction false} EditsCount(log: seq<Note>, ident: nat)
    requires WellTold(log)
    ensures |EditNumbers(log, ident)| == Edits(log, ident)
    ensures forall i :: 0 <= i < |EditNumbers(log, ident)| ==> EditNumbers(log, ident)[i] == i + 1
    decreases |log|
  {
    if log != [] {
      var rest := log[..|log| - 1];
      forall i | 0 <= i < |rest| ensures log[..i] == rest[..i] {
      }
      EditsCount(rest, ident);
    }
  }

  /** After a turn is closed nothing more of it is shown. */
  lemma {:induction false} ClosedForGood(log: seq<Note>, ident: nat)
    requires WellTold(log) && Closed(ident) in log
    ensures LastFrame(log, ident).Some? && LastFrame(log, ident).value.final
    decreases |log|
  {
    var n := |log| - 1;
    assert WellTold(log[..n]) by {
      forall i | 0 <= i < n ensures log[..n][..i] == log[..i] {
      }
    }
    if log[n] == Closed(ident) {
    } else {
      assert Closed(ident) in log[..n];
      assert log[n].ident != ident;
      ClosedForGood(log[..n], ident);
    }
  }

  // ---- safety ----

  /** Two drains never work on one turn. */
  ghost predicate NoOverlap(w: World) {
    forall d, e :: d in w.drains && e in w.drains && d != e ==>
      && w.drains[d].key != w.drains[e].key
      && (!w.drains[d].place.Top? && !w.drains[e].place.Top? ==> w.drains[d].place.snap.ident != w.drains[e].place.snap.ident)
  }

  /** A turn without a drain is live and has shown all it asked to show; a final one is on its way. */
  ghost predicate UpToDate(w: World) {
    forall k <- w.states :: var t := w.states[k];
      && (!t.scheduled ==> !t.final && t.asked <= Seen(w.log, t.ident))
      && (t.scheduled ==> HasDrain(w.drains, k))
  }

  lemma NotScheduledIsTold(w: World, k: Key)
    requires Inv(w) && k in w.states && !w.states[k].scheduled
    ensures !w.states[k].final && w.states[k].asked <= Seen(w.log, w.states[k].ident)
  {
    var t := w.states[k];
    assert TurnFits(t, k, w) && Told(t, k, w) && Served(t);
    NoDrainYet(w, k);
  }

  lemma InvMeans(w: World)
    requires Inv(w)
    ensures NoOverlap(w) && UpToDate(w)
  {
    forall d, e | d in w.drains && e in w.drains && d != e && !w.drains[d].place.Top? && !w.drains[e].place.Top?
      ensures w.drains[d].place.snap.ident != w.drains[e].place.snap.ident
    {
      assert DrainFits(w.drains[d], w) && DrainFits(w.drains[e], w);
    }
    forall k | k in w.states && !w.states[k].scheduled ensures !w.states[k].final && w.states[k].asked <= Seen(w.log, w.states[k].ident) {
      NotScheduledIsTold(w, k);
    }
    forall k | k in w.states && w.states[k].scheduled ensures HasDrain(w.drains, k) {
      assert TurnFits(w.states[k], k, w);
    }
  }

  lemma {:induction false} RunAccounted(w: World, evs: seq<Event>)
    requires Inv(w) && LegalRun(w, evs) && Accounted(w)
    ensures Accounted(Run(w, evs))
    decreases |evs|
  {
    if evs != [] {
      NextInv(w, evs[0]);
      NextAccounts(w, evs[0]);
      AccountsKeeps(w, Next(w, evs[0]));
      RunAccounted(Next(w, evs[0]), evs[1..]);
    }
  }

  /** Dropped for a reason; nothing had been shown of it if it was blank or rolled away. */
  ghost predicate DroppedFor(log: seq<Note>, ident: nat) {
    exists i | 0 <= i < |log| :: log[i].Dropped? && log[i].ident == ident
      && (Showless(log[i].why) ==> LastFrame(log[..i], ident).None?)
  }

  lemma DroppedForAReason(log: seq<Note>, ident: nat)
    requires WellTold(log) && HasDropped(log, ident)
    ensures DroppedFor(log, ident)
  {
    var note :| note in log && note.Dropped? && note.ident == ident;
    var i :| 0 <= i < |log| && log[i] == note;
    assert Showless(log[i].why) ==> LastFrame(log[..i], log[i].ident).None?;
  }

  /** A turn that has gone has shown its final frame last, or was dropped for a reason. */
  ghost predicate EndedWell(w: World, ident: nat) {
    || (Closed(ident) in w.log && LastFrame(w.log, ident).Some? && LastFrame(w.log, ident).value.final)
    || DroppedFor(w.log, ident)
  }

  /**
   Over every run of hooks, cancellations, failures and drain steps that reuses no key on which a
   drain still sleeps: drains never overlap, a turn at rest has shown what it asked to show, edits
   are numbered 1, 2, 3, ..., and of a turn that has gone the last thing shown is its final frame,
   unless it was dropped by a failure, a refusal or a cancellation, or before anything was shown.
   */
  lemma ProgressSafety(evs: seq<Event>, ident: nat)
    requires Inv(Start()) && LegalRun(Start(), evs)
    ensures var w := Run(Start(), evs);
      && NoOverlap(w) && UpToDate(w)
      && (forall i :: 0 <= i < |EditNumbers(w.log, ident)| ==> EditNumbers(w.log, ident)[i] == i + 1)
      && (ident < |w.created| && !Present(w, ident) ==> EndedWell(w, ident))
  {
    var w := Run(Start(), evs);
    InvMeans(w);
    EditsCount(w.log, ident);
    RunAccounted(Start(), evs);
    if ident < |w.created| && !Present(w, ident) {
      if Closed(ident) in w.log {
        ClosedForGood(w.log, ident);
      } else {
        DroppedForAReason(w.log, ident);
      }
    }
  }

  lemma FromNothing()
    ensures Inv(Start())
  {
  }

  // ---- reusing a key ----

  ghost predicate ToolsValid(w: World) {
    forall k <- w.states :: w.states[k].tools.Valid()
  }

  /** The world after a turn has begun under `k` and its first tool has started. */
  function BegunAndBusy(w: World, k: Key, adapter: nat, chat: string, requester: string, call: string): World {
    OnTurn(BeginAt(w, k, adapter, chat, requester), k, ToolStarted(call), true)
  }

  lemma FirstDrainStarts(w: World, k: Key, adapter: nat, chat: string, requester: string, call: string)
    ensures var w' := BegunAndBusy(w, k, adapter, chat, requester, call);
      && w'.drains == w.drains[w.nextDrain := Drain(k, Top, 0)] && k in w'.states
      && (ToolsValid(w) ==> ToolsValid(w'))
  {
    var t := Hooked(NewTurn(|w.created|, adapter, chat, requester, false), ToolStarted(call)).value;
    assert ToolCall(call) in t.tools.items;
    assert HasRealTool(t.tools);
    var w' := BegunAndBusy(w, k, adapter, chat, requester, call);
    assert w'.states[k] == t.(scheduled := true, asked := t.revision);
  }

  lemma FreeKeyKeepsApart(w: World, k: Key, adapter: nat, chat: string, requester: string, call: string)
    requires Inv(w) && Begins(w, k) && KeyFree(w, k)
    ensures NoOverlap(BegunAndBusy(w, k, adapter, chat, requester, call))
  {
    var begun := BeginAt(w, k, adapter, chat, requester);
    NextInv(w, Starting(k, adapter, chat, requester));
    OnTurnInv(begun, k, ToolStarted(call), true);
    Whole(BegunAndBusy(w, k, adapter, chat, requester, call));
    InvMeans(BegunAndBusy(w, k, adapter, chat, requester, call));
  }

  /**
   The condition is needed, exactly: when a turn begins and its first tool starts, the drains are kept
   apart if and only if no drain of an earlier turn is left on the key.
   */
  lemma ReuseOverlapsIff(w: World, k: Key, adapter: nat, chat: string, requester: string, call: string)
    requires Inv(w) && Begins(w, k)
    ensures NoOverlap(BegunAndBusy(w, k, adapter, chat, requester, call)) <==> KeyFree(w, k)
  {
    if KeyFree(w, k) {
      FreeKeyKeepsApart(w, k, adapter, chat, requester, call);
    } else {
      var d :| d in w.drains && w.drains[d].key == k;
      FirstDrainStarts(w, k, adapter, chat, requester, call);
      var w' := BegunAndBusy(w, k, adapter, chat, requester, call);
      assert d < w.nextDrain && w'.drains[d].key == w'.drains[w.nextDrain].key;
    }
  }

  /** A drain that is left at its top, whether it sleeps between two edits or has not run yet, works on the new turn too. */
  lemma ReuseOverlaps(w: World, d: nat, k: Key, adapter: nat, chat: string, requester: string, call: string, luck: Luck)
    requires Inv(w) && Begins(w, k) && d in w.drains && w.drains[d].key == k && w.drains[d].place.Top? && !luck.offline
    ensures var w' := BegunAndBusy(w, k, adapter, chat, requester, call); var e := w.nextDrain;
      && d in w'.drains && e in w'.drains && d != e && k in w'.states
      && DrainStep(DrainStep(w', d, luck), e, luck).drains[d].place == Snapped(TakeSnap(w'.states[k]))
      && DrainStep(DrainStep(w', d, luck), e, luck).drains[e].place == Snapped(TakeSnap(w'.states[k]))
  {
    FirstDrainStarts(w, k, adapter, chat, requester, call);
    assert d < w.nextDrain;
    OverlappingDrainsAgree(BegunAndBusy(w, k, adapter, chat, requester, call), d, w.nextDrain, k, luck);
  }

  /** Two drains of one turn take the same snapshot, and with it the same number for their next edit. */
  lemma OverlappingDrainsAgree(w: World, d: nat, e: nat, k: Key, luck: Luck)
    requires ToolsValid(w) && d in w.drains && e in w.drains && d != e && k in w.states && !luck.offline
    requires w.drains[d].key == k && w.drains[d].place.Top? && w.drains[e].key == k && w.drains[e].place.Top?
    ensures var w' := DrainStep(DrainStep(w, d, luck), e, luck);
      w'.drains[d].place == w'.drains[e].place == Snapped(TakeSnap(w.states[k]))
  {
  }

  // ---- rest ----

  /** The drain works on what its turn shows now. */
  predicate Current(t: Turn, p: Place) {
    p.Top? || (p.snap.frame.revision == t.revision && p.snap.configured == t.configured)
  }

  /** How many steps without failures it takes from the top. */
  function FromTop(t: Turn): nat {
    if !t.configured then 6 else if t.messageId.None? then 4 else 3
  }

  /** And from anywhere else: what the drain has with it may have been overtaken by a hook. */
  function Ahead(t: Turn, p: Place): nat {
    match p
    case Top => FromTop(t)
    case Snapped(s) =>
      if !s.configured then 1 + FromTop(t.(configured := true))
      else if s.messageId.None? then (if Current(t, p) then 3 else 6)
      else (if Current(t, p) then 2 else 5)
    case Sending(s) => if Current(t, p) then 2 else 5
    case Shown(s, _) => if Current(t, p) then 1 else 4
  }

  /** The turn has shown its present revision: it is at rest, or closed if that was final. */
  ghost predicate AtRest(w: World, k: Key, t: Turn) {
    if t.final then k !in w.states && Closed(t.ident) in w.log
    else k in w.states && !w.states[k].scheduled && w.states[k].revision == t.revision && Seen(w.log, t.ident) == t.revision
  }

  /** The same turn, as far as coming to rest goes. */
  predicate Alike(t: Turn, t': Turn) {
    t'.ident == t.ident && t'.revision == t.revision && t'.final == t.final
  }

  lemma AtRestAlike(w: World, k: Key, t: Turn, t': Turn)
    requires Alike(t, t') && AtRest(w, k, t')
    ensures AtRest(w, k, t)
  {
  }

  /** How far the drain is from the end of its work on `k`. */
  function Distance(w: World, d: nat, k: Key): nat
    requires d in w.drains && k in w.states
  {
    Ahead(w.states[k], w.drains[d].place)
  }

  /** After one step the drain is closer to the end, with the same turn, or the turn is at rest. */
  ghost predicate Closer(w: World, w': World, d: nat, k: Key)
    requires d in w.drains && k in w.states
  {
    if d in w'.drains then
      w'.drains[d].key == k && k in w'.states && Distance(w', d, k) < Distance(w, d, k) && Alike(w.states[k], w'.states[k])
    else AtRest(w', k, w.states[k])
  }

  lemma LuckyStep(w: World, d: nat, k: Key, luck: Luck)
    requires Inv(w) && d in w.drains && w.drains[d].key == k && k in w.states && !luck.offline && luck.outcome == Works
    ensures Closer(w, DrainStep(w, d, luck), d, k) && Distance(w, d, k) <= 6
  {
    DrainFacts(w, d);
  }

  ghost function LuckyRun(w: World, d: nat, luck: Luck, n: nat): World
    requires Inv(w)
    decreases n
  {
    if n == 0 || d !in w.drains then w
    else (NextInv(w, Draining(d, luck)); LuckyRun(DrainStep(w, d, luck), d, luck, n - 1))
  }

  lemma LuckyRunOn(w: World, d: nat, luck: Luck, n: nat)
    requires Inv(w) && d in w.drains && n > 0
    ensures Inv(DrainStep(w, d, luck)) && LuckyRun(w, d, luck, n) == LuckyRun(DrainStep(w, d, luck), d, luck, n - 1)
  {
    NextInv(w, Draining(d, luck));
  }

  lemma LuckyRunEnds(w: World, d: nat, luck: Luck, n: nat)
    requires Inv(w) && d !in w.drains
    ensures LuckyRun(w, d, luck, n) == w
  {
  }

  lemma {:induction false} ComesToRestIn(w: World, d: nat, k: Key, luck: Luck, n: nat)
    requires Inv(w) && d in w.drains && w.drains[d].key == k && k in w.states && !luck.offline && luck.outcome == Works
    requires n >= Distance(w, d, k)
    ensures AtRest(LuckyRun(w, d, luck, n), k, w.states[k])
    decreases n
  {
    var w' := DrainStep(w, d, luck);
    LuckyStep(w, d, k, luck);
    LuckyRunOn(w, d, luck, n);
    if d in w'.drains {
      ComesToRestIn(w', d, k, luck, n - 1);
      AtRestAlike(LuckyRun(w', d, luck, n - 1), k, w.states[k], w'.states[k]);
    } else {
      LuckyRunEnds(w', d, luck, n - 1);
    }
  }

  /**
   Wherever its drain is, and whatever hooks have overtaken it, a scheduled turn comes to rest in at
   most six steps if nothing fails and no further hook comes in between.
   */
  lemma ComesToRest(w: World, d: nat, luck: Luck, n: nat)
    requires Inv(w) && d in w.drains && w.drains[d].key in w.states && !luck.offline && luck.outcome == Works && n >= 6
    ensures AtRest(LuckyRun(w, d, luck, n), w.drains[d].key, w.states[w.drains[d].key])
  {
    LuckyStep(w, d, w.drains[d].key, luck);
    ComesToRestIn(w, d, w.drains[d].key, luck, n);
  }
}
