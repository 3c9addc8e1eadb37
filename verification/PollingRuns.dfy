/** The poller over whole runs: what its cursor has passed, and what became of every ack. */
module PollingRuns {
  import opened Wrappers
  import opened CardActions
  import opened EventCursor
  import opened EventPolling

  /** What happened so far, for the record. */
  datatype Note =
    | Passed(passed: nat, serving: Serving)
    | AckSent(acked: nat)
    | FlushFailed(failed: nat)
    | GaveUp(lost: nat)

  datatype World = World(poll: Poll, batch: seq<nat>, log: seq<Note>)

  /**
   One write, or one fetch.  A handler that raises, and every other way a poll may end, is Stopping;
   a crash is Rebooting, after the write it may have let happen.
   */
  datatype Move =
    | Flushing(luck: FlushLuck)
    | Fetching(count: nat)
    | Passing(serving: Serving, saves: bool)
    | Stopping
    | Rebooting

  /** The server numbers its events upwards. */
  predicate Ascends(events: seq<nat>) {
    && (forall i :: 0 <= i < |events| ==> events[i] <= MAX_SAFE_EVENT_ID)
    && forall i, j :: 0 <= i < j < |events| ==> events[i] < events[j]
  }

  /** The events after a cursor. */
  function After(events: seq<nat>, cursor: nat): (r: seq<nat>)
    ensures |r| <= |events|
  {
    if events == [] || events[0] > cursor then events else After(events[1..], cursor)
  }

  predicate LegalMove(w: World, move: Move) {
    match move
    case Fetching(_) => w.poll.pending.None?
    case Passing(serving, _) => w.batch != [] && w.poll.pending.None? && !Raises(serving)
    case _ => true
  }

  function FlushNotes(p: Poll, luck: FlushLuck): seq<Note> {
    match p.pending
    case None => []
    case Some(id) =>
      if Acked(luck) then [AckSent(id)]
      else if Flush(p, luck).1.Clear? then [FlushFailed(id), GaveUp(id)]
      else [FlushFailed(id)]
  }

  function Move1(w: World, move: Move, events: seq<nat>): World
    requires LegalMove(w, move)
  {
    match move
    case Flushing(luck) =>
      var (p, e) := Flush(w.poll, luck);
      World(p, if e.Clear? then w.batch else [], w.log + FlushNotes(w.poll, luck))
    case Fetching(count) =>
      var rest := After(events, w.poll.cursor);
      w.(batch := rest[..if count < |rest| then count else |rest|])
    case Passing(serving, saves) =>
      var id := w.batch[0];
      var (p, ok) := Pass(w.poll, id, ShouldAck(serving), saves);
      if ok then World(p, w.batch[1..], w.log + [Passed(id, serving)]) else World(p, [], w.log)
    case Stopping => w.(batch := [])
    case Rebooting => World(Initialized(w.poll.file), [], w.log)
  }

  // ---- the invariant ----

  /** Memory and disk agree, and the batch is the next stretch of the server's events. */
  ghost predicate InStep(w: World, events: seq<nat>) {
    && w.poll.cursor == CursorOf(w.poll.file) && w.poll.pending == PendingOf(w.poll.file)
    && (w.poll.pending.None? ==> w.poll.failures == 0)
    && w.batch <= After(events, w.poll.cursor)
  }

  /** Every event between `start` and the cursor was passed with an answer or as malformed. */
  ghost predicate NothingSkipped(w: World, events: seq<nat>, start: nat) {
    forall e <- events :: start < e <= w.poll.cursor ==> PassedIn(w.log, e)
  }

  ghost predicate PassedIn(log: seq<Note>, e: nat) {
    exists note <- log :: note.Passed? && note.passed == e && !Raises(note.serving)
  }

  /** Every event to be acked was acked, is still durably pending, or was given up. */
  ghost predicate NothingForgotten(w: World) {
    forall note <- w.log :: note.Passed? && ShouldAck(note.serving) ==>
      AckSent(note.passed) in w.log || GaveUp(note.passed) in w.log || PendingOf(w.poll.file) == Some(note.passed)
  }

  /** Acks are sent only for events the durable cursor has passed. */
  ghost predicate AcksBehindCursor(w: World) {
    forall note <- w.log ::
      && (note.AckSent? ==> note.acked <= CursorOf(w.poll.file))
      && (note.FlushFailed? ==> note.failed <= CursorOf(w.poll.file))
  }

  /** How many failed flushes of `id` end the log. */
  function Failures(log: seq<Note>, id: nat): nat {
    if log != [] && log[|log| - 1] == FlushFailed(id) then Failures(log[..|log| - 1], id) + 1 else 0
  }

  predicate Lost(log: seq<Note>, id: nat, times: nat) {
    times <= Failures(log, id) || AckSent(id) in log
  }

  /**
   Nothing is given up before three flushes in a row have failed, unless it has been acked: an ack
   that went through but could not be taken off the disk does not reset the count.
   */
  ghost predicate GivenUpLate(w: World) {
    && Counted(w)
    && forall k :: 0 <= k < |w.log| && w.log[k].GaveUp? ==> Lost(w.log[..k], w.log[k].lost, MAX_FLUSH_FAILURES)
  }

  ghost predicate Safely(w: World, events: seq<nat>, start: nat) {
    InStep(w, events) && NothingSkipped(w, events, start) && NothingForgotten(w) && AcksBehindCursor(w) && GivenUpLate(w)
  }

  // ---- the events after a cursor ----

  lemma {:induction false} AfterFacts(events: seq<nat>, cursor: nat)
    requires Ascends(events)
    ensures forall e <- events :: e > cursor <==> e in After(events, cursor)
    ensures forall e <- After(events, cursor) :: e in events
    ensures Ascends(After(events, cursor))
    ensures After(events, cursor) != [] ==> After(events, After(events, cursor)[0]) == After(events, cursor)[1..]
    decreases |events|
  {
    if events != [] {
      var rest := events[1..];
      assert events == [events[0]] + rest;
      if events[0] > cursor {
        AfterTail(events);
      } else {
        AfterFacts(rest, cursor);
        assert forall e <- After(rest, cursor) :: e in rest;
      }
    }
  }

  lemma AfterTail(events: seq<nat>)
    requires Ascends(events) && events != []
    ensures After(events, events[0]) == events[1..]
  {
    if |events| > 1 {
      assert events[1..][0] > events[0];
    }
  }

  // ---- each part is kept ----

  lemma InStepKept(w: World, move: Move, events: seq<nat>)
    requires InStep(w, events) && LegalMove(w, move) && Ascends(events)
    ensures InStep(Move1(w, move, events), events)
  {
    match move
    case Passing(serving, saves) =>
      var id := w.batch[0];
      AfterFacts(events, w.poll.cursor);
      assert id == After(events, w.poll.cursor)[0];
      assert w.batch[1..] <= After(events, w.poll.cursor)[1..];
    case _ =>
  }

  /** A cursor moves only by passing, and then to the head of the batch. */
  lemma CursorMoves(w: World, move: Move, events: seq<nat>)
    requires InStep(w, events) && LegalMove(w, move) && Ascends(events)
    ensures var w' := Move1(w, move, events);
      && CursorOf(w.poll.file) <= CursorOf(w'.poll.file)
      && (w'.poll.cursor != w.poll.cursor ==>
            move.Passing? && w'.poll.cursor == w.batch[0] && w'.log == w.log + [Passed(w.batch[0], move.serving)])
  {
    if move.Passing? {
      AfterFacts(events, w.poll.cursor);
      assert w.batch[0] == After(events, w.poll.cursor)[0];
    }
  }

  lemma NothingSkippedKept(w: World, move: Move, events: seq<nat>, start: nat)
    requires InStep(w, events) && LegalMove(w, move) && Ascends(events) && NothingSkipped(w, events, start)
    ensures NothingSkipped(Move1(w, move, events), events, start)
  {
    var w' := Move1(w, move, events);
    CursorMoves(w, move, events);
    forall e | e in events && start < e <= w'.poll.cursor ensures PassedIn(w'.log, e) {
      LogGrows(w, move, events);
      if e <= w.poll.cursor {
        var note :| note in w.log && note.Passed? && note.passed == e && !Raises(note.serving);
        assert note in w'.log;
      } else {
        NextIsHead(w, events, e);
        assert Passed(e, move.serving) in w'.log;
      }
    }
  }

  lemma NextIsHead(w: World, events: seq<nat>, e: nat)
    requires InStep(w, events) && Ascends(events) && w.batch != [] && e in events && w.poll.cursor < e <= w.batch[0]
    ensures e == w.batch[0]
  {
    AfterFacts(events, w.poll.cursor);
    assert w.batch[0] == After(events, w.poll.cursor)[0];
  }

  lemma LogGrows(w: World, move: Move, events: seq<nat>)
    requires LegalMove(w, move)
    ensures w.log <= Move1(w, move, events).log
    ensures forall note <- w.log :: note in Move1(w, move, events).log
  {
  }

  lemma NothingForgottenKept(w: World, move: Move, events: seq<nat>)
    requires InStep(w, events) && LegalMove(w, move) && NothingForgotten(w)
    ensures NothingForgotten(Move1(w, move, events))
  {
    var w' := Move1(w, move, events);
    LogGrows(w, move, events);
    forall note | note in w'.log && note.Passed? && ShouldAck(note.serving)
      ensures AckSent(note.passed) in w'.log || GaveUp(note.passed) in w'.log || PendingOf(w'.poll.file) == Some(note.passed)
    {
      if note in w.log && PendingOf(w.poll.file) == Some(note.passed) && PendingOf(w'.poll.file) != Some(note.passed) {
        assert move.Flushing?;
        assert FlushNotes(w.poll, move.luck)[|FlushNotes(w.poll, move.luck)| - 1] in w'.log;
      }
    }
  }

  lemma AcksBehindCursorKept(w: World, move: Move, events: seq<nat>)
    requires InStep(w, events) && LegalMove(w, move) && Ascends(events) && AcksBehindCursor(w)
    ensures AcksBehindCursor(Move1(w, move, events))
  {
    CursorMoves(w, move, events);
  }

  lemma FailuresGrow(log: seq<Note>, id: nat)
    ensures Failures(log + [FlushFailed(id)], id) == Failures(log, id) + 1
  {
    assert (log + [FlushFailed(id)])[..|log|] == log;
  }

  ghost predicate Counted(w: World) {
    w.poll.pending.Some? ==> Lost(w.log, w.poll.pending.value, w.poll.failures)
  }

  lemma CountedKept(w: World, move: Move, events: seq<nat>)
    requires InStep(w, events) && LegalMove(w, move) && Counted(w)
    ensures Counted(Move1(w, move, events))
  {
    match move
    case Flushing(luck) => FlushCounted(w, luck, events);
    case _ =>
  }

  lemma FlushCounted(w: World, luck: FlushLuck, events: seq<nat>)
    requires Counted(w)
    ensures Counted(Move1(w, Flushing(luck), events))
  {
    var w' := Move1(w, Flushing(luck), events);
    if w'.poll.pending.Some? {
      var id := w.poll.pending.value;
      assert w'.poll.pending == Some(id);
      if Acked(luck) {
        assert w'.log == w.log + [AckSent(id)];
      } else {
        assert w'.log == w.log + [FlushFailed(id)];
        FailuresGrow(w.log, id);
      }
    }
  }

  lemma GivenUpLateKept(w: World, move: Move, events: seq<nat>)
    requires InStep(w, events) && LegalMove(w, move) && GivenUpLate(w)
    ensures GivenUpLate(Move1(w, move, events))
  {
    var w' := Move1(w, move, events);
    CountedKept(w, move, events);
    forall k | 0 <= k < |w'.log| && w'.log[k].GaveUp? ensures Lost(w'.log[..k], w'.log[k].lost, MAX_FLUSH_FAILURES) {
      if k < |w.log| {
        assert w'.log[..k] == w.log[..k];
      } else {
        var id := w.poll.pending.value;
        FailuresGrow(w.log, id);
        assert w'.log == w.log + [FlushFailed(id), GaveUp(id)];
        assert w'.log[..k] == w.log + [FlushFailed(id)];
      }
    }
  }

  lemma StepKeepsSafely(w: World, move: Move, events: seq<nat>, start: nat)
    requires Safely(w, events, start) && LegalMove(w, move) && Ascends(events)
    ensures Safely(Move1(w, move, events), events, start)
  {
    InStepKept(w, move, events);
    NothingSkippedKept(w, move, events, start);
    NothingForgottenKept(w, move, events);
    AcksBehindCursorKept(w, move, events);
    GivenUpLateKept(w, move, events);
  }

  // ---- runs ----

  ghost predicate LegalRun(w: World, moves: seq<Move>, events: seq<nat>)
    decreases |moves|
  {
    moves == [] || (LegalMove(w, moves[0]) && LegalRun(Move1(w, moves[0], events), moves[1..], events))
  }

  ghost function Run(w: World, moves: seq<Move>, events: seq<nat>): World
    requires LegalRun(w, moves, events)
    decreases |moves|
  {
    if moves == [] then w else Run(Move1(w, moves[0], events), moves[1..], events)
  }

  lemma {:induction false} RunIsSafe(w: World, moves: seq<Move>, events: seq<nat>, start: nat)
    requires Safely(w, events, start) && LegalRun(w, moves, events) && Ascends(events)
    ensures Safely(Run(w, moves, events), events, start)
    ensures CursorOf(w.poll.file) <= CursorOf(Run(w, moves, events).poll.file)
    decreases |moves|
  {
    if moves != [] {
      CursorMoves(w, moves[0], events);
      StepKeepsSafely(w, moves[0], events, start);
      RunIsSafe(Move1(w, moves[0], events), moves[1..], events, start);
    }
  }

  /**
   From a start on any cursor file, over any polls, failed saves, failed acks and crashes: the
   durable cursor never falls, no event is skipped, no ack is sent ahead of the cursor, and none is
   forgotten; an ack is given up only after three failed flushes in a row, or once it went through.
   */
  lemma PollingSafety(file: File, moves: seq<Move>, events: seq<nat>)
    requires Ascends(events) && LegalRun(World(Initialized(file), [], []), moves, events)
    ensures var w := Run(World(Initialized(file), [], []), moves, events);
      && CursorOf(file) <= CursorOf(w.poll.file)
      && NothingSkipped(w, events, CursorOf(file)) && NothingForgotten(w)
      && AcksBehindCursor(w) && GivenUpLate(w)
  {
    RunIsSafe(World(Initialized(file), [], []), moves, events, CursorOf(file));
  }

  lemma OneMoreMove(w: World, move: Move, rest: seq<Move>, events: seq<nat>)
    requires LegalMove(w, move) && LegalRun(Move1(w, move, events), rest, events)
    ensures LegalRun(w, [move] + rest, events)
    ensures Run(w, [move] + rest, events) == Run(Move1(w, move, events), rest, events)
  {
    assert ([move] + rest)[1..] == rest;
  }

  // ---- given up although acked ----

  const NO_ACK := FlushLuck([], true)
  const ACK_UNSAVED := FlushLuck([true], false)

  /** What the poller holds of the one event while its ack is pending. */
  predicate PendingOne(w: World, failures: nat) {
    w == World(Poll(Stored(Some(1), Some(1)), 1, Some(1), failures), w.batch, w.log)
  }

  lemma FailedFlush(w: World, failures: nat)
    requires PendingOne(w, failures) && failures + 1 < MAX_FLUSH_FAILURES
    ensures var w' := Move1(w, Flushing(NO_ACK), [1]); PendingOne(w', failures + 1) && w'.log == w.log + [FlushFailed(1)]
  {
  }

  lemma UnsavedAck(w: World, failures: nat)
    requires PendingOne(w, failures)
    ensures var w' := Move1(w, Flushing(ACK_UNSAVED), [1]); PendingOne(w', failures) && w'.log == w.log + [AckSent(1)]
  {
    assert ACK_UNSAVED.acks[0];
  }

  lemma LastFlush(w: World)
    requires PendingOne(w, 2)
    ensures Move1(w, Flushing(NO_ACK), [1]).log == w.log + [FlushFailed(1), GaveUp(1)]
  {
  }

  lemma PassesOne(w: World)
    requires w == World(Initialized(Absent), [], [])
    ensures LegalMove(w, Fetching(1))
    ensures var w1 := Move1(w, Fetching(1), [1]); var passing := Passing(Handled(Returned(Accepted)), true);
      LegalMove(w1, passing) && PendingOne(Move1(w1, passing, [1]), 0)
  {
    assert After([1], 0) == [1];
    assert [1][..1] == [1];
  }

  /** The run from no cursor file at all acks the one event of the server and gives it up. */
  ghost predicate GivesUpAcked(moves: seq<Move>) {
    var start := World(Initialized(Absent), [], []);
    Ascends([1]) && LegalRun(start, moves, [1])
    && AckSent(1) in Run(start, moves, [1]).log && GaveUp(1) in Run(start, moves, [1]).log
  }

  /**
   A run in which the ack of an event goes through, cannot be taken off the disk, and is then
   reported as given up: two failures before it and after it count as three in a row.
   */
  lemma AckedButGivenUp()
    ensures exists moves :: GivesUpAcked(moves)
  {
    var w0 := World(Initialized(Absent), [], []);
    var passing := Passing(Handled(Returned(Accepted)), true);
    PassesOne(w0);
    var w1 := Move1(w0, Fetching(1), [1]);
    var w2 := Move1(w1, passing, [1]);
    FailedFlush(w2, 0);
    var w3 := Move1(w2, Flushing(NO_ACK), [1]);
    UnsavedAck(w3, 1);
    var w4 := Move1(w3, Flushing(ACK_UNSAVED), [1]);
    FailedFlush(w4, 1);
    var w5 := Move1(w4, Flushing(NO_ACK), [1]);
    LastFlush(w5);
    var w6 := Move1(w5, Flushing(NO_ACK), [1]);
    OneMoreMove(w5, Flushing(NO_ACK), [], [1]);
    var m5 := [Flushing(NO_ACK)] + [];
    OneMoreMove(w4, Flushing(NO_ACK), m5, [1]);
    var m4 := [Flushing(NO_ACK)] + m5;
    OneMoreMove(w3, Flushing(ACK_UNSAVED), m4, [1]);
    var m3 := [Flushing(ACK_UNSAVED)] + m4;
    OneMoreMove(w2, Flushing(NO_ACK), m3, [1]);
    var m2 := [Flushing(NO_ACK)] + m3;
    OneMoreMove(w1, passing, m2, [1]);
    var m1 := [passing] + m2;
    OneMoreMove(w0, Fetching(1), m1, [1]);
    assert Run(w0, [Fetching(1)] + m1, [1]) == w6;
    assert GivesUpAcked([Fetching(1)] + m1);
  }

  // ---- one poll is a run ----

  function ServeMoves(p: Poll, offers: seq<Offer>): seq<Move>
    requires AllSafe(offers)
    decreases |offers|
  {
    if offers == [] then [Stopping] else
    var o := offers[0];
    if Raises(o.serving) then [Stopping] else
    var (p1, ok) := Pass(p, o.id.value, ShouldAck(o.serving), o.saves);
    if !ok then [Passing(o.serving, o.saves)] else
    if !ShouldAck(o.serving) then [Passing(o.serving, o.saves)] + ServeMoves(p1, offers[1..]) else
    [Passing(o.serving, o.saves)] + ([Flushing(o.flush)] + ServeAfterFlush(p1, offers))
  }

  function ServeAfterFlush(p: Poll, offers: seq<Offer>): seq<Move>
    requires AllSafe(offers) && offers != []
    decreases |offers|, 0
  {
    var (p2, e) := Flush(p, offers[0].flush);
    if e.Clear? then ServeMoves(p2, offers[1..]) else []
  }

  /** The offers are the batch, in its order. */
  predicate Offers(offers: seq<Offer>, batch: seq<nat>) {
    |offers| == |batch| && forall i :: 0 <= i < |offers| ==> offers[i].id == Some(batch[i])
  }

  lemma {:induction false} ServingIsARun(w: World, offers: seq<Offer>, events: seq<nat>)
    requires AllSafe(offers) && Offers(offers, w.batch) && w.poll.pending.None?
    ensures LegalRun(w, ServeMoves(w.poll, offers), events)
    ensures Run(w, ServeMoves(w.poll, offers), events).poll == Serve(w.poll, offers).0
    decreases |offers|
  {
    if offers != [] && !Raises(offers[0].serving) {
      var o := offers[0];
      var passing := Passing(o.serving, o.saves);
      var w1 := Move1(w, passing, events);
      var (p1, ok) := Pass(w.poll, o.id.value, ShouldAck(o.serving), o.saves);
      assert Offers(offers[1..], w.batch[1..]);
      if !ok {
        assert [passing][1..] == [];
      } else if !ShouldAck(o.serving) {
        ServingIsARun(w1, offers[1..], events);
        OneMoreMove(w, passing, ServeMoves(p1, offers[1..]), events);
      } else {
        var w2 := Move1(w1, Flushing(o.flush), events);
        if Flush(p1, o.flush).1.Clear? {
          ServingIsARun(w2, offers[1..], events);
        }
        OneMoreMove(w1, Flushing(o.flush), ServeAfterFlush(p1, offers), events);
        OneMoreMove(w, passing, [Flushing(o.flush)] + ServeAfterFlush(p1, offers), events);
      }
    }
  }

  function PollMoves(p: Poll, script: Script): seq<Move> {
    var (p1, e) := Flush(p, script.flush);
    if e.Clear? && script.fetched.Some? then
      var offers := Ordered(script.fetched.value, p1.cursor);
      [Flushing(script.flush)] + ([Fetching(|offers|)] + ServeMoves(p1, offers))
    else [Flushing(script.flush)]
  }

  /** The server offers the events after the cursor from the first one on, in any order. */
  ghost predicate Honest(p: Poll, script: Script, events: seq<nat>) {
    script.fetched.Some? ==>
      var offers := Ordered(script.fetched.value, p.cursor);
      |offers| <= |After(events, p.cursor)| && Offers(offers, After(events, p.cursor)[..|offers|])
  }

  /** What holds of every run holds of every poll. */
  lemma PollIsARun(w: World, script: Script, events: seq<nat>)
    requires Honest(w.poll, script, events)
    ensures LegalRun(w, PollMoves(w.poll, script), events)
    ensures Run(w, PollMoves(w.poll, script), events).poll == PollOnce(w.poll, script).0
  {
    var flushing := Flushing(script.flush);
    var w1 := Move1(w, flushing, events);
    if Flush(w.poll, script.flush).1.Clear? && script.fetched.Some? {
      var offers := Ordered(script.fetched.value, w1.poll.cursor);
      var w2 := Move1(w1, Fetching(|offers|), events);
      ServingIsARun(w2, offers, events);
      OneMoreMove(w1, Fetching(|offers|), ServeMoves(w1.poll, offers), events);
      OneMoreMove(w, flushing, [Fetching(|offers|)] + ServeMoves(w1.poll, offers), events);
    } else {
      assert [flushing][1..] == [];
    }
  }
}
