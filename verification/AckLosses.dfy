/** Which events that are given up had been acked after all. */
module AckLosses {
  import opened Wrappers
  import opened EventCursor
  import opened EventPolling
  import opened PollingRuns

  /** The ack of `id` goes through in this move, but the file still has it pending. */
  predicate AcksUnsaved(w: World, move: Move, id: nat) {
    move.Flushing? && w.poll.pending == Some(id) && Acked(move.luck) && !Flush(w.poll, move.luck).1.Clear?
  }

  /** So it does somewhere in the run. */
  ghost predicate SomeAckUnsaved(w: World, moves: seq<Move>, events: seq<nat>, id: nat)
    requires LegalRun(w, moves, events)
    decreases |moves|
  {
    moves != [] && (AcksUnsaved(w, moves[0], id) || SomeAckUnsaved(Move1(w, moves[0], events), moves[1..], events, id))
  }

  /** The cursor has passed the event, and its ack is not pending. */
  predicate Behind(w: World, id: nat) {
    id <= w.poll.cursor && w.poll.pending != Some(id)
  }

  predicate Unheard(w: World, id: nat) {
    AckSent(id) !in w.log && GaveUp(id) !in w.log
  }

  lemma BehindStays(w: World, move: Move, events: seq<nat>, id: nat)
    requires InStep(w, events) && LegalMove(w, move) && Ascends(events) && Behind(w, id)
    ensures var w' := Move1(w, move, events);
      && Behind(w', id) && !AcksUnsaved(w, move, id)
      && (AckSent(id) in w'.log <==> AckSent(id) in w.log) && (GaveUp(id) in w'.log <==> GaveUp(id) in w.log)
  {
    if move.Passing? {
      AfterFacts(events, w.poll.cursor);
      assert w.batch[0] == After(events, w.poll.cursor)[0];
    }
  }

  lemma {:induction false} NothingMoreIsHeard(w: World, moves: seq<Move>, events: seq<nat>, id: nat)
    requires InStep(w, events) && LegalRun(w, moves, events) && Ascends(events) && Behind(w, id)
    ensures var e := Run(w, moves, events);
      && !SomeAckUnsaved(w, moves, events, id)
      && (AckSent(id) in e.log <==> AckSent(id) in w.log) && (GaveUp(id) in e.log <==> GaveUp(id) in w.log)
    decreases |moves|
  {
    if moves != [] {
      BehindStays(w, moves[0], events, id);
      InStepKept(w, moves[0], events);
      NothingMoreIsHeard(Move1(w, moves[0], events), moves[1..], events, id);
    }
  }

  lemma {:induction false} HeardStays(w: World, moves: seq<Move>, events: seq<nat>, note: Note)
    requires LegalRun(w, moves, events) && note in w.log
    ensures note in Run(w, moves, events).log
    decreases |moves|
  {
    if moves != [] {
      LogGrows(w, moves[0], events);
      HeardStays(Move1(w, moves[0], events), moves[1..], events, note);
    }
  }

  /** The first move that tells of the event: an ack that is saved, one that is not, or giving up. */
  lemma FirstHeard(w: World, move: Move, events: seq<nat>, id: nat)
    requires InStep(w, events) && LegalMove(w, move) && Unheard(w, id)
    ensures var w' := Move1(w, move, events);
      || (Unheard(w', id) && !AcksUnsaved(w, move, id))
      || (AckSent(id) in w'.log && AcksUnsaved(w, move, id))
      || (Behind(w', id) && !AcksUnsaved(w, move, id) && (AckSent(id) in w'.log <==> GaveUp(id) !in w'.log))
  {
    if move.Flushing? && w.poll.pending == Some(id) && Acked(move.luck) {
      assert Move1(w, move, events).log == w.log + [AckSent(id)];
    }
  }

  lemma {:induction false} GivenUpAfter(w: World, moves: seq<Move>, events: seq<nat>, id: nat)
    requires InStep(w, events) && LegalRun(w, moves, events) && Ascends(events) && Unheard(w, id)
    ensures var e := Run(w, moves, events);
      GaveUp(id) in e.log ==> (AckSent(id) in e.log <==> SomeAckUnsaved(w, moves, events, id))
    decreases |moves|
  {
    if moves != [] {
      var w', rest := Move1(w, moves[0], events), moves[1..];
      FirstHeard(w, moves[0], events, id);
      InStepKept(w, moves[0], events);
      if AcksUnsaved(w, moves[0], id) {
        HeardStays(w', rest, events, AckSent(id));
      } else if Unheard(w', id) {
        GivenUpAfter(w', rest, events, id);
      } else {
        NothingMoreIsHeard(w', rest, events, id);
      }
    }
  }

  /**
   Over every run from any cursor file: an event that is given up had been acked if and only if an
   ack of it went through and could not be taken off the disk.
   */
  lemma GivenUpAckedIff(file: File, moves: seq<Move>, events: seq<nat>, id: nat)
    requires Ascends(events) && LegalRun(World(Initialized(file), [], []), moves, events)
    ensures var start := World(Initialized(file), [], []); var e := Run(start, moves, events);
      GaveUp(id) in e.log ==> (AckSent(id) in e.log <==> SomeAckUnsaved(start, moves, events, id))
  {
    GivenUpAfter(World(Initialized(file), [], []), moves, events, id);
  }
}
