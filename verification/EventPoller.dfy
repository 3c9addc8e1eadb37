/** The event poller of card_events.py, updating its cursor and pending ack in place. */
module EventPoller {
  import opened Wrappers
  import opened EventCursor
  import opened EventPolling

  class EventPoller {
    const store: FileEventCursorStore
    var cursor: nat
    var pending: Option<nat>
    var flushFailures: nat

    /** The poller and its cursor file as a value. */
    function State(): Poll
      reads this, store
    {
      Poll(store.file, cursor, pending, flushFailures)
    }

    constructor (existing: FileEventCursorStore)
      ensures store == existing && cursor == 0 && pending == None && flushFailures == 0
    {
      store, cursor, pending, flushFailures := existing, 0, None, 0;
    }

    method Initialize(cursorReads: bool, pendingReads: bool)
      modifies this
      ensures State() == InitializedBy(store.file, cursorReads, pendingReads).(failures := old(flushFailures))
    {
      cursor := 0;
      if cursorReads {
        cursor := store.Load();
      }
      var ack := None;
      if pendingReads {
        ack := store.LoadPendingAck();
      }
      pending := if ack.Some? && ack.value <= cursor then ack else None;
    }

    method Ack(acks: seq<bool>, saves: bool) returns (acked: bool)
      ensures acked == Acked(FlushLuck(acks, saves))
    {
      var attempt := 0;
      while attempt < ACK_ATTEMPTS && attempt < |acks|
        invariant forall i :: 0 <= i < attempt && i < |acks| ==> !acks[i]
      {
        if acks[attempt] {
          return true;
        }
        attempt := attempt + 1;
      }
      acked := false;
    }

    method FlushPendingAck(luck: FlushLuck) returns (end: FlushEnd)
      modifies this, store
      ensures (State(), end) == Flush(old(State()), luck)
    {
      if pending.None? {
        flushFailures := 0;
        return Clear;
      }
      var acked := Ack(luck.acks, luck.saves);
      if !acked {
        flushFailures := flushFailures + 1;
        if flushFailures < MAX_FLUSH_FAILURES {
          return Blocked;
        }
      }
      var ok := store.SaveCursor(cursor, None, luck.saves);
      if !ok {
        return FlushRaised;
      }
      pending := None;
      flushFailures := 0;
      end := Clear;
    }

    /** Serves events in order until one raises or its ack does not go through. */
    method ServeEvents(offers: seq<Offer>) returns (end: PollEnd)
      requires AllSafe(offers)
      modifies this, store
      ensures (State(), end) == Serve(old(State()), offers)
    {
      var i := 0;
      assert offers[0..] == offers;
      while i < |offers|
        invariant i <= |offers|
        invariant Serve(State(), offers[i..]) == Serve(old(State()), offers)
      {
        var o := offers[i];
        assert offers[i..][0] == o && offers[i..][1..] == offers[i + 1..];
        if Raises(o.serving) {
          return PollRaised;
        }
        var shouldAck := ShouldAck(o.serving);
        var pendingAck: Option<nat> := if shouldAck then Some(o.id.value) else None;
        var ok := store.SaveCursor(o.id.value, IntOf(pendingAck), o.saves);
        if !ok {
          return PollRaised;
        }
        cursor := o.id.value;
        pending := pendingAck;
        if shouldAck {
          var flushed := FlushPendingAck(o.flush);
          if flushed.Blocked? {
            return AckFailed;
          }
          if flushed.FlushRaised? {
            return PollRaised;
          }
        }
        i := i + 1;
      }
      end := Done;
    }

    method PollNow(script: Script) returns (end: PollEnd)
      modifies this, store
      ensures (State(), end) == PollOnce(old(State()), script)
    {
      var flushed := FlushPendingAck(script.flush);
      if flushed.Blocked? {
        return AckFailed;
      }
      if flushed.FlushRaised? || script.fetched.None? {
        return PollRaised;
      }
      end := ServeEvents(Ordered(script.fetched.value, cursor));
    }
  }
}
