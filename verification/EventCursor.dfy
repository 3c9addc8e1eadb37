/** The cursor file of card_events.py. */
module EventCursor {
  import opened Wrappers

  const MAX_SAFE_EVENT_ID: nat := 0x1F_FFFF_FFFF_FFFF

  /** The file on disk: its two fields as integers, where there are any. */
  datatype File = Absent | Unreadable | Stored(eventId: Option<int>, pendingAck: Option<int>)

  predicate Safe(x: Option<int>) {
    x.Some? && 0 <= x.value <= MAX_SAFE_EVENT_ID
  }

  /** What the store makes of the file: anything malformed reads as no progress. */
  function CursorOf(f: File): nat {
    if f.Stored? && Safe(f.eventId) then f.eventId.value else 0
  }

  function PendingOf(f: File): Option<nat> {
    if f.Stored? && Safe(f.eventId) && Safe(f.pendingAck) && f.pendingAck.value <= f.eventId.value
    then Some(f.pendingAck.value) else None
  }

  /** A save is refused when it is malformed or goes backwards, and may fail without writing. */
  predicate SaveAccepted(f: File, event: int, pending: Option<int>) {
    && Safe(Some(event)) && CursorOf(f) <= event
    && (pending.Some? ==> Safe(pending) && pending.value <= event)
  }

  function Save(f: File, event: int, pending: Option<int>, works: bool): (File, bool) {
    if SaveAccepted(f, event, pending) && works then (Stored(Some(event), pending), true) else (f, false)
  }

  /** What is saved is what is read back; a save that is not accepted changes nothing. */
  lemma SaveReadsBack(f: File, event: int, pending: Option<int>, works: bool)
    ensures var (g, ok) := Save(f, event, pending, works);
      && CursorOf(f) <= CursorOf(g)
      && (ok ==> CursorOf(g) == event && PendingOf(g).Some? == pending.Some?)
      && (ok && pending.Some? ==> PendingOf(g).value == pending.value)
      && (!ok ==> g == f)
      && (ok <==> works && SaveAccepted(f, event, pending))
  {
  }

  /** Whatever is in the file, what is read of it is safe to use, and a pending ack is behind the cursor. */
  lemma ReadsAreSafe(f: File)
    ensures Safe(Some(CursorOf(f)))
    ensures PendingOf(f).Some? ==> Safe(Some(PendingOf(f).value)) && PendingOf(f).value <= CursorOf(f)
    ensures CursorOf(f) > 0 || PendingOf(f).Some? ==> f.Stored? && f.eventId == Some(CursorOf(f))
  {
  }

  class FileEventCursorStore {
    var file: File

    constructor (existing: File)
      ensures file == existing
    {
      file := existing;
    }

    method Load() returns (cursor: nat)
      ensures cursor == CursorOf(file)
    {
      if file.Stored? && Safe(file.eventId) {
        return file.eventId.value;
      }
      cursor := 0;
    }

    method LoadPendingAck() returns (pending: Option<nat>)
      ensures pending == PendingOf(file)
    {
      if !file.Stored? || !Safe(file.eventId) {
        return None;
      }
      if !Safe(file.pendingAck) || file.pendingAck.value > file.eventId.value {
        return None;
      }
      pending := Some(file.pendingAck.value);
    }

    /** Raises, which is `!ok`, when the cursor would move backwards. */
    method SaveCursor(event: int, pending: Option<int>, works: bool) returns (ok: bool)
      modifies this
      ensures (file, ok) == Save(old(file), event, pending, works)
    {
      if !Safe(Some(event)) {
        return false;
      }
      if pending.Some? && (!Safe(pending) || pending.value > event) {
        return false;
      }
      var current := Load();
      if event < current || !works {
        return false;
      }
      file := Stored(Some(event), pending);
      ok := true;
    }
  }
}
