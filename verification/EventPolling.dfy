/** One poll of card_events.py as a function of what the server, the handler and the disk do. */
module EventPolling {
  import opened Wrappers
  import opened CardActions
  import opened EventCursor

  const ACK_ATTEMPTS: nat := 3
  const MAX_FLUSH_FAILURES: nat := 3

  /** The poller with its cursor file. */
  datatype Poll = Poll(file: File, cursor: nat, pending: Option<nat>, failures: nat)

  /** What becomes of an event: it does not parse, or the handler is asked. */
  datatype Serving = Rejected | Handled(verdict: Verdict)

  /** One fetched event: its number if it has one, and what its handling, saves and acks do. */
  datatype Offer = Offer(id: Option<int>, serving: Serving, saves: bool, flush: FlushLuck)

  /** The answers to up to three acks, and whether the save after them works. */
  datatype FlushLuck = FlushLuck(acks: seq<bool>, saves: bool)

  datatype FlushEnd = Clear | Blocked | FlushRaised

  datatype PollEnd = Done | AckFailed | PollRaised

  predicate Ackable(s: Status) {
    s == Accepted || s == AwaitingText || s == Status.Expired || s == Failed || s == DeadLetter || s == Invalid
    || s == Status.Duplicate || s == Unsupported
  }

  predicate ShouldAck(s: Serving) {
    s.Handled? && s.verdict.Returned? && Ackable(s.verdict.status)
  }

  predicate Raises(s: Serving) {
    s.Handled? && s.verdict.Raised?
  }

  /** An ack goes through if one of its attempts does. */
  predicate Acked(luck: FlushLuck) {
    exists i :: 0 <= i < |luck.acks| && i < ACK_ATTEMPTS && luck.acks[i]
  }

  /** What a new poller starts from when its store can be read. */
  function Initialized(f: File): Poll {
    Poll(f, CursorOf(f), PendingOf(f), 0)
  }

  /** A read that raises counts as no progress, and a pending ack counts only behind the cursor. */
  function InitializedBy(f: File, cursorReads: bool, pendingReads: bool): (p: Poll)
    ensures p.pending.Some? ==> p.pending.value <= p.cursor <= CursorOf(f)
    ensures cursorReads && pendingReads ==> p == Initialized(f)
  {
    var cursor := if cursorReads then CursorOf(f) else 0;
    var pending := if pendingReads then PendingOf(f) else None;
    Poll(f, cursor, if pending.Some? && pending.value <= cursor then pending else None, 0)
  }

  function IntOf(p: Option<nat>): Option<int> {
    match p
    case None => None
    case Some(n) => Some(n)
  }

  /** A pending ack is sent and then forgotten, on disk first; after three failures it is given up. */
  function Flush(p: Poll, luck: FlushLuck): (Poll, FlushEnd) {
    if p.pending.None? then (p.(failures := 0), Clear)
    else if Acked(luck) then Forget(p, luck.saves)
    else if p.failures + 1 < MAX_FLUSH_FAILURES then (p.(failures := p.failures + 1), Blocked)
    else Forget(p.(failures := p.failures + 1), luck.saves)
  }

  function Forget(p: Poll, saves: bool): (Poll, FlushEnd) {
    var (f, ok) := Save(p.file, p.cursor, None, saves);
    if ok then (Poll(f, p.cursor, None, 0), Clear) else (p.(file := f), FlushRaised)
  }

  /** The cursor moves past an event, which stays pending if it is to be acked. */
  function Pass(p: Poll, id: nat, ack: bool, saves: bool): (Poll, bool) {
    var pending := if ack then Some(id) else None;
    var (f, ok) := Save(p.file, id, IntOf(pending), saves);
    if ok then (Poll(f, id, pending, p.failures), true) else (p.(file := f), false)
  }

  predicate Fresh(o: Offer, cursor: nat) {
    Safe(o.id) && o.id.value > cursor
  }

  predicate AllSafe(offers: seq<Offer>) {
    forall o <- offers :: Safe(o.id)
  }

  function Serve(p: Poll, offers: seq<Offer>): (Poll, PollEnd)
    requires AllSafe(offers)
    decreases |offers|
  {
    if offers == [] then (p, Done) else
    var o := offers[0];
    if Raises(o.serving) then (p, PollRaised) else
    var (p1, ok) := Pass(p, o.id.value, ShouldAck(o.serving), o.saves);
    if !ok then (p1, PollRaised) else
    if !ShouldAck(o.serving) then Serve(p1, offers[1..]) else
    var (p2, e) := Flush(p1, o.flush);
    match e
    case Clear => Serve(p2, offers[1..])
    case Blocked => (p2, AckFailed)
    case FlushRaised => (p2, PollRaised)
  }

  // ---- the order in which events are served ----

  /** The events after the cursor, in the order of their numbers; equal numbers keep their order. */
  function Ordered(offers: seq<Offer>, cursor: nat): (r: seq<Offer>)
    ensures AllSafe(r)
  {
    if offers == [] then [] else
    var rest := Ordered(offers[1..], cursor);
    if Fresh(offers[0], cursor) then Insert(offers[0], rest) else rest
  }

  function Insert(o: Offer, sorted: seq<Offer>): (r: seq<Offer>)
    requires AllSafe(sorted) && Safe(o.id)
    ensures forall x <- r :: x == o || x in sorted
  {
    if sorted == [] || o.id.value <= sorted[0].id.value then [o] + sorted
    else [sorted[0]] + Insert(o, sorted[1..])
  }

  predicate Sorted(offers: seq<Offer>)
    requires AllSafe(offers)
  {
    forall i, j :: 0 <= i < j < |offers| ==> offers[i].id.value <= offers[j].id.value
  }

  lemma ConsSorts(o: Offer, sorted: seq<Offer>)
    requires Safe(o.id) && AllSafe(sorted) && Sorted(sorted) && forall x <- sorted :: o.id.value <= x.id.value
    ensures AllSafe([o] + sorted) && Sorted([o] + sorted)
  {
  }

  lemma {:induction false} InsertSorts(o: Offer, sorted: seq<Offer>)
    requires AllSafe(sorted) && Safe(o.id) && Sorted(sorted)
    ensures Sorted(Insert(o, sorted))
    decreases |sorted|
  {
    if sorted == [] || o.id.value <= sorted[0].id.value {
      ConsSorts(o, sorted);
    } else {
      InsertSorts(o, sorted[1..]);
      ConsSorts(sorted[0], Insert(o, sorted[1..]));
    }
  }

  lemma {:induction false} InsertPermutes(o: Offer, sorted: seq<Offer>)
    requires AllSafe(sorted) && Safe(o.id)
    ensures multiset(Insert(o, sorted)) == multiset(sorted) + multiset{o}
    decreases |sorted|
  {
    if sorted != [] {
      assert sorted == [sorted[0]] + sorted[1..];
      InsertPermutes(o, sorted[1..]);
    }
  }

  /** Serving takes exactly the fetched events after the cursor, in ascending order. */
  lemma {:induction false} OrderedSorts(offers: seq<Offer>, cursor: nat)
    ensures Sorted(Ordered(offers, cursor))
    ensures forall o :: multiset(Ordered(offers, cursor))[o] == if Fresh(o, cursor) then multiset(offers)[o] else 0
    decreases |offers|
  {
    if offers != [] {
      OrderedSorts(offers[1..], cursor);
      assert offers == [offers[0]] + offers[1..];
      if Fresh(offers[0], cursor) {
        InsertSorts(offers[0], Ordered(offers[1..], cursor));
        InsertPermutes(offers[0], Ordered(offers[1..], cursor));
      }
    }
  }

  // ---- one poll ----

  /** What one poll meets: the flush before it, the answer to the fetch, and its events. */
  datatype Script = Script(flush: FlushLuck, fetched: Option<seq<Offer>>)

  function PollOnce(p: Poll, script: Script): (Poll, PollEnd) {
    var (p1, e) := Flush(p, script.flush);
    match e
    case Blocked => (p1, AckFailed)
    case FlushRaised => (p1, PollRaised)
    case Clear =>
      match script.fetched
      case None => (p1, PollRaised)
      case Some(offers) => Serve(p1, Ordered(offers, p1.cursor))
  }
}
