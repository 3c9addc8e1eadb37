/** The durable claim registry of card_sessions.py as a value, operation by operation. */
module CardSessions {
  import opened Wrappers
  import opened OrderedDict

  datatype State = Pending | Processing | Completed

  /** Where an action on the card must come from. */
  datatype Route = Route(sessionKey: string, channelId: string, channelType: int, requester: string)

  /** `durable` cards are the interactive ones without a clarify entry: only they are written to disk. */
  datatype Card = Card(route: Route, durable: bool)

  /**
   One card.  `registration` numbers the registrations of all cards; it is no field of the source
   but tells two cards registered one after the other under the same message id apart.
   */
  datatype Entry = Entry(card: Card, state: State, claimedBy: Option<int>, attemptOf: Option<int>,
                         attempts: nat, cardSeq: nat, registration: nat)

  type Entries = Dict<string, Entry>

  datatype Registry = Registry(entries: Entries, disk: Entries, limit: nat, nextRegistration: nat)

  /**
   What the surroundings do to one operation: which entries its lookup finds expired, which are
   pruned when it persists, and whether the write succeeds.
   */
  datatype Env = Env(expired: set<string>, pruned: set<string>, saved: bool)

  // ---- expiry and persistence ----

  function Drop(d: Entries, ids: set<string>): (r: Entries)
    ensures r.items == d.items - ids
    ensures d.Valid() ==> r.Valid() && |r.keys| <= |d.keys|
  {
    KeptFacts(d.keys, ids);
    Dict(Kept(d.keys, ids), d.items - ids)
  }

  function Kept(keys: seq<string>, ids: set<string>): seq<string> {
    if keys == [] then [] else
    if keys[0] in ids then Kept(keys[1..], ids) else [keys[0]] + Kept(keys[1..], ids)
  }

  lemma {:induction false} KeptFacts(keys: seq<string>, ids: set<string>)
    ensures forall k :: k in Kept(keys, ids) <==> k in keys && k !in ids
    ensures |Kept(keys, ids)| <= |keys|
    ensures (forall i, j :: 0 <= i < j < |keys| ==> keys[i] != keys[j]) ==>
      forall i, j :: 0 <= i < j < |Kept(keys, ids)| ==> Kept(keys, ids)[i] != Kept(keys, ids)[j]
    decreases |keys|
  {
    if keys != [] {
      var tail := keys[1..];
      assert keys == [keys[0]] + tail;
      KeptFacts(tail, ids);
      if forall i, j :: 0 <= i < j < |keys| ==> keys[i] != keys[j] {
        assert keys[0] !in tail;
        forall i, j | 0 <= i < j < |tail| ensures tail[i] != tail[j] {
          assert keys[i + 1] != keys[j + 1];
        }
      }
    }
  }

  /** The records a persist writes, in order. */
  function DurablePart(d: Entries): (r: Entries)
    ensures r.items == map m | m in d.items && d.items[m].card.durable :: d.items[m]
    ensures d.Valid() ==> r.Valid() && |r.keys| <= |d.keys|
  {
    var transient := set m | m in d.items && !d.items[m].card.durable;
    Drop(d, transient)
  }

  /** _persist: prunes, then writes the whole durable part or raises without writing. */
  function Persist(r: Registry, env: Env): Registry {
    var entries := Drop(r.entries, env.pruned);
    Registry(entries, if env.saved then DurablePart(entries) else r.disk, r.limit, r.nextRegistration)
  }

  /** _entry_locked: an expired entry is dropped by the lookup that finds it. */
  function Look(r: Registry, m: string, expired: set<string>): Registry {
    if m in expired then r.(entries := Drop(r.entries, {m})) else r
  }

  predicate Found(r: Registry, m: string, expired: set<string>) {
    m in r.entries.items && m !in expired
  }

  function Update(r: Registry, m: string, e: Entry): Registry {
    r.(entries := r.entries.Put(m, e))
  }

  /** Puts one entry back after a failed write, if pruning left it there. */
  function RollBack(r: Registry, m: string, e: Entry): Registry {
    if m in r.entries.items then Update(r, m, e) else r
  }

  // ---- register ----

  /** The oldest completed entry, which a full registry gives up first. */
  function FirstCompleted(d: Entries, keys: seq<string>): Option<string> {
    if keys == [] then None
    else if keys[0] in d.items && d.items[keys[0]].state == Completed then Some(keys[0])
    else FirstCompleted(d, keys[1..])
  }

  lemma {:induction false} FirstCompletedIn(d: Entries, keys: seq<string>)
    ensures FirstCompleted(d, keys).Some? ==>
      var k := FirstCompleted(d, keys).value; k in keys && k in d.items && d.items[k].state == Completed
  {
    if keys != [] {
      FirstCompletedIn(d, keys[1..]);
    }
  }

  datatype Room = Room(entries: Entries, made: bool)

  /** Gives up completed entries, oldest first, until one more fits or only live cards are left. */
  function MakeRoom(d: Entries, limit: nat): (r: Room)
    decreases |d.keys|
  {
    if |d.keys| < limit then Room(d, true) else
    FirstCompletedIn(d, d.keys);
    RemoveCompleted(d);
    match FirstCompleted(d, d.keys)
    case None => Room(d, false)
    case Some(k) => MakeRoom(d.Remove(k), limit)
  }

  lemma RemoveCompleted(d: Entries)
    ensures FirstCompleted(d, d.keys).Some? ==> |d.Remove(FirstCompleted(d, d.keys).value).keys| < |d.keys|
  {
    FirstCompletedIn(d, d.keys);
    if FirstCompleted(d, d.keys).Some? {
      RemoveFacts(d.keys, FirstCompleted(d, d.keys).value);
    }
  }

  datatype RegisterResult = Registered | BadMessageId | AlreadyActive | CapacityExhausted | NotSaved

  const MAX_MESSAGE_ID: nat := 128

  predicate Bounded(m: string) {
    0 < |m| <= MAX_MESSAGE_ID
  }

  /** Under the lock, register drops what is expired, gives up completed cards for room, and adds the card. */
  function Enlist(r: Registry, m: string, card: Card, expired: set<string>): (Registry, RegisterResult) {
    if !Bounded(m) then (r, BadMessageId) else
    var live := Drop(r.entries, expired);
    if m in live.items && live.items[m].state != Completed then (r.(entries := live), AlreadyActive) else
    var room := MakeRoom(live.Remove(m), r.limit);
    if !room.made then (r.(entries := room.entries), CapacityExhausted)
    else (Enrol(r.(entries := room.entries), m, card), Registered)
  }

  /** Then, in a second section, it persists what the registry has come to hold. */
  function Register(r: Registry, m: string, card: Card, env: Env): (Registry, RegisterResult) {
    var (enlisted, result) := Enlist(r, m, card, env.expired);
    if result != Registered then (enlisted, result)
    else (Persist(enlisted, env), if env.saved then Registered else NotSaved)
  }

  function Enrol(r: Registry, m: string, card: Card): Registry {
    var e := Entry(card, Pending, None, None, 0, 0, r.nextRegistration);
    Registry(r.entries.Put(m, e), r.disk, r.limit, r.nextRegistration + 1)
  }

  // ---- claims ----

  datatype ClaimResult =
    | Missing
    | Duplicate(seen: Entry)
    | Claimed(taken: Entry)
    | ClaimNotSaved

  /** A further attempt of the same event counts up, another event starts at one. */
  function TakenBy(e: Entry, event: nat): Entry {
    e.(state := Processing, claimedBy := Some(event), attemptOf := Some(event),
       attempts := if e.attemptOf == Some(event) then e.attempts + 1 else 1)
  }

  /** claim: an event takes a pending card, durably or not at all. */
  function Claim(r: Registry, m: string, event: nat, env: Env): (Registry, ClaimResult) {
    if Found(r, m, env.expired) then ClaimFound(r, m, event, env) else (Look(r, m, env.expired), Missing)
  }

  function ClaimFound(r: Registry, m: string, event: nat, env: Env): (Registry, ClaimResult)
    requires m in r.entries.items
  {
    var e := r.entries.items[m];
    if e.state != Pending then (Persist(r, env), if env.saved then Duplicate(e) else ClaimNotSaved) else
    (Take(r, m, TakenBy(e, event), env), if env.saved then Claimed(TakenBy(e, event)) else ClaimNotSaved)
  }

  /** Writes `taken` in the place of an entry, or leaves the entry there. */
  function Take(r: Registry, m: string, taken: Entry, env: Env): Registry
    requires m in r.entries.items
  {
    var p := Persist(Update(r, m, taken), env);
    if env.saved then p else RollBack(p, m, r.entries.items[m])
  }

  datatype EditResult = NoEdit | Edit(registration: nat, seqNo: nat) | EditNotSaved

  function TakenByEdit(e: Entry): Entry {
    e.(cardSeq := e.cardSeq + 1, state := Processing, claimedBy := Some(-(e.cardSeq + 1)))
  }

  /** claim_edit: a tool takes a pending card under the negated number of its edit. */
  function ClaimEdit(r: Registry, m: string, route: Route, env: Env): (Registry, EditResult) {
    if Found(r, m, env.expired) then ClaimEditFound(r, m, route, env) else (Look(r, m, env.expired), NoEdit)
  }

  function ClaimEditFound(r: Registry, m: string, route: Route, env: Env): (Registry, EditResult)
    requires m in r.entries.items
  {
    var e := r.entries.items[m];
    if e.state != Pending || !e.card.durable || e.card.route != route then (r, NoEdit) else
    (Take(r, m, TakenByEdit(e), env), if env.saved then Edit(e.registration, e.cardSeq + 1) else EditNotSaved)
  }

  function Numbered(e: Entry): Entry {
    e.(cardSeq := e.cardSeq + 1)
  }

  /** Under the lock next_card_seq takes the next number of the card, if there is one. */
  function Allocate(r: Registry, m: string, expired: set<string>): (Registry, Option<(nat, nat)>) {
    if !Found(r, m, expired) then (Look(r, m, expired), None) else
    var e := r.entries.items[m];
    (Update(r, m, Numbered(e)), Some((e.registration, e.cardSeq + 1)))
  }

  /** The number is used up even when the write fails, but then it is not returned. */
  function NextCardSeq(r: Registry, m: string, env: Env): (Registry, EditResult) {
    var (next, number) := Allocate(r, m, env.expired);
    match number
    case None => (next, NoEdit)
    case Some(n) => (Persist(next, env), if env.saved then Edit(n.0, n.1) else EditNotSaved)
  }

  predicate Holds(r: Registry, m: string, holder: int, expired: set<string>) {
    Found(r, m, expired) && r.entries.items[m].state == Processing && r.entries.items[m].claimedBy == Some(holder)
  }

  /** The holder gives the card back; anyone else changes nothing. */
  function GiveBack(r: Registry, m: string, holder: int, expired: set<string>): Registry {
    if Holds(r, m, holder, expired) then Update(r, m, r.entries.items[m].(state := Pending, claimedBy := None))
    else Look(r, m, expired)
  }

  /** The holder ends the card for good; anyone else changes nothing. */
  function EndCard(r: Registry, m: string, holder: int, expired: set<string>): Registry {
    if Holds(r, m, holder, expired) then Update(r, m, r.entries.items[m].(state := Completed)) else Look(r, m, expired)
  }

  /** release, complete and discard change the entry in one section and persist in a second. */
  function Release(r: Registry, m: string, holder: int, env: Env): Registry {
    Persist(GiveBack(r, m, holder, env.expired), env)
  }

  function Complete(r: Registry, m: string, holder: int, env: Env): Registry {
    Persist(EndCard(r, m, holder, env.expired), env)
  }

  function Discard(r: Registry, m: string, env: Env): Registry {
    Persist(r.(entries := Drop(r.entries, {m})), env)
  }

  // ---- restart ----

  /** A card that was being worked on when the process died may be tried again. */
  function Revived(e: Entry): Entry {
    e.(state := if e.state == Processing then Pending else e.state, claimedBy := None)
  }

  /** The registry of a new process, without the records whose time is over. */
  function Restart(r: Registry, expired: set<string>): Registry {
    var live := Drop(r.disk, expired);
    r.(entries := Dict(live.keys, map m | m in live.items :: Revived(live.items[m])))
  }

  // ---- the invariant ----

  ghost predicate Shaped(r: Registry) {
    r.entries.Valid() && r.disk.Valid() && r.limit > 0 && |r.entries.keys| <= r.limit && |r.disk.keys| <= r.limit
  }

  /** No two cards share a registration, whether in memory or on disk. */
  ghost predicate Distinct(a: Entries, b: Entries) {
    forall m, n :: m in a.items && n in b.items && a.items[m].registration == b.items[n].registration ==> m == n
  }

  ghost predicate Enrolled(r: Registry) {
    && (forall m <- r.entries.items :: r.entries.items[m].registration < r.nextRegistration)
    && (forall m <- r.disk.items :: r.disk.items[m].registration < r.nextRegistration && r.disk.items[m].card.durable)
    && Distinct(r.entries, r.entries) && Distinct(r.disk, r.disk) && Distinct(r.entries, r.disk)
  }

  /** `e` may follow `d`: the same card later in its life. */
  predicate Follows(d: Entry, e: Entry) {
    && e.registration == d.registration && e.card == d.card
    && (d.state == Completed ==> e.state == Completed)
    && d.cardSeq <= e.cardSeq
  }

  /** Memory is never behind the disk. */
  ghost predicate Ahead(r: Registry) {
    forall m :: m in r.entries.items && m in r.disk.items ==> InOrder(r.disk.items[m], r.entries.items[m])
  }

  predicate InOrder(d: Entry, e: Entry) {
    d.registration == e.registration ==> Follows(d, e)
  }

  /** A card that is being worked on has one holder: an event, or an edit under a negative number. */
  predicate WellHeld(e: Entry) {
    && (e.state == Processing ==> e.claimedBy.Some?)
    && (e.state == Pending ==> e.claimedBy.None?)
    && (e.claimedBy.Some? && e.claimedBy.value < 0 ==> -e.claimedBy.value <= e.cardSeq)
  }

  ghost predicate Held(r: Registry) {
    forall m <- r.entries.items :: WellHeld(r.entries.items[m])
  }

  ghost predicate Inv(r: Registry) {
    Shaped(r) && Enrolled(r) && Ahead(r) && Held(r)
  }
}
