/** Card registries over whole runs, with failing writes, crashes and restarts. */
module CardRuns {
  import opened Wrappers
  import opened OrderedDict
  import opened CardSessions
  import opened CardInvariant

  /**
   One section under the lock, by any task.  claim and claim_edit persist inside theirs; the other
   operations change the entries in one section and persist in a second, which is Persisting, and
   anything may come in between.  A crash is Restarting, after a write that was or was not made.
   */
  datatype Event =
    | Registering(id: string, card: Card, expired: set<string>)
    | Claiming(id: string, event: nat, env: Env)
    | Editing(id: string, route: Route, env: Env)
    | Numbering(id: string, expired: set<string>)
    | Releasing(id: string, holder: int, expired: set<string>)
    | Completing(id: string, holder: int, expired: set<string>)
    | Discarding(id: string)
    | Persisting(env: Env)
    | Restarting(expired: set<string>)

  function Next(r: Registry, ev: Event): Registry {
    match ev
    case Registering(m, card, expired) => Enlist(r, m, card, expired).0
    case Claiming(m, event, env) => Claim(r, m, event, env).0
    case Editing(m, route, env) => ClaimEdit(r, m, route, env).0
    case Numbering(m, expired) => Allocate(r, m, expired).0
    case Releasing(m, holder, expired) => GiveBack(r, m, holder, expired)
    case Completing(m, holder, expired) => EndCard(r, m, holder, expired)
    case Discarding(m) => r.(entries := Drop(r.entries, {m}))
    case Persisting(env) => Persist(r, env)
    case Restarting(expired) => Restart(r, expired)
  }

  lemma NextInv(r: Registry, ev: Event)
    requires Inv(r)
    ensures Inv(Next(r, ev))
  {
    match ev
    case Registering(m, card, expired) => EnlistInv(r, m, card, expired);
    case Claiming(m, event, env) => ClaimInv(r, m, event, env);
    case Editing(m, route, env) => ClaimEditInv(r, m, route, env);
    case Numbering(m, expired) => AllocateInv(r, m, expired);
    case Releasing(m, holder, expired) => GiveBackInv(r, m, holder, expired);
    case Completing(m, holder, expired) => EndCardInv(r, m, holder, expired);
    case Discarding(m) => DropInv(r, {m});
    case Persisting(env) => PersistInv(r, env);
    case Restarting(expired) => RestartInv(r, expired);
  }

  /** The card an answer hands over, to an event or to an edit. */
  function Takes(r: Registry, ev: Event): Option<nat> {
    match ev
    case Claiming(m, event, env) =>
      (match Claim(r, m, event, env).1
       case Claimed(e) => Some(e.registration)
       case _ => None)
    case Editing(m, route, env) =>
      (match ClaimEdit(r, m, route, env).1
       case Edit(k, _) => Some(k)
       case _ => None)
    case _ => None
  }

  /** The card number a section hands out, with its card: at once to an edit, after its second section to next_card_seq. */
  function Issues(r: Registry, ev: Event): Option<(nat, nat)> {
    match ev
    case Editing(m, route, env) => IssuedBy(ClaimEdit(r, m, route, env).1)
    case Numbering(m, expired) => Allocate(r, m, expired).1
    case _ => None
  }

  function IssuedBy(a: EditResult): Option<(nat, nat)> {
    match a
    case Edit(k, n) => Some((k, n))
    case _ => None
  }

  // ---- where an entry comes from ----

  /** What one operation may do to a card: nothing, or its own move in the life of its own card. */
  predicate Moves(ev: Event, m: string, a: Entry, b: Entry) {
    b == a ||
    match ev
    case Claiming(id, event, env) => id == m && a.state == Pending && b == TakenBy(a, event)
    case Editing(id, _, env) => id == m && a.state == Pending && b == TakenByEdit(a)
    case Numbering(id, _) => id == m && b == Numbered(a)
    case Releasing(id, h, _) =>
      id == m && a.state == Processing && a.claimedBy == Some(h) && b == a.(state := Pending, claimedBy := None)
    case Completing(id, h, _) =>
      id == m && a.state == Processing && a.claimedBy == Some(h) && b == a.(state := Completed)
    case _ => false
  }

  predicate IsFresh(r: Registry, e: Entry) {
    e.registration == r.nextRegistration && e.state == Pending && e.cardSeq == 0
  }

  /** Every entry in memory was there before, is new, or was read from disk. */
  predicate ComesFrom(r: Registry, ev: Event, m: string, b: Entry) {
    || (ev.Registering? && m == ev.id && IsFresh(r, b))
    || (ev.Restarting? && m in r.disk.items && b == Revived(r.disk.items[m]))
    || (!ev.Restarting? && m in r.entries.items && Moves(ev, m, r.entries.items[m], b))
  }

  lemma EnrolledFrom(r: Registry, id: string, card: Card, expired: set<string>, m: string)
    requires Inv(r) && m in Enlist(r, id, card, expired).0.entries.items
    ensures ComesFrom(r, Registering(id, card, expired), m, Enlist(r, id, card, expired).0.entries.items[m])
  {
    RoomIsMade(Drop(r.entries, expired).Remove(id), r.limit);
  }

  lemma ClaimedFrom(r: Registry, id: string, event: nat, env: Env, m: string)
    requires Inv(r) && m in Claim(r, id, event, env).0.entries.items
    ensures ComesFrom(r, Claiming(id, event, env), m, Claim(r, id, event, env).0.entries.items[m])
  {
    if Found(r, id, env.expired) && r.entries.items[id].state == Pending && !env.saved {
      RolledBack(r, id, TakenBy(r.entries.items[id], event), env);
    }
  }

  lemma EditedFrom(r: Registry, id: string, route: Route, env: Env, m: string)
    requires Inv(r) && m in ClaimEdit(r, id, route, env).0.entries.items
    ensures ComesFrom(r, Editing(id, route, env), m, ClaimEdit(r, id, route, env).0.entries.items[m])
  {
    if Found(r, id, env.expired) && r.entries.items[id].state == Pending && !env.saved {
      RolledBack(r, id, TakenByEdit(r.entries.items[id]), env);
    }
  }

  lemma Origin(r: Registry, ev: Event, m: string)
    requires Inv(r) && m in Next(r, ev).entries.items
    ensures ComesFrom(r, ev, m, Next(r, ev).entries.items[m])
  {
    match ev
    case Registering(id, card, expired) => EnrolledFrom(r, id, card, expired, m);
    case Claiming(id, event, env) => ClaimedFrom(r, id, event, env, m);
    case Editing(id, route, env) => EditedFrom(r, id, route, env, m);
    case _ =>
  }

  ghost predicate DiskFrom(a: Registry, b: Registry) {
    b.disk == a.disk || b.disk == DurablePart(b.entries)
  }

  /** The disk is as before, or it has just been written from memory. */
  lemma DiskOrigin(r: Registry, ev: Event)
    requires Inv(r)
    ensures DiskFrom(r, Next(r, ev))
  {
    match ev
    case Claiming(id, event, env) =>
      if Found(r, id, env.expired) && r.entries.items[id].state == Pending && !env.saved {
        RolledBack(r, id, TakenBy(r.entries.items[id], event), env);
      }
    case Editing(id, route, env) =>
      if Found(r, id, env.expired) && r.entries.items[id].state == Pending && !env.saved {
        RolledBack(r, id, TakenByEdit(r.entries.items[id]), env);
      }
    case _ =>
  }

  lemma RegistrationsGrow(r: Registry, ev: Event)
    ensures r.nextRegistration <= Next(r, ev).nextRegistration <= r.nextRegistration + 1
    ensures !ev.Registering? ==> Next(r, ev).nextRegistration == r.nextRegistration
  {
  }

  // ---- a completed card stays completed ----

  ghost predicate AllInMemory(r: Registry, k: nat, P: Entry -> bool) {
    forall m <- r.entries.items :: r.entries.items[m].registration == k ==> P(r.entries.items[m])
  }

  ghost predicate AllOnDisk(r: Registry, k: nat, P: Entry -> bool) {
    forall m <- r.disk.items :: r.disk.items[m].registration == k ==> P(r.disk.items[m])
  }

  predicate IsCompleted(e: Entry) {
    e.state == Completed
  }

  /** Card `k` is over in this process. */
  ghost predicate Ended(r: Registry, k: nat) {
    k < r.nextRegistration && AllInMemory(r, k, IsCompleted)
  }

  /** Card `k` is over, and no restart can bring it back. */
  ghost predicate Settled(r: Registry, k: nat) {
    Ended(r, k) && AllOnDisk(r, k, IsCompleted)
  }

  /** A card completed on disk is settled, whatever memory had been up to. */
  lemma CompletedOnDisk(r: Registry, m: string)
    requires Inv(r) && m in r.disk.items && r.disk.items[m].state == Completed
    ensures Settled(r, r.disk.items[m].registration)
  {
    var k := r.disk.items[m].registration;
    forall n | n in r.entries.items && r.entries.items[n].registration == k ensures IsCompleted(r.entries.items[n]) {
      assert n == m;
      assert InOrder(r.disk.items[m], r.entries.items[m]);
    }
    forall n | n in r.disk.items && r.disk.items[n].registration == k ensures IsCompleted(r.disk.items[n]) {
      assert n == m;
    }
  }

  lemma EndedStays(r: Registry, ev: Event, k: nat)
    requires Inv(r) && Ended(r, k) && (ev.Restarting? ==> Settled(r, k))
    ensures Ended(Next(r, ev), k) && Takes(r, ev) != Some(k)
  {
    RegistrationsGrow(r, ev);
    var r' := Next(r, ev);
    forall m | m in r'.entries.items && r'.entries.items[m].registration == k ensures IsCompleted(r'.entries.items[m]) {
      Origin(r, ev, m);
    }
  }

  lemma SettledStays(r: Registry, ev: Event, k: nat)
    requires Inv(r) && Settled(r, k)
    ensures Settled(Next(r, ev), k) && Takes(r, ev) != Some(k)
  {
    EndedStays(r, ev, k);
    var r' := Next(r, ev);
    forall m | m in r'.disk.items && r'.disk.items[m].registration == k ensures IsCompleted(r'.disk.items[m]) {
      DiskOrigin(r, ev);
    }
  }

  // ---- runs ----

  function Run(r: Registry, evs: seq<Event>): Registry
    decreases |evs|
  {
    if evs == [] then r else Run(Next(r, evs[0]), evs[1..])
  }

  /** How often a run hands over card `k`. */
  function Taken(r: Registry, evs: seq<Event>, k: nat): nat
    decreases |evs|
  {
    if evs == [] then 0 else
    (if Takes(r, evs[0]) == Some(k) then 1 else 0) + Taken(Next(r, evs[0]), evs[1..], k)
  }

  lemma {:induction false} RunInv(r: Registry, evs: seq<Event>)
    requires Inv(r)
    ensures Inv(Run(r, evs))
    decreases |evs|
  {
    if evs != [] {
      NextInv(r, evs[0]);
      RunInv(Next(r, evs[0]), evs[1..]);
    }
  }

  lemma {:induction false} SettledForever(r: Registry, evs: seq<Event>, k: nat)
    requires Inv(r) && Settled(r, k)
    ensures Taken(r, evs, k) == 0 && Settled(Run(r, evs), k)
    decreases |evs|
  {
    if evs != [] {
      NextInv(r, evs[0]);
      SettledStays(r, evs[0], k);
      SettledForever(Next(r, evs[0]), evs[1..], k);
    }
  }

  /**
   Once the completed state of a card is on disk, no later run hands that card over again: not to
   an event, not to an edit, whatever writes fail and wherever the process crashes and restarts.
   */
  lemma CompletedOnDiskIsNeverTaken(r: Registry, evs: seq<Event>, m: string)
    requires Inv(r) && m in r.disk.items && r.disk.items[m].state == Completed
    ensures Taken(r, evs, r.disk.items[m].registration) == 0
  {
    CompletedOnDisk(r, m);
    SettledForever(r, evs, r.disk.items[m].registration);
  }

  // ---- duplicates ----

  /**
   A claim that meets a completed card answers duplicate only once that state is durable: then the
   card is settled, and it is on disk as completed unless its time was over.
   */
  lemma DuplicateIsDurable(r: Registry, m: string, event: nat, env: Env, e: Entry)
    requires Inv(r) && Claim(r, m, event, env).1 == Duplicate(e)
    ensures var r' := Claim(r, m, event, env).0;
      && e.state != Pending && Found(r, m, env.expired) && e == r.entries.items[m]
      && (e.state == Completed ==> Settled(r', e.registration))
      && (e.card.durable && m !in env.pruned ==> m in r'.disk.items && r'.disk.items[m] == e)
  {
    var r' := Claim(r, m, event, env).0;
    assert r' == Persist(r, env);
    PersistInv(r, env);
    if e.state == Completed {
      assert forall n <- r.entries.items :: r.entries.items[n].registration == e.registration ==> n == m;
      assert AllInMemory(r', e.registration, IsCompleted);
      assert AllOnDisk(r', e.registration, IsCompleted);
    }
  }

  // ---- exclusion ----

  /** `h` works on the card under `m`. */
  predicate Working(r: Registry, m: string, k: nat, h: int) {
    m in r.entries.items && r.entries.items[m].registration == k
    && r.entries.items[m].state == Processing && r.entries.items[m].claimedBy == Some(h)
  }

  predicate GivesBack(ev: Event, m: string, h: int) {
    (ev.Releasing? || ev.Completing?) && ev.id == m && ev.holder == h
  }

  /**
   While a holder works on a card, nobody else gets it, and nobody else's release or complete
   touches it: until the holder gives it back or the process dies, it is held or gone.
   */
  lemma HolderIsAlone(r: Registry, ev: Event, m: string, k: nat, h: int)
    requires Inv(r) && Working(r, m, k, h) && !GivesBack(ev, m, h) && !ev.Restarting?
    ensures Takes(r, ev) != Some(k)
    ensures var r' := Next(r, ev); m in r'.entries.items && r'.entries.items[m].registration == k ==>
      Working(r', m, k, h) && Moves(Numbering(m, {}), m, r.entries.items[m], r'.entries.items[m])
  {
    if m in Next(r, ev).entries.items {
      Origin(r, ev, m);
    }
  }

  /** Release and complete by anyone but the holder only prune and write. */
  lemma StrangerChangesNothing(r: Registry, m: string, h: int, env: Env)
    requires !Holds(r, m, h, env.expired) && m !in env.expired
    ensures Release(r, m, h, env) == Persist(r, env) && Complete(r, m, h, env) == Persist(r, env)
  {
  }

  /** An event and an edit never pass for one another. */
  lemma EditsAreNoEvents(r: Registry, m: string, route: Route, env: Env, event: nat)
    requires ClaimEdit(r, m, route, env).1.Edit?
    ensures !Holds(ClaimEdit(r, m, route, env).0, m, event, {})
  {
    var taken := TakenByEdit(r.entries.items[m]);
    assert ClaimEdit(r, m, route, env).0 == Persist(Update(r, m, taken), env);
  }

  // ---- a registry to start from ----

  const SAVED := Env({}, {}, true)

  /** One pending card in an otherwise empty registry. */
  function OneCard(id: string, route: Route, limit: nat): Registry {
    Next(Registry(Empty(), Empty(), limit, 0), Registering(id, Card(route, true), {}))
  }

  lemma OneCardFacts(id: string, route: Route, limit: nat)
    requires Bounded(id) && limit > 0
    ensures var r := OneCard(id, route, limit);
      Inv(r) && r.entries.items == map[id := Entry(Card(route, true), Pending, None, None, 0, 0, 0)]
  {
    NextInv(Registry(Empty(), Empty(), limit, 0), Registering(id, Card(route, true), {}));
  }

  // ---- card numbers ----

  /** Memory has used up the numbers of card `k` through `n`. */
  ghost predicate UsedUp(r: Registry, k: nat, n: nat) {
    (n == 0 || k < r.nextRegistration) && AllInMemory(r, k, (e: Entry) => n <= e.cardSeq)
  }

  /** So has the disk. */
  ghost predicate Floor(r: Registry, k: nat, n: nat) {
    UsedUp(r, k, n) && AllOnDisk(r, k, (e: Entry) => n <= e.cardSeq)
  }

  lemma UsedUpStays(r: Registry, ev: Event, k: nat, n: nat)
    requires Inv(r) && UsedUp(r, k, n) && (ev.Restarting? ==> Floor(r, k, n))
    ensures UsedUp(Next(r, ev), k, n)
  {
    RegistrationsGrow(r, ev);
    var r' := Next(r, ev);
    forall m | m in r'.entries.items && r'.entries.items[m].registration == k ensures n <= r'.entries.items[m].cardSeq {
      Origin(r, ev, m);
    }
  }

  lemma FloorStays(r: Registry, ev: Event, k: nat, n: nat)
    requires Inv(r) && Floor(r, k, n)
    ensures Floor(Next(r, ev), k, n)
  {
    UsedUpStays(r, ev, k, n);
    var r' := Next(r, ev);
    forall m | m in r'.disk.items && r'.disk.items[m].registration == k ensures n <= r'.disk.items[m].cardSeq {
      DiskOrigin(r, ev);
    }
  }

  /** A number handed out is above every number used up before, and used up itself. */
  lemma IssueUsesUp(r: Registry, ev: Event, k: nat, n: nat)
    requires Inv(r) && Issues(r, ev) == Some((k, n))
    ensures UsedUp(Next(r, ev), k, n) && (ev.Editing? ==> Floor(Next(r, ev), k, n))
    ensures forall f: nat {:trigger UsedUp(r, k, f)} :: UsedUp(r, k, f) ==> f < n
  {
    NextInv(r, ev);
    var m := ev.id;
    var r' := Next(r, ev);
    assert m in r.entries.items && r.entries.items[m].registration == k && r.entries.items[m].cardSeq == n - 1;
    forall x | x in r'.entries.items && r'.entries.items[x].registration == k ensures n <= r'.entries.items[x].cardSeq {
      Origin(r, ev, x);
    }
    if ev.Editing? {
      assert r'.disk == DurablePart(r'.entries);
    }
  }

  /** A write that succeeds makes what memory has used up durable. */
  lemma SavedIsFloor(r: Registry, env: Env, k: nat, n: nat)
    requires Inv(r) && UsedUp(r, k, n) && env.saved
    ensures Floor(Next(r, Persisting(env)), k, n)
  {
    assert Next(r, Persisting(env)).disk == DurablePart(Next(r, Persisting(env)).entries);
  }

  /** The numbers a run hands out for card `k`, in order. */
  function Numbers(r: Registry, evs: seq<Event>, k: nat): seq<nat>
    decreases |evs|
  {
    if evs == [] then [] else
    var rest := Numbers(Next(r, evs[0]), evs[1..], k);
    match Issues(r, evs[0])
    case Some(issue) => if issue.0 == k then [issue.1] + rest else rest
    case None => rest
  }

  predicate NoRestart(evs: seq<Event>) {
    forall i :: 0 <= i < |evs| ==> !evs[i].Restarting?
  }

  predicate Ascending(ns: seq<nat>, f: nat) {
    && (forall i :: 0 <= i < |ns| ==> f < ns[i])
    && (forall i, j :: 0 <= i < j < |ns| ==> ns[i] < ns[j])
  }

  predicate AllAbove(ns: seq<nat>, f: nat) {
    forall i :: 0 <= i < |ns| ==> f < ns[i]
  }

  lemma AscendingCons(n: nat, ns: seq<nat>, f: nat)
    requires f < n && Ascending(ns, n)
    ensures Ascending([n] + ns, f)
  {
  }

  /** In one process the numbers handed out for one card ascend. */
  lemma {:induction false} NumbersAscend(r: Registry, evs: seq<Event>, k: nat, f: nat)
    requires Inv(r) && UsedUp(r, k, f) && NoRestart(evs)
    ensures Ascending(Numbers(r, evs, k), f) && UsedUp(Run(r, evs), k, f)
    decreases |evs|
  {
    if evs != [] {
      var ev, r' := evs[0], Next(r, evs[0]);
      NextInv(r, ev);
      UsedUpStays(r, ev, k, f);
      assert NoRestart(evs[1..]);
      NumbersAscend(r', evs[1..], k, f);
      if Issues(r, ev).Some? && Issues(r, ev).value.0 == k {
        var n := Issues(r, ev).value.1;
        IssueUsesUp(r, ev, k, n);
        NumbersAscend(r', evs[1..], k, n);
        AscendingCons(n, Numbers(r', evs[1..], k), f);
        assert Numbers(r, evs, k) == [n] + Numbers(r', evs[1..], k);
      } else {
        assert Numbers(r, evs, k) == Numbers(r', evs[1..], k);
      }
    }
  }

  /** Above a durable floor they stay, whatever crashes and restarts happen. */
  lemma {:induction false} NumbersAboveFloor(r: Registry, evs: seq<Event>, k: nat, f: nat)
    requires Inv(r) && Floor(r, k, f)
    ensures AllAbove(Numbers(r, evs, k), f)
    decreases |evs|
  {
    if evs != [] {
      var ev, r' := evs[0], Next(r, evs[0]);
      NextInv(r, ev);
      FloorStays(r, ev, k, f);
      NumbersAboveFloor(r', evs[1..], k, f);
      if Issues(r, ev).Some? && Issues(r, ev).value.0 == k {
        IssueUsesUp(r, ev, k, Issues(r, ev).value.1);
        assert Numbers(r, evs, k) == [Issues(r, ev).value.1] + Numbers(r', evs[1..], k);
      } else {
        assert Numbers(r, evs, k) == Numbers(r', evs[1..], k);
      }
    }
  }

  /**
   A number that next_card_seq returns was handed out in its first section and made durable in its
   second, with `meanwhile` in between.  Every number handed out for the card after it, in the same
   process or after any crashes and restarts, is greater: what is returned for one card is never
   returned twice, and ascends in the order in which it was handed out.
   */
  lemma NumbersGrow(r: Registry, id: string, expired: set<string>, meanwhile: seq<Event>, env: Env, later: seq<Event>, k: nat, n: nat)
    requires Inv(r) && Issues(r, Numbering(id, expired)) == Some((k, n)) && NoRestart(meanwhile) && env.saved
    ensures var r1 := Next(r, Numbering(id, expired)); var r2 := Run(r1, meanwhile);
      && Ascending(Numbers(r1, meanwhile, k), n)
      && AllAbove(Numbers(Next(r2, Persisting(env)), later, k), n)
  {
    var r1 := Next(r, Numbering(id, expired));
    var r2 := Run(r1, meanwhile);
    NextInv(r, Numbering(id, expired));
    IssueUsesUp(r, Numbering(id, expired), k, n);
    NumbersAscend(r1, meanwhile, k, n);
    RunInv(r1, meanwhile);
    NextInv(r2, Persisting(env));
    SavedIsFloor(r2, env, k, n);
    NumbersAboveFloor(Next(r2, Persisting(env)), later, k, n);
  }

  /** The number of an edit is durable at once. */
  lemma EditNumbersGrow(r: Registry, id: string, route: Route, env: Env, later: seq<Event>, k: nat, n: nat)
    requires Inv(r) && Issues(r, Editing(id, route, env)) == Some((k, n))
    ensures AllAbove(Numbers(Next(r, Editing(id, route, env)), later, k), n)
  {
    NextInv(r, Editing(id, route, env));
    IssueUsesUp(r, Editing(id, route, env), k, n);
    NumbersAboveFloor(Next(r, Editing(id, route, env)), later, k, n);
  }
}
