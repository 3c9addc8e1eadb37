/** When the card numbers that callers get ascend: next_card_seq beside claim_edit. */
module CardNumbers {
  import opened Wrappers
  import opened CardSessions
  import opened CardRuns

  /**
   A registry, and the number that next_card_seq has taken and not yet returned, with its card.  The
   one caller of next_card_seq handles its events one by one, so there is at most one such number.
   `overtaken` tells, for the record, whether an edit of the card got its number since.
   */
  datatype Desk = Desk(registry: Registry, waiting: Option<(nat, nat)>, overtaken: bool)

  /** Take and Save are the two sections of next_card_seq; Other is any section of anybody else, or a crash. */
  datatype Act = Take(id: string, expired: set<string>) | Save(saving: Env) | Other(ev: Event)

  predicate Legal(d: Desk, a: Act) {
    match a
    case Take(_, _) => d.waiting.None?
    case Save(_) => d.waiting.Some?
    case Other(ev) => !ev.Numbering?
  }

  function EventOf(a: Act): Event {
    match a
    case Take(id, expired) => Numbering(id, expired)
    case Save(env) => Persisting(env)
    case Other(ev) => ev
  }

  /** An edit of the card that a number is waiting for gets its own number. */
  predicate Overtakes(d: Desk, a: Act) {
    a.Other? && a.ev.Editing? && d.waiting.Some? && Issues(d.registry, a.ev).Some?
    && Issues(d.registry, a.ev).value.0 == d.waiting.value.0
  }

  function After(d: Desk, a: Act): Desk {
    var r := Next(d.registry, EventOf(a));
    match a
    case Take(id, expired) => Desk(r, Issues(d.registry, EventOf(a)), false)
    case Save(_) => Desk(r, None, false)
    case Other(ev) => if ev.Restarting? then Desk(r, None, false) else Desk(r, d.waiting, d.overtaken || Overtakes(d, a))
  }

  /** The number that somebody gets: an edit at once, next_card_seq when its write has succeeded. */
  function Returns(d: Desk, a: Act): Option<(nat, nat)> {
    match a
    case Take(_, _) => None
    case Save(env) => if env.saved then d.waiting else None
    case Other(ev) => if ev.Editing? then Issues(d.registry, ev) else None
  }

  predicate For(n: Option<(nat, nat)>, k: nat) {
    n.Some? && n.value.0 == k
  }

  predicate LegalRun(d: Desk, acts: seq<Act>)
    decreases |acts|
  {
    acts == [] || (Legal(d, acts[0]) && LegalRun(After(d, acts[0]), acts[1..]))
  }

  /** The numbers of card `k` in the order in which they are returned. */
  function Returned(d: Desk, acts: seq<Act>, k: nat): seq<nat>
    decreases |acts|
  {
    if acts == [] then [] else
    (if For(Returns(d, acts[0]), k) then [Returns(d, acts[0]).value.1] else []) + Returned(After(d, acts[0]), acts[1..], k)
  }

  /** next_card_seq returns a number for `k` although an edit of the card has got one in the meantime. */
  predicate ReturnsLate(d: Desk, a: Act, k: nat) {
    a.Save? && For(Returns(d, a), k) && d.overtaken
  }

  predicate NeverLate(d: Desk, acts: seq<Act>, k: nat)
    decreases |acts|
  {
    acts == [] || (!ReturnsLate(d, acts[0], k) && NeverLate(After(d, acts[0]), acts[1..], k))
  }

  // ---- the order of return ----

  /** Everything returned so far is durable and at most `f`; the number that waits is above it, unless overtaken. */
  ghost predicate Settled(d: Desk, k: nat, f: nat) {
    && Inv(d.registry) && Floor(d.registry, k, f)
    && (For(d.waiting, k) ==>
        && UsedUp(d.registry, k, d.waiting.value.1)
        && (if d.overtaken then d.waiting.value.1 < f else f < d.waiting.value.1))
  }

  /** The last number returned, after one more act. */
  function Latest(d: Desk, a: Act, k: nat, f: nat): nat {
    if For(Returns(d, a), k) && f < Returns(d, a).value.1 then Returns(d, a).value.1 else f
  }

  lemma TakeSettles(d: Desk, a: Act, k: nat, f: nat)
    requires Settled(d, k, f) && Legal(d, a) && a.Take?
    ensures Settled(After(d, a), k, f)
  {
    var ev := EventOf(a);
    NextInv(d.registry, ev);
    FloorStays(d.registry, ev, k, f);
    if For(Issues(d.registry, ev), k) {
      IssueUsesUp(d.registry, ev, k, Issues(d.registry, ev).value.1);
    }
  }

  lemma SaveSettles(d: Desk, a: Act, k: nat, f: nat)
    requires Settled(d, k, f) && Legal(d, a) && a.Save?
    ensures Settled(After(d, a), k, Latest(d, a, k, f))
  {
    var ev := EventOf(a);
    NextInv(d.registry, ev);
    FloorStays(d.registry, ev, k, f);
    if For(Returns(d, a), k) {
      SavedIsFloor(d.registry, a.saving, k, d.waiting.value.1);
    }
  }

  /** An edit gets a number above all others, and the one that waits for its card is overtaken. */
  lemma EditSettles(d: Desk, a: Act, k: nat, f: nat)
    requires Settled(d, k, f) && a.Other? && a.ev.Editing? && For(Issues(d.registry, a.ev), k)
    ensures Settled(After(d, a), k, Latest(d, a, k, f)) && f < Returns(d, a).value.1
  {
    var n := Issues(d.registry, a.ev).value.1;
    NextInv(d.registry, a.ev);
    IssueUsesUp(d.registry, a.ev, k, n);
    assert UsedUp(d.registry, k, f);
    if For(d.waiting, k) {
      UsedUpStays(d.registry, a.ev, k, d.waiting.value.1);
    }
  }

  lemma OtherSettles(d: Desk, a: Act, k: nat, f: nat)
    requires Settled(d, k, f) && Legal(d, a) && a.Other? && !For(Returns(d, a), k)
    ensures Settled(After(d, a), k, f)
  {
    NextInv(d.registry, a.ev);
    FloorStays(d.registry, a.ev, k, f);
    if For(d.waiting, k) && !a.ev.Restarting? {
      UsedUpStays(d.registry, a.ev, k, d.waiting.value.1);
    }
  }

  lemma ActSettles(d: Desk, a: Act, k: nat, f: nat)
    requires Settled(d, k, f) && Legal(d, a)
    ensures Settled(After(d, a), k, Latest(d, a, k, f))
    ensures For(Returns(d, a), k) ==> (f < Returns(d, a).value.1 <==> !ReturnsLate(d, a, k))
  {
    match a
    case Take(_, _) => TakeSettles(d, a, k, f);
    case Save(_) => SaveSettles(d, a, k, f);
    case Other(ev) =>
      if For(Returns(d, a), k) {
        EditSettles(d, a, k, f);
      } else {
        OtherSettles(d, a, k, f);
      }
  }

  lemma AscendingHead(n: nat, ns: seq<nat>, f: nat)
    ensures Ascending([n] + ns, f) <==> f < n && Ascending(ns, n)
  {
    var all := [n] + ns;
    if Ascending(all, f) {
      assert all[0] == n;
      forall i | 0 <= i < |ns| ensures n < ns[i] {
        assert all[i + 1] == ns[i];
      }
      forall i, j | 0 <= i < j < |ns| ensures ns[i] < ns[j] {
        assert all[i + 1] == ns[i] && all[j + 1] == ns[j];
      }
    }
  }

  lemma {:induction false} ReturnedInOrder(d: Desk, acts: seq<Act>, k: nat, f: nat)
    requires Settled(d, k, f) && LegalRun(d, acts)
    ensures Ascending(Returned(d, acts, k), f) <==> NeverLate(d, acts, k)
    decreases |acts|
  {
    if acts != [] {
      var a, d' := acts[0], After(d, acts[0]);
      ActSettles(d, a, k, f);
      if For(Returns(d, a), k) {
        AscendingHead(Returns(d, a).value.1, Returned(d', acts[1..], k), f);
        if !ReturnsLate(d, a, k) {
          ReturnedInOrder(d', acts[1..], k, Returns(d, a).value.1);
        }
      } else {
        assert Returned(d, acts, k) == Returned(d', acts[1..], k);
        ReturnedInOrder(d', acts[1..], k, f);
      }
    }
  }

  /**
   Over all interleavings, failed writes, crashes and restarts the numbers returned for one card
   ascend if and only if no call of next_card_seq that succeeds has an edit of its card succeed
   between its two sections.
   */
  lemma ReturnsAscendIff(r: Registry, acts: seq<Act>, k: nat)
    requires Inv(r) && LegalRun(Desk(r, None, false), acts)
    ensures Ascending(Returned(Desk(r, None, false), acts, k), 0) <==> NeverLate(Desk(r, None, false), acts, k)
  {
    ReturnedInOrder(Desk(r, None, false), acts, k, 0);
  }

  // ---- the other order does come about ----

  /** An edit of the card `m` between the two sections of a call for it. */
  function EditBetween(m: string, route: Route): seq<Act> {
    [Take(m, {}), Other(Editing(m, route, SAVED)), Save(SAVED)]
  }

  /** On every pending card that an edit may take, the edit gets the greater number, and gets it first. */
  lemma EditOvertakes(r: Registry, m: string)
    requires m in r.entries.items && r.entries.items[m].state == Pending && r.entries.items[m].card.durable
    ensures var e := r.entries.items[m]; var d := Desk(r, None, false);
      && LegalRun(d, EditBetween(m, e.card.route))
      && Returned(d, EditBetween(m, e.card.route), e.registration) == [e.cardSeq + 2, e.cardSeq + 1]
  {
    var e, acts := r.entries.items[m], EditBetween(m, r.entries.items[m].card.route);
    var d0 := Desk(r, None, false);
    var d1 := After(d0, acts[0]);
    var d2 := After(d1, acts[1]);
    assert d1.registry.entries.items[m] == Numbered(e) && d1.waiting == Some((e.registration, e.cardSeq + 1));
    assert Issues(d1.registry, acts[1].ev) == Some((e.registration, e.cardSeq + 2));
    var last := acts[1..][1..];
    assert last == [Save(SAVED)] && last[1..] == [];
    assert LegalRun(d2, last) && LegalRun(d1, acts[1..]);
    assert Returned(d2, last, e.registration) == [e.cardSeq + 1];
    assert Returned(d1, acts[1..], e.registration) == [e.cardSeq + 2] + Returned(d2, last, e.registration);
  }

  /** After one registration: 2 is returned before 1. */
  lemma TwoBeforeOne(limit: nat, m: string, route: Route)
    requires limit > 0 && Bounded(m)
    ensures var d := Desk(OneCard(m, route, limit), None, false);
      && Inv(d.registry) && LegalRun(d, EditBetween(m, route)) && Returned(d, EditBetween(m, route), 0) == [2, 1]
  {
    OneCardFacts(m, route, limit);
    EditOvertakes(OneCard(m, route, limit), m);
  }
}
