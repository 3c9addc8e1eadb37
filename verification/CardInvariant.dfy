/** Every operation of the card registry keeps its invariant. */
module CardInvariant {
  import opened Wrappers
  import opened OrderedDict
  import opened CardSessions

  // ---- the three things an operation is made of ----

  /** Entries may go from memory at any time. */
  lemma DropInv(r: Registry, ids: set<string>)
    requires Inv(r)
    ensures Inv(r.(entries := Drop(r.entries, ids)))
  {
  }

  /** Writing the durable part of memory. */
  lemma WriteInv(r: Registry)
    requires Inv(r)
    ensures Inv(r.(disk := DurablePart(r.entries)))
  {
  }

  /** An entry moves forward in its life. */
  lemma UpdateInv(r: Registry, m: string, e: Entry)
    requires Inv(r) && m in r.entries.items && Follows(r.entries.items[m], e) && WellHeld(e)
    ensures Inv(Update(r, m, e))
  {
  }

  lemma PersistInv(r: Registry, env: Env)
    requires Inv(r)
    ensures Inv(Persist(r, env))
  {
    DropInv(r, env.pruned);
    WriteInv(r.(entries := Drop(r.entries, env.pruned)));
  }

  lemma LookInv(r: Registry, m: string, expired: set<string>)
    requires Inv(r)
    ensures Inv(Look(r, m, expired))
  {
    if m in expired {
      DropInv(r, {m});
    }
  }

  /** An entry moves forward and this is written, or at least tried. */
  lemma AdvanceInv(r: Registry, m: string, e: Entry, env: Env)
    requires Inv(r) && m in r.entries.items && Follows(r.entries.items[m], e) && WellHeld(e)
    ensures Inv(Persist(Update(r, m, e), env))
  {
    UpdateInv(r, m, e);
    PersistInv(Update(r, m, e), env);
  }

  /** A claim that could not be saved is as if it had never been tried. */
  lemma RolledBack(r: Registry, m: string, e: Entry, env: Env)
    requires r.entries.Valid() && m in r.entries.items && !env.saved
    ensures Take(r, m, e, env) == Persist(r, env)
  {
    var p, q := Take(r, m, e, env), Persist(r, env);
    assert p.entries.items == q.entries.items;
  }

  // ---- claims and what ends them ----

  lemma ClaimInv(r: Registry, m: string, event: nat, env: Env)
    requires Inv(r)
    ensures Inv(Claim(r, m, event, env).0)
  {
    if !Found(r, m, env.expired) {
      LookInv(r, m, env.expired);
    } else if r.entries.items[m].state != Pending {
      PersistInv(r, env);
    } else if env.saved {
      AdvanceInv(r, m, TakenBy(r.entries.items[m], event), env);
    } else {
      RolledBack(r, m, TakenBy(r.entries.items[m], event), env);
      PersistInv(r, env);
    }
  }

  lemma ClaimEditInv(r: Registry, m: string, route: Route, env: Env)
    requires Inv(r)
    ensures Inv(ClaimEdit(r, m, route, env).0)
  {
    if !Found(r, m, env.expired) || r.entries.items[m].state != Pending {
      LookInv(r, m, env.expired);
    } else if env.saved {
      AdvanceInv(r, m, TakenByEdit(r.entries.items[m]), env);
    } else {
      RolledBack(r, m, TakenByEdit(r.entries.items[m]), env);
      PersistInv(r, env);
    }
  }

  lemma AllocateInv(r: Registry, m: string, expired: set<string>)
    requires Inv(r)
    ensures Inv(Allocate(r, m, expired).0)
  {
    if !Found(r, m, expired) {
      LookInv(r, m, expired);
    } else {
      UpdateInv(r, m, Numbered(r.entries.items[m]));
    }
  }

  lemma GiveBackInv(r: Registry, m: string, holder: int, expired: set<string>)
    requires Inv(r)
    ensures Inv(GiveBack(r, m, holder, expired))
  {
    if Holds(r, m, holder, expired) {
      UpdateInv(r, m, r.entries.items[m].(state := Pending, claimedBy := None));
    } else {
      LookInv(r, m, expired);
    }
  }

  lemma EndCardInv(r: Registry, m: string, holder: int, expired: set<string>)
    requires Inv(r)
    ensures Inv(EndCard(r, m, holder, expired))
  {
    if Holds(r, m, holder, expired) {
      UpdateInv(r, m, r.entries.items[m].(state := Completed));
    } else {
      LookInv(r, m, expired);
    }
  }

  // ---- registration ----

  /** `a` is what is left of `b` after giving up completed cards. */
  ghost predicate GaveUpCompleted(a: Entries, b: Entries) {
    && a.Valid() && |a.keys| <= |b.keys|
    && (forall k <- a.items :: k in b.items && a.items[k] == b.items[k])
    && (forall k <- b.items :: k !in a.items ==> b.items[k].state == Completed)
  }

  lemma {:induction false} NoneCompleted(d: Entries, keys: seq<string>)
    requires FirstCompleted(d, keys).None?
    ensures forall k <- keys :: k in d.items ==> d.items[k].state != Completed
  {
    if keys != [] {
      NoneCompleted(d, keys[1..]);
      assert keys == [keys[0]] + keys[1..];
    }
  }

  function Live(d: Entries): set<string> {
    set m | m in d.items && d.items[m].state != Completed
  }

  /**
   Room is made by giving up completed cards only, and no more of them than needed: it fails
   exactly when the live cards alone fill the registry.
   */
  lemma {:induction false} RoomIsMade(d: Entries, limit: nat)
    requires d.Valid() && limit > 0
    ensures var room := MakeRoom(d, limit);
      && GaveUpCompleted(room.entries, d) && Live(room.entries) == Live(d)
      && (room.made ==> |room.entries.keys| == if |d.keys| < limit then |d.keys| else limit - 1)
      && (room.made <==> |Live(d)| < limit)
    decreases |d.keys|
  {
    LiveCount(d);
    if |d.keys| >= limit {
      match FirstCompleted(d, d.keys)
      case None => NoneCompleted(d, d.keys);
      case Some(k) =>
        OneGivenUp(d);
        RoomIsMade(d.Remove(k), limit);
        assert MakeRoom(d, limit) == MakeRoom(d.Remove(k), limit);
    }
  }

  lemma OneGivenUp(d: Entries)
    requires d.Valid() && FirstCompleted(d, d.keys).Some?
    ensures var less := d.Remove(FirstCompleted(d, d.keys).value);
      less.Valid() && |less.keys| == |d.keys| - 1 && Live(less) == Live(d) && GaveUpCompleted(less, d)
  {
    var k := FirstCompleted(d, d.keys).value;
    FirstCompletedIn(d, d.keys);
    OneFewer(d, k);
  }

  lemma OneFewer(d: Entries, k: string)
    requires d.Valid() && k in d.items
    ensures d.Remove(k).Valid() && |d.Remove(k).keys| == |d.keys| - 1
  {
    RemoveFacts(d.keys, k);
    KeyCount(d);
    KeyCount(d.Remove(k));
    assert d.items.Keys == d.Remove(k).items.Keys + {k};
  }

  lemma LiveCount(d: Entries)
    requires d.Valid()
    ensures |Live(d)| <= |d.keys|
    ensures (forall m <- d.items :: d.items[m].state != Completed) ==> |Live(d)| == |d.keys|
  {
    KeyCount(d);
    var gone := d.items.Keys - Live(d);
    assert d.items.Keys == Live(d) + gone;
    assert (forall m <- d.items :: d.items[m].state != Completed) ==> gone == {};
  }

  /** Fewer entries in memory. */
  lemma FewerInv(r: Registry, entries: Entries)
    requires Inv(r) && entries.Valid() && |entries.keys| <= r.limit
    requires forall k <- entries.items :: k in r.entries.items && entries.items[k] == r.entries.items[k]
    ensures Inv(r.(entries := entries))
  {
  }

  /** A new card under the next registration number. */
  lemma EnrolInv(r: Registry, m: string, card: Card)
    requires Inv(r) && m !in r.entries.items && |r.entries.keys| < r.limit
    ensures Inv(Enrol(r, m, card))
  {
  }

  lemma EnlistInv(r: Registry, m: string, card: Card, expired: set<string>)
    requires Inv(r)
    ensures Inv(Enlist(r, m, card, expired).0)
  {
    var live := Drop(r.entries, expired);
    if !Bounded(m) {
    } else if m in live.items && live.items[m].state != Completed {
      DropInv(r, expired);
    } else {
      var room := MakeRoom(live.Remove(m), r.limit);
      RoomIsMade(live.Remove(m), r.limit);
      FewerInv(r, room.entries);
      if room.made {
        EnrolInv(r.(entries := room.entries), m, card);
      }
    }
  }

  // ---- operations of two sections ----

  lemma RegisterInv(r: Registry, m: string, card: Card, env: Env)
    requires Inv(r)
    ensures Inv(Register(r, m, card, env).0)
  {
    EnlistInv(r, m, card, env.expired);
    PersistInv(Enlist(r, m, card, env.expired).0, env);
  }

  lemma NextCardSeqInv(r: Registry, m: string, env: Env)
    requires Inv(r)
    ensures Inv(NextCardSeq(r, m, env).0)
  {
    AllocateInv(r, m, env.expired);
    PersistInv(Allocate(r, m, env.expired).0, env);
  }

  lemma ReleaseInv(r: Registry, m: string, holder: int, env: Env)
    requires Inv(r)
    ensures Inv(Release(r, m, holder, env))
  {
    GiveBackInv(r, m, holder, env.expired);
    PersistInv(GiveBack(r, m, holder, env.expired), env);
  }

  lemma CompleteInv(r: Registry, m: string, holder: int, env: Env)
    requires Inv(r)
    ensures Inv(Complete(r, m, holder, env))
  {
    EndCardInv(r, m, holder, env.expired);
    PersistInv(EndCard(r, m, holder, env.expired), env);
  }

  lemma DiscardInv(r: Registry, m: string, env: Env)
    requires Inv(r)
    ensures Inv(Discard(r, m, env))
  {
    DropInv(r, {m});
    PersistInv(r.(entries := Drop(r.entries, {m})), env);
  }

  lemma RestartInv(r: Registry, expired: set<string>)
    requires Inv(r)
    ensures Inv(Restart(r, expired))
  {
  }
}
