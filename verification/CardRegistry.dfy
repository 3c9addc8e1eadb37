/** The card registry of card_sessions.py, updating its entries in place. */
module CardRegistry {
  import opened Wrappers
  import opened OrderedDict
  import opened CardSessions
  import opened CardInvariant

  // ---- dropping entries one at a time ----

  lemma {:induction false} KeptWithout(keys: seq<string>, k: string, ids: set<string>)
    requires k in ids
    ensures Kept(Without(keys, k), ids) == Kept(keys, ids)
    decreases |keys|
  {
    if keys != [] && keys[0] != k {
      KeptWithout(keys[1..], k, ids);
      assert ([keys[0]] + Without(keys[1..], k))[1..] == Without(keys[1..], k);
    }
  }

  lemma DropOne(d: Entries, k: string, ids: set<string>)
    requires k in ids
    ensures Drop(d.Remove(k), ids) == Drop(d, ids)
  {
    KeptWithout(d.keys, k, ids);
    assert (d.items - {k}) - ids == d.items - ids;
  }

  lemma {:induction false} NothingDropped(d: Entries, ids: set<string>)
    requires d.Valid() && forall k <- d.items :: k !in ids
    ensures Drop(d, ids) == d
  {
    AllKept(d.keys, ids);
    assert d.items - ids == d.items;
  }

  lemma {:induction false} AllKept(keys: seq<string>, ids: set<string>)
    requires forall k <- keys :: k !in ids
    ensures Kept(keys, ids) == keys
    decreases |keys|
  {
    if keys != [] {
      assert keys == [keys[0]] + keys[1..];
      AllKept(keys[1..], ids);
    }
  }

  lemma {:induction false} KeptAppend(keys: seq<string>, k: string, ids: set<string>)
    ensures Kept(keys + [k], ids) == Kept(keys, ids) + if k in ids then [] else [k]
    decreases |keys|
  {
    if keys == [] {
      assert [k][1..] == [];
    } else {
      assert (keys + [k])[1..] == keys[1..] + [k];
      KeptAppend(keys[1..], k, ids);
    }
  }

  // ---- restoring records one at a time ----

  /** The first `i` records are back, but for the expired ones. */
  ghost predicate RestoredTo(e: Entries, disk: Entries, i: nat, expired: set<string>)
    requires i <= |disk.keys|
  {
    && e.Valid() && |e.keys| <= i && e.keys == Kept(disk.keys[..i], expired)
    && forall m <- e.items :: m in disk.items && e.items[m] == Revived(disk.items[m])
  }

  lemma RestoreStep(e: Entries, disk: Entries, i: nat, expired: set<string>)
    requires disk.Valid() && i < |disk.keys| && RestoredTo(e, disk, i, expired)
    ensures var m := disk.keys[i];
      RestoredTo(if m in expired then e else e.Put(m, Revived(disk.items[m])), disk, i + 1, expired)
  {
    var m := disk.keys[i];
    KeptAppend(disk.keys[..i], m, expired);
    assert disk.keys[..i + 1] == disk.keys[..i] + [m];
    KeptFacts(disk.keys[..i], expired);
    assert m !in e.items;
  }

  lemma RestoredAll(e: Entries, disk: Entries, expired: set<string>)
    requires disk.Valid() && RestoredTo(e, disk, |disk.keys|, expired)
    ensures e.keys == Drop(disk, expired).keys
    ensures e.items == map m | m in Drop(disk, expired).items :: Revived(Drop(disk, expired).items[m])
  {
    assert disk.keys[..|disk.keys|] == disk.keys;
    KeptFacts(disk.keys, expired);
  }

  class CardSessionRegistry {
    var entries: Entries
    var disk: Entries
    var nextRegistration: nat
    const limit: nat

    /** The registry as a value. */
    function State(): Registry
      reads this
    {
      Registry(entries, disk, limit, nextRegistration)
    }

    constructor (maxSessions: int)
      ensures Inv(State()) && entries == Empty() && disk == Empty()
      ensures limit == if maxSessions < 1 then 1 else maxSessions
    {
      entries, disk, nextRegistration := Empty(), Empty(), 0;
      limit := if maxSessions < 1 then 1 else maxSessions;
    }

    // ---- expiry and persistence ----

    method Prune(expired: set<string>)
      requires entries.Valid()
      modifies this`entries
      ensures entries == Drop(old(entries), expired)
    {
      var keys, i := entries.keys, 0;
      while i < |keys|
        invariant i <= |keys| && entries.Valid() && entries.items.Keys <= old(entries.items.Keys)
        invariant Drop(entries, expired) == Drop(old(entries), expired)
        invariant forall j :: 0 <= j < i ==> keys[j] !in expired || keys[j] !in entries.items
      {
        if keys[i] in expired {
          DropOne(entries, keys[i], expired);
          entries := entries.Remove(keys[i]);
        }
        i := i + 1;
      }
      NothingDropped(entries, expired);
    }

    /** The records to write, in order. */
    method Records() returns (records: Entries)
      requires entries.Valid()
      ensures records == DurablePart(entries)
    {
      ghost var transient := set m | m in entries.items && !entries.items[m].card.durable;
      records := Empty();
      var i := 0;
      while i < |entries.keys|
        invariant i <= |entries.keys| && records.Valid()
        invariant records.keys == Kept(entries.keys[..i], transient)
        invariant forall m :: m in records.items <==> m in entries.keys[..i] && m !in transient
        invariant forall m <- records.items :: m in entries.items && records.items[m] == entries.items[m]
      {
        var m := entries.keys[i];
        KeptAppend(entries.keys[..i], m, transient);
        assert entries.keys[..i + 1] == entries.keys[..i] + [m];
        if entries.items[m].card.durable {
          records := records.Put(m, entries.items[m]);
        }
        i := i + 1;
      }
      assert entries.keys[..i] == entries.keys;
      assert records.items == entries.items - transient;
    }

    /** Writes the whole durable part, or raises without writing. */
    method PersistNow(env: Env) returns (ok: bool)
      requires entries.Valid()
      modifies this`entries, this`disk
      ensures State() == Persist(old(State()), env) && ok == env.saved
    {
      Prune(env.pruned);
      var records := Records();
      if env.saved {
        disk := records;
      }
      ok := env.saved;
    }

    method Lookup(m: string, expired: set<string>) returns (found: bool)
      requires entries.Valid()
      modifies this`entries
      ensures State() == Look(old(State()), m, expired) && found == Found(old(State()), m, expired)
    {
      found := m in entries.items;
      if m in expired {
        if found {
          entries := entries.Remove(m);
          DropOne(old(entries), m, {m});
        }
        NothingDropped(entries, {m});
        found := false;
      }
    }

    // ---- registration ----

    method GiveUpCompleted() returns (made: bool)
      requires entries.Valid()
      modifies this`entries
      ensures entries.Valid() && Room(entries, made) == MakeRoom(old(entries), limit)
    {
      while |entries.keys| >= limit
        invariant entries.Valid() && MakeRoom(entries, limit) == MakeRoom(old(entries), limit)
        decreases |entries.keys|
      {
        var victim := FirstCompleted(entries, entries.keys);
        FirstCompletedIn(entries, entries.keys);
        RemoveCompleted(entries);
        if victim.None? {
          return false;
        }
        entries := entries.Remove(victim.value);
      }
      made := true;
    }

    /** The locked section of register. */
    method EnlistSession(m: string, card: Card, expired: set<string>) returns (result: RegisterResult)
      requires entries.Valid()
      modifies this`entries, this`nextRegistration
      ensures (State(), result) == Enlist(old(State()), m, card, expired)
    {
      if !Bounded(m) {
        return BadMessageId;
      }
      Prune(expired);
      if m in entries.items && entries.items[m].state != Completed {
        return AlreadyActive;
      }
      result := Admit(m, card);
    }

    /** Adds `m`, which is not in use, if room can be made. */
    method Admit(m: string, card: Card) returns (result: RegisterResult)
      requires entries.Valid()
      modifies this`entries, this`nextRegistration
      ensures var room := MakeRoom(old(entries).Remove(m), limit); var made := old(State()).(entries := room.entries);
        (State(), result) == if room.made then (Enrol(made, m, card), Registered) else (made, CapacityExhausted)
    {
      entries := entries.Remove(m);
      var made := GiveUpCompleted();
      if !made {
        return CapacityExhausted;
      }
      entries := entries.Put(m, Entry(card, Pending, None, None, 0, 0, nextRegistration));
      nextRegistration := nextRegistration + 1;
      result := Registered;
    }

    method RegisterSession(m: string, card: Card, env: Env) returns (result: RegisterResult)
      requires Inv(State())
      modifies this
      ensures Inv(State()) && (State(), result) == Register(old(State()), m, card, env)
    {
      EnlistInv(State(), m, card, env.expired);
      RegisterInv(State(), m, card, env);
      result := EnlistSession(m, card, env.expired);
      if result == Registered {
        var ok := PersistNow(env);
        result := if ok then Registered else NotSaved;
      }
    }

    method DiscardSession(m: string, env: Env)
      requires Inv(State())
      modifies this`entries, this`disk
      ensures Inv(State()) && State() == Discard(old(State()), m, env)
    {
      DiscardInv(State(), m, env);
      DropOne(entries, m, {m});
      entries := entries.Remove(m);
      NothingDropped(entries, {m});
      var _ := PersistNow(env);
    }

    // ---- claims ----

    /** Puts `taken` in the place of an entry and writes it, or puts the entry back. */
    method TakeEntry(m: string, taken: Entry, env: Env) returns (ok: bool)
      requires entries.Valid() && m in entries.items
      modifies this`entries, this`disk
      ensures ok == env.saved
      ensures State() == Take(old(State()), m, taken, env)
    {
      var previous := entries.items[m];
      entries := entries.Put(m, taken);
      ok := PersistNow(env);
      if !ok && m in entries.items {
        entries := entries.Put(m, previous);
      }
    }

    method ClaimForEvent(m: string, event: nat, env: Env) returns (result: ClaimResult)
      requires Inv(State())
      modifies this`entries, this`disk
      ensures Inv(State()) && (State(), result) == Claim(old(State()), m, event, env)
    {
      ClaimInv(State(), m, event, env);
      var found := Lookup(m, env.expired);
      if !found {
        return Missing;
      }
      result := ClaimEntry(m, event, env);
    }

    method ClaimEntry(m: string, event: nat, env: Env) returns (result: ClaimResult)
      requires entries.Valid() && m in entries.items
      modifies this`entries, this`disk
      ensures (State(), result) == ClaimFound(old(State()), m, event, env)
    {
      var entry := entries.items[m];
      if entry.state != Pending {
        var ok := PersistNow(env);
        return if ok then Duplicate(entry) else ClaimNotSaved;
      }
      var taken := entry.(state := Processing, claimedBy := Some(event));
      if taken.attemptOf != Some(event) {
        taken := taken.(attemptOf := Some(event), attempts := 0);
      }
      taken := taken.(attempts := taken.attempts + 1);
      var ok := TakeEntry(m, taken, env);
      result := if ok then Claimed(taken) else ClaimNotSaved;
    }

    method ClaimForEdit(m: string, route: Route, env: Env) returns (result: EditResult)
      requires Inv(State())
      modifies this`entries, this`disk
      ensures Inv(State()) && (State(), result) == ClaimEdit(old(State()), m, route, env)
    {
      ClaimEditInv(State(), m, route, env);
      var found := Lookup(m, env.expired);
      if !found {
        return NoEdit;
      }
      result := ClaimEntryForEdit(m, route, env);
    }

    method ClaimEntryForEdit(m: string, route: Route, env: Env) returns (result: EditResult)
      requires entries.Valid() && m in entries.items
      modifies this`entries, this`disk
      ensures (State(), result) == ClaimEditFound(old(State()), m, route, env)
    {
      var entry := entries.items[m];
      if entry.state != Pending || !entry.card.durable || entry.card.route != route {
        return NoEdit;
      }
      var cardSeq: int := entry.cardSeq + 1;
      var taken := entry.(cardSeq := cardSeq, state := Processing, claimedBy := Some(-cardSeq));
      assert taken == TakenByEdit(entry);
      var ok := TakeEntry(m, taken, env);
      result := if ok then Edit(entry.registration, cardSeq) else EditNotSaved;
    }

    /** The locked section of next_card_seq. */
    method TakeNumber(m: string, expired: set<string>) returns (number: Option<(nat, nat)>)
      requires entries.Valid()
      modifies this`entries
      ensures entries.Valid() && (State(), number) == Allocate(old(State()), m, expired)
    {
      var found := Lookup(m, expired);
      if !found {
        return None;
      }
      var entry := entries.items[m];
      var cardSeq := entry.cardSeq + 1;
      entries := entries.Put(m, entry.(cardSeq := cardSeq));
      number := Some((entry.registration, cardSeq));
    }

    method AllocateCardSeq(m: string, env: Env) returns (result: EditResult)
      requires Inv(State())
      modifies this`entries, this`disk
      ensures Inv(State()) && (State(), result) == NextCardSeq(old(State()), m, env)
    {
      NextCardSeqInv(State(), m, env);
      var number := TakeNumber(m, env.expired);
      if number.None? {
        return NoEdit;
      }
      var ok := PersistNow(env);
      result := if ok then Edit(number.value.0, number.value.1) else EditNotSaved;
    }

    /** The locked section of release. */
    method GiveBackClaim(m: string, holder: int, expired: set<string>)
      requires entries.Valid()
      modifies this`entries
      ensures entries.Valid() && State() == GiveBack(old(State()), m, holder, expired)
    {
      var found := Lookup(m, expired);
      if found && entries.items[m].state == Processing && entries.items[m].claimedBy == Some(holder) {
        entries := entries.Put(m, entries.items[m].(state := Pending, claimedBy := None));
      }
    }

    method ReleaseClaim(m: string, holder: int, env: Env) returns (ok: bool)
      requires Inv(State())
      modifies this`entries, this`disk
      ensures Inv(State()) && State() == Release(old(State()), m, holder, env) && ok == env.saved
    {
      ReleaseInv(State(), m, holder, env);
      GiveBackClaim(m, holder, env.expired);
      ok := PersistNow(env);
    }

    /** The locked section of complete. */
    method EndClaim(m: string, holder: int, expired: set<string>)
      requires entries.Valid()
      modifies this`entries
      ensures entries.Valid() && State() == EndCard(old(State()), m, holder, expired)
    {
      var found := Lookup(m, expired);
      if found && entries.items[m].state == Processing && entries.items[m].claimedBy == Some(holder) {
        entries := entries.Put(m, entries.items[m].(state := Completed));
      }
    }

    method CompleteClaim(m: string, holder: int, env: Env) returns (ok: bool)
      requires Inv(State())
      modifies this`entries, this`disk
      ensures Inv(State()) && State() == Complete(old(State()), m, holder, env) && ok == env.saved
    {
      CompleteInv(State(), m, holder, env);
      EndClaim(m, holder, env.expired);
      ok := PersistNow(env);
    }

    // ---- restart ----

    /** What a new process reads back into its empty registry. */
    method Restore(expired: set<string>)
      requires disk.Valid() && |disk.keys| <= limit && entries == Empty()
      modifies this`entries
      ensures State() == Restart(old(State()), expired)
    {
      var i := 0;
      while i < |disk.keys|
        invariant i <= |disk.keys| && RestoredTo(entries, disk, i, expired)
      {
        var m := disk.keys[i];
        RestoreStep(entries, disk, i, expired);
        if m !in expired {
          if |entries.keys| >= limit {
            assert false;
            break;
          }
          entries := entries.Put(m, Revived(disk.items[m]));
        }
        i := i + 1;
      }
      RestoredAll(entries, disk, expired);
    }
  }
}
