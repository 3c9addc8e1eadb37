/** No progress turn goes unaccounted for: every one is there, was closed, or was dropped for a reason. */
module ProgressAccounts {
  import opened Wrappers
  import opened CardProgress
  import opened ProgressInvariant

  predicate Present(w: World, ident: nat)
    requires ident < |w.created|
  {
    w.created[ident] in w.states && w.states[w.created[ident]].ident == ident
  }

  ghost predicate HasDropped(log: seq<Note>, ident: nat) {
    exists note <- log :: note.Dropped? && note.ident == ident
  }

  ghost predicate Over(log: seq<Note>, ident: nat) {
    Closed(ident) in log || HasDropped(log, ident)
  }

  /** Every turn ever made is there, was closed, or was dropped for a reason. */
  ghost predicate Accounted(w: World) {
    forall ident :: 0 <= ident < |w.created| ==> Present(w, ident) || Over(w.log, ident)
  }

  /** From one world to the next turns go only with a note, and new ones are there. */
  ghost predicate Accounts(w: World, w': World) {
    && w.created <= w'.created && w.log <= w'.log
    && (forall k <- w.states :: (k in w'.states && w'.states[k].ident == w.states[k].ident) || Over(w'.log, w.states[k].ident))
    && forall ident :: |w.created| <= ident < |w'.created| ==> Present(w', ident)
  }

  lemma AccountsKeeps(w: World, w': World)
    requires Accounted(w) && Accounts(w, w')
    ensures Accounted(w')
  {
    forall ident | 0 <= ident < |w'.created| ensures Present(w', ident) || Over(w'.log, ident) {
      if ident < |w.created| && !Present(w, ident) {
        OverStays(w.log, w'.log, ident);
      }
    }
  }

  lemma OverStays(a: seq<Note>, b: seq<Note>, ident: nat)
    requires a <= b && Over(a, ident)
    ensures Over(b, ident)
  {
    if Closed(ident) !in a {
      var note :| note in a && note.Dropped? && note.ident == ident;
      assert note in b;
    }
  }

  lemma DropAccounts(w: World, k: Key, why: Reason)
    ensures Accounts(w, Drop(w, k, why))
  {
    if k in w.states {
      assert Dropped(w.states[k].ident, why) in Drop(w, k, why).log;
    }
  }

  lemma ScheduleAccounts(w: World, k: Key, accepts: bool)
    ensures Accounts(w, Schedule(w, k, accepts))
  {
    DropAccounts(w, k, Blank);
    DropAccounts(w, k, Unschedulable);
  }

  ghost predicate NewOnesStay(a: World, b: World, c: World) {
    forall ident | |a.created| <= ident < |b.created| ::
      b.created[ident] in c.states && c.states[b.created[ident]].ident == ident
  }

  lemma AccountsOn(a: World, b: World, c: World)
    requires Accounts(a, b) && Accounts(b, c)
    requires NewOnesStay(a, b, c)
    ensures Accounts(a, c)
  {
    forall k | k in a.states ensures (k in c.states && c.states[k].ident == a.states[k].ident) || Over(c.log, a.states[k].ident) {
      if !(k in b.states && b.states[k].ident == a.states[k].ident) {
        OverStays(b.log, c.log, a.states[k].ident);
      }
    }
  }

  lemma AddAccounts(w: World, k: Key, t: Turn)
    requires k !in w.states && t.ident == |w.created|
    ensures Accounts(w, AddTurn(w, k, t))
  {
  }

  lemma SetAccounts(w: World, k: Key, t: Turn)
    requires k in w.states && t.ident == w.states[k].ident
    ensures Accounts(w, SetTurn(w, k, t))
  {
  }

  lemma HookAccounts(w: World, k: Key, h: Hook, accepts: bool)
    requires k in w.states
    ensures Accounts(w, OnTurn(w, k, h, accepts))
  {
    match Hooked(w.states[k], h)
    case None =>
    case Some(t) =>
      SetAccounts(w, k, t);
      if Asks(h) {
        ScheduleAccounts(SetTurn(w, k, t), k, accepts);
        AccountsOn(w, SetTurn(w, k, t), Schedule(SetTurn(w, k, t), k, accepts));
      }
  }

  lemma RollAccounts(w: World, k: Key, accepts: bool)
    requires LastIsLive(w.states) && Live(w.states, k)
    ensures Accounts(w, RolloverAt(w, k, accepts))
  {
    var t, nk := w.states[k], NextSegment(k);
    NextSegmentIsNew(w, k);
    if HasRealTool(t.tools) || t.messageId.Some? {
      var w1 := AddTurn(w, nk, NewTurn(|w.created|, t.adapter, t.chat, t.requester, t.configured));
      AddAccounts(w, nk, w1.states[nk]);
      if t.messageId.None? && !t.sendStarted {
        DropAccounts(w1, k, RolledAway);
        AccountsOn(w, w1, Drop(w1, k, RolledAway));
      } else {
        var w2 := SetTurn(w1, k, Ended(t, Stopped, Broken));
        SetAccounts(w1, k, Ended(t, Stopped, Broken));
        AccountsOn(w, w1, w2);
        ScheduleAccounts(w2, k, accepts);
        AccountsOn(w, w2, Schedule(w2, k, accepts));
      }
    }
  }

  lemma CommitAccounts(w: World, d: nat, s: Snap, sentAs: Option<string>)
    requires d in w.drains
    ensures Accounts(w, Commit(w, d, s, sentAs))
  {
    var k := w.drains[d].key;
    if StillThere(w, k, s) {
      var t := Delivered(w.states[k], s, sentAs);
      if t.revision == s.frame.revision && t.final {
        assert Closed(t.ident) in Commit(w, d, s, sentAs).log;
      }
    }
  }

  lemma FailAccounts(w: World, d: nat, why: Reason)
    requires d in w.drains
    ensures Accounts(w, EndDrain(Drop(w, w.drains[d].key, why), d))
  {
    DropAccounts(w, w.drains[d].key, why);
  }

  lemma ConfigureAccounts(w: World, d: nat, s: Snap, luck: Luck)
    requires d in w.drains
    ensures Accounts(w, Configure(w, d, s, luck))
  {
    FailAccounts(w, d, DeliveryFailed);
  }

  lemma SendAccounts(w: World, d: nat, s: Snap, luck: Luck)
    requires d in w.drains
    ensures Accounts(w, Send(w, d, s, luck)) && Accounts(w, StartSend(w, d, s))
  {
    FailAccounts(w, d, DeliveryFailed);
  }

  lemma EditAccounts(w: World, d: nat, s: Snap, luck: Luck)
    requires d in w.drains
    ensures Accounts(w, SendEdit(w, d, s, luck))
  {
    FailAccounts(w, d, DeliveryFailed);
  }

  lemma DrainAccounts(w: World, d: nat, luck: Luck)
    requires Inv(w) && d in w.drains
    ensures Accounts(w, DrainStep(w, d, luck))
  {
    match w.drains[d].place
    case Top => FailAccounts(w, d, Offline);
    case Snapped(s) =>
      NeverEmpty(w, d);
      ConfigureAccounts(w, d, s, luck);
      SendAccounts(w, d, s, luck);
      EditAccounts(w, d, s, luck);
    case Sending(s) => SendAccounts(w, d, s, luck);
    case Shown(s, sentAs) => CommitAccounts(w, d, s, sentAs);
  }

  lemma NextAccounts(w: World, ev: Event)
    requires Inv(w) && Legal(w, ev)
    ensures Accounts(w, Next(w, ev))
  {
    match ev
    case Starting(k, adapter, chat, requester) => AddAccounts(w, k, NewTurn(|w.created|, adapter, chat, requester, false));
    case Hooking(_, _, k, hook, accepts) => HookAccounts(w, k, hook, accepts);
    case Rolling(_, _, k, accepts) => RollAccounts(w, k, accepts);
    case Cancelling(k) => DropAccounts(w, k, Cancelled);
    case Draining(d, luck) => DrainAccounts(w, d, luck);
  }
}
