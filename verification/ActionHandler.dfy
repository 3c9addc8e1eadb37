/** handle_card_action of card_events.py, and its sections as a run of the system in CardActions.dfy. */
module ActionHandler {
  import opened Wrappers
  import opened CardSessions
  import opened CardRegistry
  import opened CardRuns
  import opened CardActions

  /**
   One handling of an action: whether it fits its card, how its dispatch ends, and the surroundings
   of the claim, of the end, and of the card numbers used to show the status before and after.
   */
  datatype Handling = Handling(matches: bool, outcome: Outcome, claiming: Env, before: Option<Env>,
                               ending: Env, after: Option<Env>)

  function OutcomeOf(h: Handling): Outcome {
    if h.matches then h.outcome else Mismatched
  }

  predicate ShowsBefore(o: Outcome) {
    o.Dispatched? || o.DispatchRaised? || o.Cancelled?
  }

  predicate ShowsAfter(o: Outcome, completes: bool) {
    o.NothingChosen? || o.Dispatched? || (o.DispatchRaised? && completes)
  }

  /** A status shown on the card takes a card number, saved or not. */
  function Shown(r: Registry, m: string, shows: bool, env: Option<Env>): Registry {
    if shows && env.Some? then NextCardSeq(r, m, env.value).0 else r
  }

  /** The end of a claimed action: its section, then its write, and the answer. */
  function End(r: Registry, job: Job, maxAttempts: nat, outcome: Outcome, env: Env): (Registry, Verdict) {
    var r' := if Completes(outcome, job, maxAttempts) then Complete(r, job.id, job.event, env)
              else Release(r, job.id, job.event, env);
    (r', VerdictOf(job, maxAttempts, outcome, env.saved))
  }

  function HandleAction(r: Registry, m: string, event: nat, maxAttempts: nat, h: Handling): (Registry, Verdict) {
    var (r1, a) := Claim(r, m, event, h.claiming);
    match a
    case Missing => (r1, Returned(Status.Missing))
    case ClaimNotSaved => (r1, Raised)
    case Duplicate(_) => (r1, Returned(if h.matches then Status.Duplicate else Ignored))
    case Claimed(e) => HandleClaimed(r1, Job(m, event, e.registration, e.attempts, None), maxAttempts, h)
  }

  function HandleClaimed(r: Registry, job: Job, maxAttempts: nat, h: Handling): (Registry, Verdict) {
    EndAndShow(Shown(r, job.id, ShowsBefore(OutcomeOf(h)), h.before), job, maxAttempts, h)
  }

  function EndAndShow(r: Registry, job: Job, maxAttempts: nat, h: Handling): (Registry, Verdict) {
    var o := OutcomeOf(h);
    var (r', v) := End(r, job, maxAttempts, o, h.ending);
    (Shown(r', job.id, h.ending.saved && ShowsAfter(o, Completes(o, job, maxAttempts)), h.after), v)
  }

  method ShowStatus(registry: CardSessionRegistry, m: string, env: Option<Env>)
    requires Inv(registry.State())
    modifies registry
    ensures Inv(registry.State()) && registry.State() == Shown(old(registry.State()), m, true, env)
  {
    if env.Some? {
      var _ := registry.AllocateCardSeq(m, env.value);
    }
  }

  method HandleCardAction(registry: CardSessionRegistry, m: string, event: nat, maxAttempts: nat, h: Handling)
      returns (v: Verdict)
    requires Inv(registry.State())
    modifies registry
    ensures Inv(registry.State()) && (registry.State(), v) == HandleAction(old(registry.State()), m, event, maxAttempts, h)
  {
    var claim := registry.ClaimForEvent(m, event, h.claiming);
    match claim {
      case Missing => return Returned(Status.Missing);
      case ClaimNotSaved => return Raised;
      case Duplicate(_) => return Returned(if h.matches then Status.Duplicate else Ignored);
      case Claimed(entry) => v := FinishClaimed(registry, Job(m, event, entry.registration, entry.attempts, None), maxAttempts, h);
    }
  }

  method FinishClaimed(registry: CardSessionRegistry, job: Job, maxAttempts: nat, h: Handling) returns (v: Verdict)
    requires Inv(registry.State())
    modifies registry
    ensures Inv(registry.State()) && (registry.State(), v) == HandleClaimed(old(registry.State()), job, maxAttempts, h)
  {
    var m, event := job.id, job.event;
    if !h.matches || h.outcome.Mismatched? {
      var ok := registry.ReleaseClaim(m, event, h.ending);
      return if ok then Returned(Ignored) else Raised;
    }
    if h.outcome.NothingChosen? {
      var ok := registry.ReleaseClaim(m, event, h.ending);
      if !ok {
        return Raised;
      }
      ShowStatus(registry, m, h.after);
      return Returned(Invalid);
    }
    ShowStatus(registry, m, h.before);
    v := FinishDispatched(registry, job, maxAttempts, h);
  }

  /** After the dispatch: completed, given up, or given back. */
  method FinishDispatched(registry: CardSessionRegistry, job: Job, maxAttempts: nat, h: Handling) returns (v: Verdict)
    requires Inv(registry.State()) && h.matches && ShowsBefore(h.outcome)
    modifies registry
    ensures Inv(registry.State()) && (registry.State(), v) == EndAndShow(old(registry.State()), job, maxAttempts, h)
  {
    var m, event := job.id, job.event;
    if h.outcome.Cancelled? {
      var _ := registry.ReleaseClaim(m, event, h.ending);
      return Raised;
    }
    if h.outcome.DispatchRaised? {
      if job.attempts < maxAttempts {
        var _ := registry.ReleaseClaim(m, event, h.ending);
        return Raised;
      }
      var ok := registry.CompleteClaim(m, event, h.ending);
      if ok {
        ShowStatus(registry, m, h.after);
      }
      return if ok then Returned(DeadLetter) else Raised;
    }
    var status, ok := h.outcome.status, false;
    if Terminal(status) {
      ok := registry.CompleteClaim(m, event, h.ending);
    } else {
      ok := registry.ReleaseClaim(m, event, h.ending);
    }
    if ok {
      ShowStatus(registry, m, h.after);
    }
    v := if !ok then Raised else Returned(if Terminal(status) then status else Ignored);
  }

  // ---- the handler as steps of the system ----

  function Showing(r: Registry, m: string, shows: bool, env: Option<Env>): seq<Step> {
    if !shows || env.None? then []
    else if Found(r, m, env.value.expired) then [Other(Numbering(m, env.value.expired)), Other(Persisting(env.value))]
    else [Other(Numbering(m, env.value.expired))]
  }

  ghost function Execute(s: System, steps: seq<Step>): System
    requires LegalRun(s, steps)
    decreases |steps|
  {
    if steps == [] then s else Execute(Advance(s, steps[0]), steps[1..])
  }

  lemma OneMore(s: System, step: Step, rest: seq<Step>)
    requires Legal(s, step) && LegalRun(Advance(s, step), rest)
    ensures LegalRun(s, [step] + rest) && Execute(s, [step] + rest) == Execute(Advance(s, step), rest)
  {
    assert ([step] + rest)[1..] == rest;
  }

  /** `steps` is a legal run from `s` to `t`. */
  ghost predicate Leads(s: System, steps: seq<Step>, t: System) {
    LegalRun(s, steps) && Execute(s, steps) == t
  }

  lemma {:induction false} LeadsOn(s: System, first: seq<Step>, t: System, second: seq<Step>, u: System)
    requires Leads(s, first, t) && Leads(t, second, u)
    ensures Leads(s, first + second, u)
    decreases |first|
  {
    if first == [] {
      assert first + second == second;
    } else {
      LeadsOn(Advance(s, first[0]), first[1..], t, second, u);
      assert (first + second)[1..] == first[1..] + second;
    }
  }

  lemma OneStep(s: System, step: Step)
    requires Legal(s, step)
    ensures Leads(s, [step], Advance(s, step))
  {
    OneMore(s, step, []);
    assert [step] == [step] + [];
  }

  lemma ShowingLeads(s: System, m: string, shows: bool, env: Option<Env>)
    ensures Leads(s, Showing(s.registry, m, shows, env), s.(registry := Shown(s.registry, m, shows, env)))
  {
    if shows && env.Some? {
      var numbering := Other(Numbering(m, env.value.expired));
      var t := Advance(s, numbering);
      OneStep(s, numbering);
      if Found(s.registry, m, env.value.expired) {
        OneStep(t, Other(Persisting(env.value)));
        LeadsOn(s, [numbering], t, [Other(Persisting(env.value))], Advance(t, Other(Persisting(env.value))));
        assert [numbering] + [Other(Persisting(env.value))] == Showing(s.registry, m, shows, env);
      }
    }
  }

  lemma EndLeads(s: System, outcome: Outcome, env: Env)
    requires Open(s.job)
    ensures Leads(s, [Finish(outcome, env.expired), Write(env)],
                  System(End(s.registry, s.job.value, s.maxAttempts, outcome, env).0, None, s.maxAttempts))
  {
    var finish := Finish(outcome, env.expired);
    var t := Advance(s, finish);
    OneStep(s, finish);
    OneStep(t, Write(env));
    LeadsOn(s, [finish], t, [Write(env)], Advance(t, Write(env)));
    assert [finish] + [Write(env)] == [finish, Write(env)];
  }

  /** What holds of every run of the system holds of the handler. */
  lemma HandlingIsARun(s: System, m: string, event: nat, h: Handling)
    requires s.job.None?
    ensures exists steps: seq<Step> ::
      Leads(s, steps, System(HandleAction(s.registry, m, event, s.maxAttempts, h).0, None, s.maxAttempts))
  {
    var begin := Begin(m, event, h.claiming);
    var s1 := Advance(s, begin);
    OneStep(s, begin);
    match Claim(s.registry, m, event, h.claiming).1
    case Claimed(e) =>
      var steps := ClaimedIsARun(s1, h);
      var t := System(HandleClaimed(s1.registry, s1.job.value, s.maxAttempts, h).0, None, s.maxAttempts);
      LeadsOn(s, [begin], s1, steps, t);
      assert t == System(HandleAction(s.registry, m, event, s.maxAttempts, h).0, None, s.maxAttempts);
    case _ =>
      assert s1 == System(HandleAction(s.registry, m, event, s.maxAttempts, h).0, None, s.maxAttempts);
  }

  lemma ClaimedIsARun(s: System, h: Handling) returns (steps: seq<Step>)
    requires Open(s.job)
    ensures Leads(s, steps, System(HandleClaimed(s.registry, s.job.value, s.maxAttempts, h).0, None, s.maxAttempts))
  {
    var o, job := OutcomeOf(h), s.job.value;
    var before := Showing(s.registry, job.id, ShowsBefore(o), h.before);
    var s1 := s.(registry := Shown(s.registry, job.id, ShowsBefore(o), h.before));
    var ending := [Finish(o, h.ending.expired), Write(h.ending)];
    var s2 := System(End(s1.registry, job, s.maxAttempts, o, h.ending).0, None, s.maxAttempts);
    var shows := h.ending.saved && ShowsAfter(o, Completes(o, job, s.maxAttempts));
    ShowingLeads(s, job.id, ShowsBefore(o), h.before);
    EndLeads(s1, o, h.ending);
    ShowingLeads(s2, job.id, shows, h.after);
    LeadsOn(s, before, s1, ending, s2);
    LeadsOn(s, before + ending, s2, Showing(s2.registry, job.id, shows, h.after), s2.(registry := Shown(s2.registry, job.id, shows, h.after)));
    steps := before + ending + Showing(s2.registry, job.id, shows, h.after);
  }
}
