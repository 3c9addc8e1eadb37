/** Handling one card action at a time, beside everything else that uses the card registry. */
module CardActions {
  import opened Wrappers
  import opened CardSessions
  import opened CardInvariant
  import opened CardRuns

  datatype Status =
    | Accepted | AwaitingText | Expired | Failed | DeadLetter | Invalid | Duplicate
    | Ignored | Missing | Unsupported

  /** The statuses after which a card is over. */
  predicate Terminal(s: Status) {
    s == Accepted || s == AwaitingText || s == Expired || s == Failed
  }

  /** What happens between the claim of an action and its end. */
  datatype Outcome =
    | Mismatched
    | NothingChosen
    | Dispatched(status: Status)
    | DispatchRaised
    | Cancelled

  datatype Verdict = Returned(status: Status) | Raised

  /** A claimed action, until its end is written; `ended` once its card was completed or given back in memory. */
  datatype Job = Job(id: string, event: nat, registration: nat, attempts: nat, ended: Option<Outcome>)

  datatype System = System(registry: Registry, job: Option<Job>, maxAttempts: nat)

  /**
   Begin claims, Finish completes or releases in memory, Write persists that; everything else is
   done by other tasks, at any time, or is a crash.
   */
  datatype Step =
    | Begin(id: string, event: nat, env: Env)
    | Finish(outcome: Outcome, expired: set<string>)
    | Write(saving: Env)
    | Other(ev: Event)
    | Crash(lost: set<string>)

  /** Completes the card, rather than giving it back. */
  predicate Completes(outcome: Outcome, job: Job, maxAttempts: nat) {
    match outcome
    case Dispatched(s) => Terminal(s)
    case DispatchRaised => job.attempts >= maxAttempts
    case _ => false
  }

  /** The section that ends a job in memory. */
  function EndEvent(job: Job, maxAttempts: nat, outcome: Outcome, expired: set<string>): Event {
    if Completes(outcome, job, maxAttempts) then Completing(job.id, job.event, expired)
    else Releasing(job.id, job.event, expired)
  }

  /** What the handler answers once the end of its job has been written, or not. */
  function VerdictOf(job: Job, maxAttempts: nat, outcome: Outcome, saved: bool): Verdict {
    if saved then Answer(outcome, Completes(outcome, job, maxAttempts)) else Raised
  }

  function Answer(outcome: Outcome, completes: bool): Verdict {
    match outcome
    case Mismatched => Returned(Ignored)
    case NothingChosen => Returned(Invalid)
    case Dispatched(s) => Returned(if completes then s else Ignored)
    case DispatchRaised => if completes then Returned(DeadLetter) else Raised
    case Cancelled => Raised
  }

  /** Other tasks register, discard, number, edit and persist; they give back only what an edit holds. */
  predicate OthersMay(ev: Event) {
    match ev
    case Claiming(_, _, _) => false
    case Restarting(_) => false
    case Releasing(_, h, _) => h < 0
    case Completing(_, h, _) => h < 0
    case _ => true
  }

  predicate Legal(s: System, step: Step) {
    match step
    case Begin(_, _, _) => s.job.None?
    case Finish(_, _) => s.job.Some? && s.job.value.ended.None?
    case Write(_) => s.job.Some? && s.job.value.ended.Some?
    case Other(ev) => OthersMay(ev)
    case Crash(_) => true
  }

  function Started(m: string, event: nat, a: ClaimResult): Option<Job> {
    match a
    case Claimed(e) => Some(Job(m, event, e.registration, e.attempts, None))
    case _ => None
  }

  /** The section a step performs on the registry. */
  function EventOf(s: System, step: Step): Event
    requires Legal(s, step)
  {
    match step
    case Begin(m, event, env) => Claiming(m, event, env)
    case Finish(outcome, expired) => EndEvent(s.job.value, s.maxAttempts, outcome, expired)
    case Write(env) => Persisting(env)
    case Other(ev) => ev
    case Crash(lost) => Restarting(lost)
  }

  function JobAfter(s: System, step: Step): Option<Job>
    requires Legal(s, step)
  {
    match step
    case Begin(m, event, env) => Started(m, event, Claim(s.registry, m, event, env).1)
    case Finish(outcome, _) => Some(s.job.value.(ended := Some(outcome)))
    case Write(_) => None
    case Other(_) => s.job
    case Crash(_) => None
  }

  function Advance(s: System, step: Step): System
    requires Legal(s, step)
  {
    System(Next(s.registry, EventOf(s, step)), JobAfter(s, step), s.maxAttempts)
  }

  // ---- who holds what ----

  predicate Open(job: Option<Job>) {
    job.Some? && job.value.ended.None?
  }

  /**
   Events hold a card through the one open job there is, and its card is held or gone; the card of a
   job that ended for good is over.
   */
  ghost predicate HeldByJob(s: System) {
    && (forall m <- s.registry.entries.items :: EventHeld(s.registry.entries.items[m]) ==> IsJobs(s.job, s.registry.entries.items[m]))
    && (Open(s.job) ==>
          && s.job.value.registration < s.registry.nextRegistration
          && forall m <- s.registry.entries.items :: s.registry.entries.items[m].registration == s.job.value.registration ==>
               m == s.job.value.id && EventHeld(s.registry.entries.items[m]))
    && (s.job.Some? && EndedForGood(s.job.value, s.maxAttempts) ==> Ended(s.registry, s.job.value.registration))
  }

  predicate EndedForGood(job: Job, maxAttempts: nat) {
    job.ended.Some? && Completes(job.ended.value, job, maxAttempts)
  }

  predicate EventHeld(e: Entry) {
    e.state == Processing && e.claimedBy.Some? && e.claimedBy.value >= 0
  }

  /** Held by the open job, in its present attempt. */
  predicate IsJobs(job: Option<Job>, e: Entry) {
    && Open(job) && e.registration == job.value.registration && e.claimedBy == Some(job.value.event)
    && e.attemptOf == Some(job.value.event) && e.attempts == job.value.attempts
  }

  ghost predicate Consistent(s: System) {
    Inv(s.registry) && HeldByJob(s)
  }

  lemma BeginKeeps(s: System, m: string, event: nat, env: Env)
    requires Consistent(s) && s.job.None?
    ensures Consistent(Advance(s, Begin(m, event, env)))
  {
    var ev, s' := Claiming(m, event, env), Advance(s, Begin(m, event, env));
    NextInv(s.registry, ev);
    forall x | x in s'.registry.entries.items && EventHeld(s'.registry.entries.items[x])
      ensures IsJobs(s'.job, s'.registry.entries.items[x])
    {
      Origin(s.registry, ev, x);
      assert x == m && Claim(s.registry, m, event, env).1.Claimed?;
    }
    if s'.job.Some? {
      forall x | x in s'.registry.entries.items && s'.registry.entries.items[x].registration == s'.job.value.registration
        ensures x == m && EventHeld(s'.registry.entries.items[x])
      {
        Origin(s.registry, ev, x);
      }
    }
  }

  lemma FinishKeeps(s: System, outcome: Outcome, expired: set<string>)
    requires Consistent(s) && Open(s.job)
    ensures Consistent(Advance(s, Finish(outcome, expired)))
  {
    var s' := Advance(s, Finish(outcome, expired));
    var ev := EventOf(s, Finish(outcome, expired));
    NextInv(s.registry, ev);
    forall x | x in s'.registry.entries.items ensures !EventHeld(s'.registry.entries.items[x]) {
      JobEnds(s, ev, x);
    }
    if ev.Completing? {
      forall x | x in s'.registry.entries.items && s'.registry.entries.items[x].registration == s.job.value.registration
        ensures IsCompleted(s'.registry.entries.items[x])
      {
        JobEnds(s, ev, x);
      }
    }
  }

  /** The job's end reaches its card unless the card is gone. */
  lemma JobEnds(s: System, ev: Event, x: string)
    requires Consistent(s) && Open(s.job) && GivesBack(ev, s.job.value.id, s.job.value.event)
    requires x in Next(s.registry, ev).entries.items
    ensures !EventHeld(Next(s.registry, ev).entries.items[x])
    ensures Next(s.registry, ev).entries.items[x].registration == s.job.value.registration && ev.Completing? ==>
      Next(s.registry, ev).entries.items[x].state == Completed
  {
    Origin(s.registry, ev, x);
    var a := s.registry.entries.items[x];
    if EventHeld(a) || a.registration == s.job.value.registration {
      assert x == s.job.value.id && EventHeld(a) && IsJobs(s.job, a);
      assert Holds(s.registry, x, s.job.value.event, ev.expired);
    }
  }

  /** Nothing that other tasks do, and no write, touches what an event holds. */
  lemma OtherKeeps(s: System, ev: Event)
    requires Consistent(s) && OthersMay(ev)
    ensures Consistent(s.(registry := Next(s.registry, ev)))
  {
    var s' := s.(registry := Next(s.registry, ev));
    NextInv(s.registry, ev);
    RegistrationsGrow(s.registry, ev);
    forall x | x in s'.registry.entries.items
      ensures var b := s'.registry.entries.items[x];
        && (EventHeld(b) ==> IsJobs(s.job, b))
        && (Open(s.job) && b.registration == s.job.value.registration ==> x == s.job.value.id && EventHeld(b))
    {
      Origin(s.registry, ev, x);
    }
    if s.job.Some? && EndedForGood(s.job.value, s.maxAttempts) {
      EndedStays(s.registry, ev, s.job.value.registration);
    }
  }

  lemma StepKeepsConsistent(s: System, step: Step)
    requires Consistent(s) && Legal(s, step)
    ensures Consistent(Advance(s, step))
  {
    match step
    case Begin(m, event, env) => BeginKeeps(s, m, event, env);
    case Finish(outcome, expired) => FinishKeeps(s, outcome, expired);
    case Write(env) => OtherKeeps(s, Persisting(env));
    case Other(ev) => OtherKeeps(s, ev);
    case Crash(lost) => RestartInv(s.registry, lost);
  }

  // ---- what the answers mean ----

  /**
   An action answered as a duplicate met a card that is over, durably, or one that an edit is
   working on; another action never gets in its way.
   */
  lemma DuplicateMeans(s: System, m: string, event: nat, env: Env, e: Entry)
    requires Consistent(s) && s.job.None? && Claim(s.registry, m, event, env).1 == ClaimResult.Duplicate(e)
    ensures Settled(Claim(s.registry, m, event, env).0, e.registration)
      || HeldByEdit(e)
  {
    DuplicateIsDurable(s.registry, m, event, env, e);
    assert WellHeld(e);
  }

  predicate HeldByEdit(e: Entry) {
    e.state == Processing && e.claimedBy.Some? && e.claimedBy.value < 0
  }

  /** A card that is there answers duplicate if and only if it is over or an edit is working on it. */
  lemma DuplicateIff(s: System, m: string, event: nat, env: Env)
    requires Consistent(s) && s.job.None? && env.saved && Found(s.registry, m, env.expired)
    ensures var e := s.registry.entries.items[m];
      && (Claim(s.registry, m, event, env).1.Duplicate? <==> e.state == Completed || HeldByEdit(e))
      && (e.state == Completed ==> Settled(Claim(s.registry, m, event, env).0, e.registration))
  {
    var e := s.registry.entries.items[m];
    assert WellHeld(e) && !EventHeld(e);
    if e.state == Completed {
      DuplicateIsDurable(s.registry, m, event, env, e);
    }
  }

  /**
   A job that ends its card for good leaves it over in this process; when the write after it
   succeeds, whatever came in between, the card is settled for good.
   */
  lemma TerminalIsDurable(s: System, env: Env)
    requires Consistent(s) && s.job.Some? && EndedForGood(s.job.value, s.maxAttempts)
    ensures Ended(Advance(s, Write(env)).registry, s.job.value.registration)
    ensures env.saved ==> Settled(Advance(s, Write(env)).registry, s.job.value.registration)
  {
    EndedStays(s.registry, Persisting(env), s.job.value.registration);
    var r' := Advance(s, Write(env)).registry;
    assert env.saved ==> r'.disk == DurablePart(r'.entries);
  }

  // ---- runs ----

  ghost predicate LegalRun(s: System, steps: seq<Step>)
    decreases |steps|
  {
    steps == [] || (Legal(s, steps[0]) && LegalRun(Advance(s, steps[0]), steps[1..]))
  }

  predicate NoCrash(steps: seq<Step>) {
    forall i :: 0 <= i < |steps| ==> !steps[i].Crash?
  }

  /** How often a run ends a job of card `k` for good: by an accepted dispatch or as a dead letter. */
  ghost function Endings(s: System, steps: seq<Step>, k: nat): nat
    requires LegalRun(s, steps)
    decreases |steps|
  {
    if steps == [] then 0 else
    (if EndsCard(s, steps[0], k) then 1 else 0) + Endings(Advance(s, steps[0]), steps[1..], k)
  }

  predicate EndsCard(s: System, step: Step, k: nat) {
    step.Finish? && s.job.Some? && s.job.value.registration == k && Completes(step.outcome, s.job.value, s.maxAttempts)
  }

  /** Card `k` is over in this process, and no open job works on it. */
  ghost predicate Over(s: System, k: nat) {
    Ended(s.registry, k) && (Open(s.job) ==> s.job.value.registration != k)
  }

  lemma OverStays(s: System, step: Step, k: nat)
    requires Consistent(s) && Over(s, k) && Legal(s, step)
    requires step.Crash? ==> Settled(s.registry, k)
    ensures Over(Advance(s, step), k) && (Settled(s.registry, k) ==> Settled(Advance(s, step).registry, k))
  {
    var ev := EventOf(s, step);
    EndedStays(s.registry, ev, k);
    if Settled(s.registry, k) {
      SettledStays(s.registry, ev, k);
    }
  }

  lemma {:induction false} OverMeansNoEnding(s: System, steps: seq<Step>, k: nat)
    requires Consistent(s) && LegalRun(s, steps) && Over(s, k) && (NoCrash(steps) || Settled(s.registry, k))
    ensures Endings(s, steps, k) == 0
    decreases |steps|
  {
    if steps != [] {
      StepKeepsConsistent(s, steps[0]);
      OverStays(s, steps[0], k);
      assert NoCrash(steps) ==> !steps[0].Crash? && NoCrash(steps[1..]);
      OverMeansNoEnding(Advance(s, steps[0]), steps[1..], k);
    }
  }

  /** Without a crash a card's action is accepted, or given up, at most once, even if that is never written. */
  lemma {:induction false} AcceptedAtMostOnce(s: System, steps: seq<Step>, k: nat)
    requires Consistent(s) && LegalRun(s, steps) && NoCrash(steps)
    ensures Endings(s, steps, k) <= 1
    decreases |steps|
  {
    if steps != [] {
      var s' := Advance(s, steps[0]);
      StepKeepsConsistent(s, steps[0]);
      assert NoCrash(steps[1..]);
      if EndsCard(s, steps[0], k) {
        OverMeansNoEnding(s', steps[1..], k);
      } else {
        AcceptedAtMostOnce(s', steps[1..], k);
      }
    }
  }

  /** After an ending that was written, no later run ends the card again, whatever crashes happen. */
  lemma WrittenEndingIsTheLast(s: System, env: Env, steps: seq<Step>)
    requires Consistent(s) && s.job.Some? && EndedForGood(s.job.value, s.maxAttempts) && env.saved
    requires LegalRun(Advance(s, Write(env)), steps)
    ensures Endings(Advance(s, Write(env)), steps, s.job.value.registration) == 0
  {
    StepKeepsConsistent(s, Write(env));
    TerminalIsDurable(s, env);
    OverMeansNoEnding(Advance(s, Write(env)), steps, s.job.value.registration);
  }
}
