/** An action whose dispatch keeps failing does not hold up the ones behind it for ever. */
module PoisonEvents {
  import opened Wrappers
  import opened CardSessions
  import opened CardRuns
  import opened CardActions

  datatype Action = Action(id: string, event: nat)

  /** The actions the server still has to offer, in order, and the handler they meet. */
  datatype Queue = Queue(system: System, waiting: seq<Action>)

  /**
   Storage works and nothing is cancelled.  Each action may mismatch, fail, be refused or accepted,
   each time it is tried; other tasks may do anything at any time, even between the claim of an
   action and its end, but register no new card under the message id of a waiting action.
   */
  predicate Possible(q: Queue, step: Step) {
    Legal(q.system, step) &&
    match step
    case Begin(m, event, env) => q.waiting != [] && q.waiting[0] == Action(m, event) && env.saved
    case Finish(outcome, _) => outcome != Cancelled
    case Write(env) => env.saved
    case Other(ev) => ev.Registering? ==> forall a <- q.waiting :: a.id != ev.id
    case Crash(_) => false
  }

  /** The handler has returned: at once, when there was nothing to claim, or with the end of its job. */
  predicate Returns(s: System, step: Step)
    requires Legal(s, step)
  {
    match step
    case Begin(m, event, env) => !Claim(s.registry, m, event, env).1.Claimed?
    case Write(env) => VerdictOf(s.job.value, s.maxAttempts, s.job.value.ended.value, env.saved).Returned?
    case _ => false
  }

  /** The cursor passes the first action when the handler returns, and stays when it raises. */
  function After(q: Queue, step: Step): Queue
    requires Possible(q, step)
  {
    Queue(Advance(q.system, step), if Returns(q.system, step) && q.waiting != [] then q.waiting[1..] else q.waiting)
  }

  // ---- the measure ----

  /** How many attempts an action has left, counting the one that gives it up. */
  function Left(r: Registry, a: Action, maxAttempts: nat): nat {
    if a.id !in r.entries.items then 1 else
    var e := r.entries.items[a.id];
    if e.attemptOf != Some(a.event) then maxAttempts
    else if e.attempts < maxAttempts then maxAttempts - e.attempts else 1
  }

  /** How many more there may be after the one that is being made. */
  function LeftAfter(job: Job, maxAttempts: nat): nat {
    if job.attempts < maxAttempts then maxAttempts - job.attempts else 0
  }

  function LeftNow(q: Queue): nat
    requires q.waiting != []
  {
    match q.system.job
    case None => Left(q.system.registry, q.waiting[0], q.system.maxAttempts)
    case Some(job) => LeftAfter(job, q.system.maxAttempts)
  }

  function Potential(q: Queue): nat {
    if q.waiting == [] then 0 else (|q.waiting| - 1) * q.system.maxAttempts + LeftNow(q)
  }

  /** The job is that of the first action, and its card counts its attempts. */
  ghost predicate Serving(q: Queue) {
    q.system.job.Some? ==>
      && q.waiting != [] && q.waiting[0] == Action(q.system.job.value.id, q.system.job.value.event)
      && Counts(q.system.registry, q.system.job.value) && q.system.job.value.ended != Some(Cancelled)
  }

  predicate Counts(r: Registry, job: Job) {
    job.id in r.entries.items ==>
      r.entries.items[job.id].attemptOf == Some(job.event) && r.entries.items[job.id].attempts == job.attempts
  }

  ghost predicate Tidy(q: Queue) {
    Consistent(q.system) && q.system.maxAttempts > 0 && Serving(q)
  }

  lemma LeftBounded(r: Registry, a: Action, maxAttempts: nat)
    requires maxAttempts > 0
    ensures 1 <= Left(r, a, maxAttempts) <= maxAttempts
  {
  }

  lemma LeftNowBounded(q: Queue)
    requires q.waiting != [] && q.system.maxAttempts > 0
    ensures LeftNow(q) <= q.system.maxAttempts
  {
  }

  /** Nothing but a claim changes what a card counts. */
  lemma CountsStay(r: Registry, ev: Event, id: string)
    requires Inv(r) && !ev.Claiming? && !ev.Restarting? && (ev.Registering? ==> ev.id != id)
    ensures id in Next(r, ev).entries.items ==>
      && id in r.entries.items && Next(r, ev).entries.items[id].attemptOf == r.entries.items[id].attemptOf
      && Next(r, ev).entries.items[id].attempts == r.entries.items[id].attempts
  {
    if id in Next(r, ev).entries.items {
      Origin(r, ev, id);
    }
  }

  lemma TakenCounts(r: Registry, a: Action, env: Env, maxAttempts: nat)
    requires Inv(r) && maxAttempts > 0 && Claim(r, a.id, a.event, env).1.Claimed?
    ensures var (r', c) := Claim(r, a.id, a.event, env);
      var job := Started(a.id, a.event, c).value;
      Counts(r', job) && LeftAfter(job, maxAttempts) < Left(r, a, maxAttempts)
  {
  }

  lemma StepKeepsTidy(q: Queue, step: Step)
    requires Tidy(q) && Possible(q, step)
    ensures Tidy(After(q, step))
  {
    StepKeepsConsistent(q.system, step);
    var r := q.system.registry;
    if step.Begin? {
      if Claim(r, step.id, step.event, step.env).1.Claimed? {
        TakenCounts(r, q.waiting[0], step.env, q.system.maxAttempts);
      }
    } else if q.system.job.Some? {
      CountsStay(r, EventOf(q.system, step), q.system.job.value.id);
    }
  }

  lemma OneMoreTimes(k: nat, n: nat)
    ensures (k + 1) * n == k * n + n
  {
  }

  lemma Passing(q: Queue, q': Queue)
    requires q.system.maxAttempts > 0 && q.waiting != [] && q'.system.maxAttempts == q.system.maxAttempts
    requires q'.waiting == q.waiting[1..]
    ensures Potential(q') + LeftNow(q) <= Potential(q)
  {
    if q'.waiting != [] {
      LeftNowBounded(q');
      OneMoreTimes(|q.waiting| - 2, q.system.maxAttempts);
    }
  }

  lemma Staying(q: Queue, q': Queue, used: nat)
    requires q'.waiting == q.waiting && q'.system.maxAttempts == q.system.maxAttempts
    requires q.waiting != [] ==> LeftNow(q') + used <= LeftNow(q)
    requires q.waiting == [] ==> used == 0
    ensures Potential(q') + used <= Potential(q)
  {
  }

  /** An attempt uses up at least one of the attempts left. */
  lemma BeginFalls(q: Queue, step: Step)
    requires Tidy(q) && Possible(q, step) && step.Begin?
    ensures Potential(After(q, step)) < Potential(q)
    ensures After(q, step).waiting == q.waiting ==> LeftNow(After(q, step)) < LeftNow(q)
  {
    var a, r, n := q.waiting[0], q.system.registry, q.system.maxAttempts;
    LeftBounded(r, a, n);
    if Returns(q.system, step) {
      Passing(q, After(q, step));
    } else {
      TakenCounts(r, a, step.env, n);
      Staying(q, After(q, step), 1);
    }
  }

  /** An attempt whose end was written without an answer leaves what was left after it. */
  lemma WriteLeaves(q: Queue, env: Env)
    requires Tidy(q) && Possible(q, Write(env)) && !Returns(q.system, Write(env))
    ensures LeftNow(After(q, Write(env))) <= LeftNow(q)
  {
    var job := q.system.job.value;
    assert job.attempts < q.system.maxAttempts;
    CountsStay(q.system.registry, Persisting(env), job.id);
  }

  lemma OthersLeave(q: Queue, step: Step)
    requires Tidy(q) && Possible(q, step) && !step.Begin? && !step.Write? && q.waiting != []
    ensures LeftNow(After(q, step)) <= LeftNow(q)
  {
    CountsStay(q.system.registry, EventOf(q.system, step), q.waiting[0].id);
  }

  /** Giving up, giving back, and whatever others do, use up nothing, and nothing gives attempts back. */
  lemma OthersDoNotRaise(q: Queue, step: Step)
    requires Tidy(q) && Possible(q, step) && !step.Begin?
    ensures Potential(After(q, step)) <= Potential(q)
    ensures After(q, step).waiting == q.waiting != [] ==> LeftNow(After(q, step)) <= LeftNow(q)
  {
    if Returns(q.system, step) {
      Passing(q, After(q, step));
    } else if q.waiting != [] {
      if step.Write? {
        WriteLeaves(q, step.saving);
      } else {
        OthersLeave(q, step);
      }
      Staying(q, After(q, step), 0);
    }
  }

  /** Every attempt lowers the potential; nothing in between raises it. */
  lemma PotentialFalls(q: Queue, step: Step)
    requires Tidy(q) && Possible(q, step)
    ensures Potential(After(q, step)) + (if step.Begin? then 1 else 0) <= Potential(q)
  {
    if step.Begin? {
      BeginFalls(q, step);
    } else {
      OthersDoNotRaise(q, step);
    }
  }

  // ---- runs ----

  ghost predicate PossibleRun(q: Queue, steps: seq<Step>)
    decreases |steps|
  {
    steps == [] || (Possible(q, steps[0]) && PossibleRun(After(q, steps[0]), steps[1..]))
  }

  ghost function Run(q: Queue, steps: seq<Step>): Queue
    requires PossibleRun(q, steps)
    decreases |steps|
  {
    if steps == [] then q else Run(After(q, steps[0]), steps[1..])
  }

  function Attempts(steps: seq<Step>): nat {
    if steps == [] then 0 else (if steps[0].Begin? then 1 else 0) + Attempts(steps[1..])
  }

  /** However often actions fail, a run makes at most so many attempts. */
  lemma {:induction false} AttemptsAreBounded(q: Queue, steps: seq<Step>)
    requires Tidy(q) && PossibleRun(q, steps)
    ensures Tidy(Run(q, steps)) && Attempts(steps) + Potential(Run(q, steps)) <= Potential(q) <= |q.waiting| * q.system.maxAttempts
    decreases |steps|
  {
    PotentialBounded(q);
    if steps != [] {
      PotentialFalls(q, steps[0]);
      StepKeepsTidy(q, steps[0]);
      AttemptsAreBounded(After(q, steps[0]), steps[1..]);
    }
  }

  lemma PotentialBounded(q: Queue)
    requires q.system.maxAttempts > 0
    ensures Potential(q) <= |q.waiting| * q.system.maxAttempts
  {
    if q.waiting != [] {
      LeftNowBounded(q);
      OneMoreTimes(|q.waiting| - 1, q.system.maxAttempts);
    }
  }

  /**
   With n actions waiting, whatever becomes of each attempt: after n times max attempts, once the
   last of them has ended, every action has been passed.
   */
  lemma PoisonIsPassed(q: Queue, steps: seq<Step>)
    requires Tidy(q) && PossibleRun(q, steps)
    ensures Attempts(steps) <= |q.waiting| * q.system.maxAttempts
    ensures Attempts(steps) == |q.waiting| * q.system.maxAttempts && Run(q, steps).system.job.None? ==> Run(q, steps).waiting == []
  {
    AttemptsAreBounded(q, steps);
    PotentialPositive(Run(q, steps));
  }

  lemma PotentialPositive(q: Queue)
    requires q.system.maxAttempts > 0
    ensures q.system.job.None? && q.waiting != [] ==> Potential(q) > 0
  {
    if q.system.job.None? && q.waiting != [] {
      LeftBounded(q.system.registry, q.waiting[0], q.system.maxAttempts);
    }
  }

  // ---- one action ----

  /** How often a run claims the action with this event number; it is dispatched at most once a claim. */
  ghost function Claims(q: Queue, steps: seq<Step>, event: nat): nat
    requires PossibleRun(q, steps)
    decreases |steps|
  {
    if steps == [] then 0 else
    (if ClaimsNow(q, steps[0], event) then 1 else 0) + Claims(After(q, steps[0]), steps[1..], event)
  }

  predicate ClaimsNow(q: Queue, step: Step, event: nat)
    requires Possible(q, step)
  {
    step.Begin? && step.event == event && !Returns(q.system, step)
  }

  predicate Ascending(waiting: seq<Action>) {
    forall i, j :: 0 <= i < j < |waiting| ==> waiting[i].event < waiting[j].event
  }

  ghost predicate Waits(q: Queue, event: nat) {
    exists i :: 0 <= i < |q.waiting| && q.waiting[i].event == event
  }

  /** What is left for one event: nothing once it is passed. */
  ghost function Budget(q: Queue, event: nat): nat {
    if !Waits(q, event) then 0
    else if q.waiting[0].event == event then LeftNow(q)
    else q.system.maxAttempts
  }

  /** Once an action is passed, no other one has its number. */
  lemma PassedIsGone(q: Queue, q': Queue, event: nat)
    requires q.waiting != [] && q'.waiting == q.waiting[1..] && Ascending(q.waiting) && Waits(q', event)
    ensures Waits(q, event) && q.waiting[0].event != event
  {
    var i :| 0 <= i < |q'.waiting| && q'.waiting[i].event == event;
    assert q.waiting[i + 1].event == event && q.waiting[0].event < q.waiting[i + 1].event;
  }

  lemma BudgetFalls(q: Queue, step: Step, event: nat)
    requires Tidy(q) && Ascending(q.waiting) && Possible(q, step)
    ensures Ascending(After(q, step).waiting)
    ensures Budget(After(q, step), event) + (if ClaimsNow(q, step, event) then 1 else 0) <= Budget(q, event)
  {
    var q' := After(q, step);
    if q.waiting != [] && q.waiting[0].event == event {
      assert Waits(q, event);
    }
    if step.Begin? {
      BeginFalls(q, step);
    } else {
      OthersDoNotRaise(q, step);
    }
    if q'.waiting != q.waiting && Waits(q', event) {
      PassedIsGone(q, q', event);
      LeftNowBounded(q');
    }
  }

  /** Each action is claimed, and so dispatched, at most max times. */
  lemma {:induction false} DispatchesAreBounded(q: Queue, steps: seq<Step>, event: nat)
    requires Tidy(q) && Ascending(q.waiting) && PossibleRun(q, steps)
    ensures Claims(q, steps, event) <= Budget(q, event) <= q.system.maxAttempts
    decreases |steps|
  {
    if q.waiting != [] {
      LeftNowBounded(q);
    }
    if steps != [] {
      BudgetFalls(q, steps[0], event);
      StepKeepsTidy(q, steps[0]);
      DispatchesAreBounded(After(q, steps[0]), steps[1..], event);
    }
  }

  // ---- actions that are passed undelivered ----

  /** An action is passed without being claimed if and only if its card is gone or over, or an edit works on it. */
  lemma PassedUnclaimedIff(q: Queue, env: Env)
    requires Tidy(q) && q.system.job.None? && q.waiting != [] && env.saved
    ensures var a, r := q.waiting[0], q.system.registry; var begin := Begin(a.id, a.event, env);
      && Possible(q, begin)
      && (After(q, begin).waiting == q.waiting[1..] <==>
          !Found(r, a.id, env.expired) || r.entries.items[a.id].state == Completed || HeldByEdit(r.entries.items[a.id]))
  {
    if Found(q.system.registry, q.waiting[0].id, env.expired) {
      DuplicateIff(q.system, q.waiting[0].id, q.waiting[0].event, env);
    }
  }

  /** An edit takes the card before the action on it is handled. */
  function EditFirst(a: Action, route: Route): seq<Step> {
    [Other(Editing(a.id, route, SAVED)), Begin(a.id, a.event, SAVED)]
  }

  /** The one action that waits is passed and was never claimed, though its card is not over: an edit holds it. */
  lemma NeverDelivered(a: Action, route: Route, limit: nat, maxAttempts: nat)
    requires Bounded(a.id) && limit > 0 && maxAttempts > 0
    ensures var q := Queue(System(OneCard(a.id, route, limit), None, maxAttempts), [a]);
      && Tidy(q) && PossibleRun(q, EditFirst(a, route))
      && Run(q, EditFirst(a, route)).waiting == [] && Claims(q, EditFirst(a, route), a.event) == 0
      && a.id in Run(q, EditFirst(a, route)).system.registry.entries.items
      && HeldByEdit(Run(q, EditFirst(a, route)).system.registry.entries.items[a.id])
  {
    OneCardFacts(a.id, route, limit);
    var steps := EditFirst(a, route);
    var q0 := Queue(System(OneCard(a.id, route, limit), None, maxAttempts), [a]);
    var q1 := After(q0, steps[0]);
    StepKeepsTidy(q0, steps[0]);
    assert q1.system.registry.entries.items[a.id] == TakenByEdit(q0.system.registry.entries.items[a.id]);
    PassedUnclaimedIff(q1, SAVED);
    var tail := steps[1..];
    OnlyStep(q1, tail, a.event);
    assert !ClaimsNow(q0, steps[0], a.event) && !ClaimsNow(q1, tail[0], a.event);
  }

  lemma OnlyStep(q: Queue, steps: seq<Step>, event: nat)
    requires |steps| == 1 && Possible(q, steps[0])
    ensures PossibleRun(q, steps) && Run(q, steps) == After(q, steps[0])
    ensures Claims(q, steps, event) == if ClaimsNow(q, steps[0], event) then 1 else 0
  {
    assert steps[1..] == [];
  }
}
