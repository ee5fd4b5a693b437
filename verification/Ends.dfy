/** What ends a retry for good: nothing is sent for a failure that the thread is no longer about. */
module Ends {
  import opened Types
  import opened ThreadSteps
  import opened Core
  import opened World
  import opened Safety
  import opened Preservation
  import opened RunInvariant
  import opened Theorems
  import opened Chains
  import opened Rules
  import opened Histories
  import opened Outcomes
  import opened TickOutcomes
  import opened JobOutcomes

  // ---- a failure that is over ----

  /** The failure itself is not handled again. */
  ghost predicate NeverFails(w: World, steps: seq<Step>, t: ThreadId, key: EventKey)
    decreases |steps|
  {
    steps == [] || (!FailsWith(ChangeOf(w, steps[0], t), key) && NeverFails(Apply(w, steps[0]), steps[1..], t, key))
  }

  /** The step begins a job for this failure. */
  ghost predicate BeginsFor(w: World, step: Step, t: ThreadId, key: EventKey) {
    && step.StartTask? && step.index < |w.tasks|
    && var job := w.tasks[step.index].job;
    job.RecoveryJob? && job.thread == t && job.retry.fault.key == key && MayStart(w.core, job)
  }

  /** No job for this failure is dispatched or begun. */
  ghost predicate NothingFor(w: World, steps: seq<Step>, t: ThreadId, key: EventKey)
    decreases |steps|
  {
    steps == [] ||
    (var v := Apply(w, steps[0]);
     && !BeginsFor(w, steps[0], t, key)
     && (forall i :: |w.log| <= i < |v.log| && v.log[i].thread == t ==> v.log[i].retry.fault.key != key)
     && NothingFor(v, steps[1..], t, key))
  }

  lemma StepSpares(w: World, step: Step, t: ThreadId, key: EventKey)
    requires WorldOk(w) && !About(ThreadOf(w, t), key)
    ensures !BeginsFor(w, step, t, key)
    ensures var v := Apply(w, step);
      forall i :: |w.log| <= i < |v.log| && v.log[i].thread == t ==> v.log[i].retry.fault.key != key
  {
    ThreadChain(w, t);
    OnlyDispatchLogs(w, step);
    var v := Apply(w, step);
    forall i | |w.log| <= i < |v.log| && v.log[i].thread == t ensures v.log[i].retry.fault.key != key {
      NewEntryIs(w, step.picks, v.log[i]);
    }
  }

  /** A thread that is not about a failure has no job for it begun or dispatched, through any run, until that failure is
      handled again: whatever it was that ended it. */
  lemma {:induction false} OverForGood(w: World, steps: seq<Step>, t: ThreadId, key: EventKey)
    requires WorldOk(w) && ValidRun(w, steps) && !About(ThreadOf(w, t), key) && NeverFails(w, steps, t, key)
    ensures NothingFor(w, steps, t, key) && !About(ThreadOf(Run(w, steps), t), key)
    decreases |steps|
  {
    if steps != [] {
      var step := steps[0];
      StepSpares(w, step, t, key);
      ThreadChain(w, t);
      StepChangesThread(w, step, t);
      if About(ThreadOf(Apply(w, step), t), key) {
        FailureComesFromCompletion(w, ThreadOf(w, t), ChangeOf(w, step, t), key);
      }
      StepKeepsOk(w, step);
      OverForGood(Apply(w, step), steps[1..], t, key);
    }
  }

  lemma ResetIsOver(w: World, cfg: Config, bound: int, before: seq<Step>, step: Step, steps: seq<Step>, t: ThreadId,
      key: EventKey)
    requires IsRun(w, cfg, bound, before) && Enabled(Run(w, before), step)
    requires var v := Apply(Run(w, before), step);
      Reset(ThreadOf(v, t)) && ValidRun(v, steps) && NeverFails(v, steps, t, key)
    ensures NothingFor(Apply(Run(w, before), step), steps, t, key)
  {
    ReachedOk(w, cfg, bound, before);
    StepKeepsOk(Run(w, before), step);
    OverForGood(Apply(Run(w, before), step), steps, t, key);
  }

  // ---- by the user ----

  /** A cancelled retry is gone with its counters, its goal is as it was, and nothing is sent for its failure until
      that failure is handled again. */
  lemma CancelEnds(w: World, cfg: Config, bound: int, before: seq<Step>, t: ThreadId, steps: seq<Step>)
    requires IsRun(w, cfg, bound, before) && Enabled(Run(w, before), Control(Command(CancelRetry, t)))
    requires ThreadOf(Run(w, before), t).pending.Some?
    requires var v := Run(w, before);
      var key, done := ThreadOf(v, t).pending.value.retry.fault.key, Apply(v, Control(Command(CancelRetry, t)));
      ValidRun(done, steps) && NeverFails(done, steps, t, key)
    ensures var v := Run(w, before);
      var done := Apply(v, Control(Command(CancelRetry, t)));
      && Reset(ThreadOf(done, t)) && SameGoal(ThreadOf(v, t), ThreadOf(done, t))
      && NothingFor(done, steps, t, ThreadOf(v, t).pending.value.retry.fault.key)
  {
    var v := Run(w, before);
    ReachedOk(w, cfg, bound, before);
    ThreadChain(v, t);
    StepChangesThread(v, Control(Command(CancelRetry, t)), t);
    CancelOutcome(ThreadOf(v, t), v.now, v.core.config);
    ResetIsOver(w, cfg, bound, before, Control(Command(CancelRetry, t)), steps, t,
                ThreadOf(v, t).pending.value.retry.fault.key);
  }

  // ---- by an event ----

  /** The event is handled and not a duplicate. */
  predicate New(w: World, item: Item) { w.phase.Scanning? && KeyOf(item) !in w.core.processed }

  /** A new event acts on its thread alone, as its outcome says. */
  lemma HandledEvent(w: World, item: Item, t: ThreadId)
    requires WorldOk(w) && New(w, item)
    ensures ChainOk(ThreadOf(w, t))
    ensures ThreadOf(Apply(w, Observe(item)), t) ==
            if t == item.thread then After(ThreadOf(w, t), item, w.now, w.core.config) else ThreadOf(w, t)
  {
    ThreadChain(w, t);
    if t == item.thread { ObservedThread(w, item); } else { ObserveSparesOthers(w, item, t); }
  }

  /** What ends a retry without a stop: its success, an abort, manual input, a start of another turn, or a hold. */
  predicate EndsRetry(th: ThreadState, item: Item) {
    match item.event
    case TaskComplete(turn, _, c) => OfAborted(th, turn) || (Concerns(th, turn) && Succeeds(c))
    case TurnAborted(_, _) => true
    case TaskUserInput(turn, _) => Interrupts(th, InputTurn(th, turn))
    case TaskStarted(turn, at) =>
      && !InWindow(th, turn, at) && !TakenOver(th, turn, at)
      && !(th.awaiting.Some? && th.awaiting.value.retryTurn == turn)
    case GoalUpdated(at, status, updatedAt) =>
      && Fresh(th, at, updatedAt) && HeldBy(th, status, updatedAt) && !BegunSince(th, status, updatedAt)
      && !(RestartedGoal(th) && status.Blocked?)
    case _ => false
  }

  lemma EndingResets(th: ThreadState, item: Item, now: Time, cfg: Config)
    requires ChainOk(th) && Live(th) && EndsRetry(th, item)
    ensures Reset(After(th, item, now, cfg))
  {
    match item.event
    case TaskComplete(_, _, _) => SuccessOutcome(th, item, now, cfg);
    case TurnAborted(_, _) => AbortOutcome(th, item, now, cfg);
    case TaskUserInput(_, _) => InputOutcome(th, item, now, cfg);
    case TaskStarted(_, _) => StartOutcome(th, item, now, cfg);
    case GoalUpdated(_, _, _) => UpdateOutcome(th, item, now, cfg);
    case _ =>
  }

  /** A handled event of this kind leaves neither a retry nor counters, and nothing is sent for the failure until that
      failure is handled again: a recovered, aborted or interrupted chain, or one of a held goal, is over. */
  lemma EventEnds(w: World, cfg: Config, bound: int, before: seq<Step>, item: Item, steps: seq<Step>)
    requires IsRun(w, cfg, bound, before) && New(Run(w, before), item)
    requires Live(ThreadOf(Run(w, before), item.thread)) && EndsRetry(ThreadOf(Run(w, before), item.thread), item)
    requires var done := Apply(Run(w, before), Observe(item));
      && ValidRun(done, steps)
      && NeverFails(done, steps, item.thread, LiveRetry(ThreadOf(Run(w, before), item.thread)).value.fault.key)
    ensures var v, done := Run(w, before), Apply(Run(w, before), Observe(item));
      && Reset(ThreadOf(done, item.thread))
      && NothingFor(done, steps, item.thread, LiveRetry(ThreadOf(v, item.thread)).value.fault.key)
  {
    var v := Run(w, before);
    ReachedOk(w, cfg, bound, before);
    HandledEvent(v, item, item.thread);
    EndingResets(ThreadOf(v, item.thread), item, v.now, v.core.config);
    ResetIsOver(w, cfg, bound, before, Observe(item), steps, item.thread,
                LiveRetry(ThreadOf(v, item.thread)).value.fault.key);
  }

  // ---- by a result ----

  /** A call that says the retry does not apply ends it, and nothing more is sent for its failure. */
  lemma RefusalEnds(w: World, cfg: Config, bound: int, before: seq<Step>, i: nat, result: Result, at: Time,
      steps: seq<Step>)
    requires IsRun(w, cfg, bound, before) && Enabled(Run(w, before), FinishTask(i, result, at)) && result.NotApplicable?
    requires var v := Run(w, before);
      v.tasks[i].job.RecoveryJob? && Wanted(ThreadOf(v, v.tasks[i].job.thread), v.tasks[i].job)
    requires var v, done := Run(w, before), Apply(Run(w, before), FinishTask(i, result, at));
      ValidRun(done, steps) && NeverFails(done, steps, v.tasks[i].job.thread, v.tasks[i].job.retry.fault.key)
    ensures var v, done := Run(w, before), Apply(Run(w, before), FinishTask(i, result, at));
      && Reset(ThreadOf(done, v.tasks[i].job.thread))
      && NothingFor(done, steps, v.tasks[i].job.thread, v.tasks[i].job.retry.fault.key)
  {
    var v := Run(w, before);
    var t := v.tasks[i].job.thread;
    ReachedOk(w, cfg, bound, before);
    ThreadChain(v, t);
    FinishedThread(v, i, result, at);
    RefusedCall(ThreadOf(v, t), result, at, v.core.config);
    ResetIsOver(w, cfg, bound, before, FinishTask(i, result, at), steps, t, v.tasks[i].job.retry.fault.key);
  }

  // ---- an expedited retry ----

  lemma {:induction false} PickIsLogged(w: World, picks: seq<ThreadId>, t: ThreadId)
    requires t in picks && ThreadOf(w, t).pending.Some?
    ensures exists e :: e in Entries(w, picks) && e.thread == t && e.retry == ThreadOf(w, t).pending.value.retry
  {
    if picks[0] != t {
      PickIsLogged(w, picks[1..], t);
    } else {
      var e := Entries(w, picks)[0];
      assert e in Entries(w, picks) && e.thread == t;
    }
  }

  /** This dispatch sends this retry of the thread. */
  ghost predicate Sends(w: World, goals: seq<ThreadId>, picks: seq<ThreadId>, t: ThreadId, r: Retry) {
    exists e :: e in Apply(w, DispatchDue(goals, picks)).log[|w.log|..] && e.thread == t && e.retry == r
        && e.at == w.now
  }

  lemma PickedIsSent(w: World, goals: seq<ThreadId>, picks: seq<ThreadId>, t: ThreadId)
    requires t in picks && ThreadOf(w, t).pending.Some?
    ensures Sends(w, goals, picks, t, ThreadOf(w, t).pending.value.retry)
  {
    OnlyDispatchLogs(w, DispatchDue(goals, picks));
    PickIsLogged(w, picks, t);
    var e :| e in Entries(w, picks) && e.thread == t && e.retry == ThreadOf(w, t).pending.value.retry;
    NewEntryIs(w, picks, e);
    assert Apply(w, DispatchDue(goals, picks)).log[|w.log|..] == Entries(w, picks);
  }

  /** The user made the retry due: its payload is as it was, and the next dispatch that may send it does, unless every
      free slot goes to a retry that was due no later. */
  lemma ExpeditedIsSent(w: World, cfg: Config, bound: int, before: seq<Step>, t: ThreadId, steps: seq<Step>,
      goals: seq<ThreadId>, picks: seq<ThreadId>)
    requires IsRun(w, cfg, bound, before) && Enabled(Run(w, before), Control(Command(RetryNow, t)))
    requires ThreadOf(Run(w, before), t).pending.Some?
    requires var now := Apply(Run(w, before), Control(Command(RetryNow, t)));
      var u := Run(now, steps);
      && ValidRun(now, steps) && Enabled(u, DispatchDue(goals, picks)) && ThreadOf(u, t) == ThreadOf(now, t)
      && !u.core.paused && !NoWay(u.core) && t !in u.core.active
      && !Barred(ThreadOf(u, t)) && !Late(ThreadOf(u, t), u.now)
    ensures var v := Run(w, before);
      var now := Apply(v, Control(Command(RetryNow, t)));
      var u, r := Run(now, steps), ThreadOf(v, t).pending.value.retry;
      && ThreadOf(now, t).pending == Some(Pending(r, v.now))
      && (Sends(u, goals, picks, t, r) ||
          (|picks| >= FreeSlots(u, goals) &&
           forall p :: p in picks && ThreadOf(u, p).pending.Some? ==> ThreadOf(u, p).pending.value.dueAt <= v.now))
  {
    var v := Run(w, before);
    var now := Apply(v, Control(Command(RetryNow, t)));
    var u := Run(now, steps);
    ReachedOk(w, cfg, bound, before);
    ThreadChain(v, t);
    StepChangesThread(v, Control(Command(RetryNow, t)), t);
    ExpediteOutcome(ThreadOf(v, t), v.now, v.core.config);
    ClockAdvances(v, Control(Command(RetryNow, t)));
    RunClock(now, steps);
    StepKeepsOk(v, Control(Command(RetryNow, t)));
    RunKeepsOk(now, steps);
    NextDispatch(u, goals, picks, t);
  }

  lemma NextDispatch(w: World, goals: seq<ThreadId>, picks: seq<ThreadId>, t: ThreadId)
    requires WorldOk(w) && Enabled(w, DispatchDue(goals, picks)) && !w.core.paused && !NoWay(w.core)
    requires MayBeSent(ThreadOf(w, t), w.now) && t !in w.core.active
    ensures var p := ThreadOf(w, t).pending.value;
      || Sends(w, goals, picks, t, p.retry)
      || (|picks| >= FreeSlots(w, goals) &&
          forall u :: u in picks && ThreadOf(w, u).pending.Some? ==> ThreadOf(w, u).pending.value.dueAt <= p.dueAt)
  {
    ThreadChain(w, t);
    GoalsDue(w.core, w.now, goals, picks);
    if t in picks { PickedIsSent(w, goals, picks, t); } else { LeftOutOnlyIfFull(w, goals, picks, t); }
  }
}
