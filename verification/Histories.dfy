/** The single-step rules carried over whole runs. */
module Histories {
  import opened Types
  import opened Policy
  import opened ThreadSteps
  import opened Core
  import opened World
  import opened Invariant
  import opened Safety
  import opened Preservation
  import opened RunInvariant
  import opened Theorems
  import opened Chains
  import opened Rules

  lemma ThreadChain(w: World, t: ThreadId)
    requires WorldOk(w)
    ensures ThreadOk(t, ThreadOf(w, t), TraceOf(w, t), w.now, w.failureBound) && ChainOk(ThreadOf(w, t))
  {
  }

  // ---- chains ----

  /** The thread is live now and after every step. */
  ghost predicate LiveThroughout(w: World, steps: seq<Step>, t: ThreadId)
    decreases |steps|
  {
    Live(ThreadOf(w, t)) && (steps == [] || LiveThroughout(Apply(w, steps[0]), steps[1..], t))
  }

  lemma AnswerHasTurn(w: World, step: Step, t: ThreadId)
    requires WorldOk(w) && ChangeOf(w, step, t).ByAnswer?
    ensures HasTurn(ThreadOf(w, t)) && ThreadOf(w, t).awaiting.value.lastLifecycleCheckAt == w.now
  {
    assert ProbeOk(ThreadOf(w, t), TraceOf(w, t), w.probes[t], w.now, w.core.config);
  }

  /** While a chain stays live, through any run, its start time never moves and its attempt number never falls. */
  lemma {:induction false} ChainStartStays(w: World, steps: seq<Step>, t: ThreadId)
    requires WorldOk(w) && ValidRun(w, steps) && LiveThroughout(w, steps, t)
    ensures var before, after := ThreadOf(w, t), ThreadOf(Run(w, steps), t);
      && Live(after) && after.recoveryStartedAt == before.recoveryStartedAt
      && LiveRetry(before).value.attempt <= LiveRetry(after).value.attempt
    decreases |steps|
  {
    if steps != [] {
      var step := steps[0];
      ThreadChain(w, t);
      StepChangesThread(w, step, t);
      if ChangeOf(w, step, t).ByAnswer? { AnswerHasTurn(w, step, t); }
      ChangeKeepsChain(w, ThreadOf(w, t), ChangeOf(w, step, t));
      StepKeepsOk(w, step);
      ChainStartStays(Apply(w, step), steps[1..], t);
    }
  }

  // ---- stop and reopen ----

  /** The thread keeps one and the same stop. */
  ghost predicate Rests(w: World, steps: seq<Step>, t: ThreadId, s: Stopped)
    decreases |steps|
  {
    ThreadOf(w, t).stopped == Some(s) && (steps == [] || Rests(Apply(w, steps[0]), steps[1..], t, s))
  }

  lemma {:induction false} RestingStopStays(w: World, steps: seq<Step>, t: ThreadId, s: Stopped)
    requires Rests(w, steps, t, s)
    ensures ThreadOf(Run(w, steps), t).stopped == Some(s)
    decreases |steps|
  {
    if steps != [] { RestingStopStays(Apply(w, steps[0]), steps[1..], t, s); }
  }

  lemma OnlyReopeningRevives(w: World, reopen: bool, t: ThreadId)
    requires ThreadOf(w, t).stopped.Some? && !Live(ThreadOf(w, t)) && Live(ThreadOf(Apply(w, EndScan(reopen)), t))
    ensures Reopenable(ThreadOf(w, t), w.now, w.core.config)
    ensures ThreadOf(Apply(w, EndScan(reopen)), t) == Reopened(ThreadOf(w, t), w.now, w.core.config)
  {
    StepChangesThread(w, EndScan(reopen), t);
  }

  /** A live chain that any step stops, that rests through any run and is then reopened goes on as the same chain:
      same failure and same counters, whatever was handled in between. */
  lemma ReopenedChainGoesOn(w: World, stop: Step, steps: seq<Step>, reopen: bool, t: ThreadId, s: Stopped)
    requires WorldOk(w) && Enabled(w, stop) && Live(ThreadOf(w, t))
    requires ValidRun(Apply(w, stop), steps) && Rests(Apply(w, stop), steps, t, s)
    requires var v := Run(Apply(w, stop), steps);
      Enabled(v, EndScan(reopen)) && Live(ThreadOf(Apply(v, EndScan(reopen)), t))
    ensures SameRetry(ThreadOf(w, t), ThreadOf(Apply(Run(Apply(w, stop), steps), EndScan(reopen)), t))
  {
    var w1 := Apply(w, stop);
    var v := Run(w1, steps);
    StepKeepsOk(w, stop);
    RestingStopStays(w1, steps, t, s);
    RunKeepsOk(w1, steps);
    ThreadChain(v, t);
    OnlyReopeningRevives(v, reopen, t);
    ThreadChain(w, t);
    StepChangesThread(w, stop, t);
    TransportStopKeepsChain(w, ThreadOf(w, t), ChangeOf(w, stop, t));
    ReopenRestores(ThreadOf(w, t), ThreadOf(v, t), v.now, v.core.config);
  }

  // ---- the clock of a chain ----

  /** The step leaves the thread in its chain: live, stopped, resting as that stop, or reopened from it. */
  predicate InChain(th: ThreadState, after: ThreadState, step: Step) {
    if Live(th) then Live(after) || after.stopped.Some?
    else RestsAs(th, after) || (th.stopped.Some? && Live(after) && step.EndScan?)
  }

  /** The thread goes on with one chain, stopped and reopened any number of times. */
  ghost predicate GoesOn(w: World, steps: seq<Step>, t: ThreadId)
    decreases |steps|
  {
    steps == [] || (InChain(ThreadOf(w, t), ThreadOf(Apply(w, steps[0]), t), steps[0])
        && GoesOn(Apply(w, steps[0]), steps[1..], t))
  }

  /** The present when the clock was last restarted, or `start`. */
  ghost function Clock(w: World, steps: seq<Step>, t: ThreadId, start: Time): Time
    decreases |steps|
  {
    if steps == [] then start
    else Clock(Apply(w, steps[0]), steps[1..], t, if RestartsClock(ThreadOf(w, t), ChangeOf(w, steps[0], t)) then w.now
        else start)
  }

  /** A live chain cannot have its clock restarted: its counters and its start are not zero. */
  lemma ChainStepMovesStart(w: World, step: Step, t: ThreadId)
    requires WorldOk(w) && Enabled(w, step) && ThreadOf(w, t).recoveryStartedAt != 0
    requires InChain(ThreadOf(w, t), ThreadOf(Apply(w, step), t), step)
    ensures ThreadOf(Apply(w, step), t).recoveryStartedAt ==
            if RestartsClock(ThreadOf(w, t), ChangeOf(w, step, t)) then w.now else ThreadOf(w, t).recoveryStartedAt
  {
    var th, change := ThreadOf(w, t), ChangeOf(w, step, t);
    ThreadChain(w, t);
    StepChangesThread(w, step, t);
    if Live(th) {
      if Live(ThreadOf(Apply(w, step), t)) {
        if change.ByAnswer? { AnswerHasTurn(w, step, t); }
        ChangeKeepsChain(w, th, change);
      } else {
        StopKeepsStart(w, th, change);
      }
    } else if RestsAs(th, ThreadOf(Apply(w, step), t)) {
      RestMovesStart(w, th, change);
    } else {
      OnlyReopeningRevives(w, step.reopen, t);
    }
  }

  /** Through any run and any number of stops and reopenings, the stored start of a chain is the time it began, or the
      time at which a skipped failure last restarted its clock. */
  lemma {:induction false} ChainClock(w: World, steps: seq<Step>, t: ThreadId)
    requires WorldOk(w) && ValidRun(w, steps) && GoesOn(w, steps, t) && ThreadOf(w, t).recoveryStartedAt != 0
    ensures ThreadOf(Run(w, steps), t).recoveryStartedAt == Clock(w, steps, t, ThreadOf(w, t).recoveryStartedAt)
    decreases |steps|
  {
    if steps != [] {
      ChainStepMovesStart(w, steps[0], t);
      StepKeepsOk(w, steps[0]);
      ChainClock(Apply(w, steps[0]), steps[1..], t);
    }
  }

  ghost predicate ClockKept(w: World, steps: seq<Step>, t: ThreadId)
    decreases |steps|
  {
    steps == [] || (!RestartsClock(ThreadOf(w, t), ChangeOf(w, steps[0], t))
        && ClockKept(Apply(w, steps[0]), steps[1..], t))
  }

  lemma {:induction false} KeptClock(w: World, steps: seq<Step>, t: ThreadId, start: Time)
    requires ClockKept(w, steps, t)
    ensures Clock(w, steps, t, start) == start
    decreases |steps|
  {
    if steps != [] { KeptClock(Apply(w, steps[0]), steps[1..], t, start); }
  }

  lemma PickedInTime(v: World, goals: seq<ThreadId>, picks: seq<ThreadId>, t: ThreadId)
    requires WorldOk(v) && DispatchChoice(v.core, v.now, goals, picks) && t in picks
    ensures v.now - ThreadOf(v, t).recoveryStartedAt <= MAX_RECOVERY_DURATION
  {
    ThreadChain(v, t);
    PicksDue(v.core, v.now, goals, picks);
  }

  /** No job is dispatched more than thirty minutes after the time a chain began or its clock was last restarted,
      however often the chain was stopped and reopened; without such a restart, not after the time it began. */
  lemma DeadlineAcrossReopening(w: World, steps: seq<Step>, t: ThreadId, goals: seq<ThreadId>, picks: seq<ThreadId>)
    requires WorldOk(w) && ValidRun(w, steps) && Live(ThreadOf(w, t)) && GoesOn(w, steps, t)
    requires Enabled(Run(w, steps), DispatchDue(goals, picks)) && t in picks
    ensures var start := ThreadOf(w, t).recoveryStartedAt;
      && Run(w, steps).now - Clock(w, steps, t, start) <= MAX_RECOVERY_DURATION
      && (ClockKept(w, steps, t) ==> Run(w, steps).now - start <= MAX_RECOVERY_DURATION)
  {
    var v := Run(w, steps);
    ThreadChain(w, t);
    ChainClock(w, steps, t);
    if ClockKept(w, steps, t) { KeptClock(w, steps, t, ThreadOf(w, t).recoveryStartedAt); }
    RunKeepsOk(w, steps);
    PickedInTime(v, goals, picks, t);
  }

  // ---- turns ----

  ghost predicate AwaitingThroughout(w: World, steps: seq<Step>, t: ThreadId)
    decreases |steps|
  {
    ThreadOf(w, t).awaiting.Some? && (steps == [] || AwaitingThroughout(Apply(w, steps[0]), steps[1..], t))
  }

  /** The turn of an awaiting entry is written once: as long as the thread keeps awaiting, it stays. */
  lemma {:induction false} TurnIsWrittenOnce(w: World, steps: seq<Step>, t: ThreadId)
    requires WorldOk(w) && ValidRun(w, steps) && HasTurn(ThreadOf(w, t)) && AwaitingThroughout(w, steps, t)
    ensures TurnKept(ThreadOf(w, t), ThreadOf(Run(w, steps), t))
    decreases |steps|
  {
    if steps != [] {
      var step := steps[0];
      ThreadChain(w, t);
      StepChangesThread(w, step, t);
      ChangeKeepsTurn(w, ThreadOf(w, t), ChangeOf(w, step, t));
      StepKeepsOk(w, step);
      TurnIsWrittenOnce(Apply(w, step), steps[1..], t);
    }
  }

  /** A completion changes an awaiting thread only if it is for the last aborted turn, or for the turn of a
      task_started event handled in this run that this very retry, without a turn before, took as its own: one dated
      from two seconds before its dispatch to two seconds after its deadline, or one it was allowed to adopt. */
  lemma OnlyCorrelatedCompletion(w: World, cfg: Config, bound: int, steps: seq<Step>, item: Item)
    requires IsRun(w, cfg, bound, steps) && item.event.TaskComplete?
    requires var v := Run(w, steps);
      && ThreadOf(v, item.thread).awaiting.Some?
      && ThreadOf(Apply(v, Observe(item)), item.thread) != ThreadOf(v, item.thread)
    ensures var v := Run(w, steps);
      var th, turn := ThreadOf(v, item.thread), item.event.turn;
      && turn != ""
      && (turn == th.lastAbortedTurn ||
          exists a: Ack :: a.turn == turn && AckOf(th, a) && HandledInRun(w, steps, item.thread, a))
  {
    var v := Run(w, steps);
    var th := ThreadOf(v, item.thread);
    ReachedThread(w, cfg, bound, steps, item.thread);
    StepChangesThread(v, Observe(item), item.thread);
    OnlyOwnCompletionMatters(th, Failure(KeyOf(item), item.event.turn, item.event.at, item.event.completion,
                                         item.codexHome, item.rolloutPath), v.now, v.core.config);
    if item.event.turn != th.lastAbortedTurn {
      var a := TraceOf(v, item.thread).ack.value;
      assert AckOf(th, a);
      AcknowledgedInRun(w, steps, item.thread, a);
    }
  }

  // ---- progress ----

  /** The no-progress count restarts inside a chain only after progress reported since the retry got its turn. */
  lemma RestartNeedsProgress(w: World, cfg: Config, bound: int, steps: seq<Step>, step: Step, t: ThreadId)
    requires IsRun(w, cfg, bound, steps) && Enabled(Run(w, steps), step)
    requires var v := Run(w, steps);
      && Live(ThreadOf(v, t)) && Live(ThreadOf(Apply(v, step), t))
      && LiveRetry(ThreadOf(Apply(v, step), t)).value.attempt > LiveRetry(ThreadOf(v, t)).value.attempt
      && LiveRetry(ThreadOf(Apply(v, step), t)).value.consecutive <= LiveRetry(ThreadOf(v, t)).value.consecutive
    ensures var v := Run(w, steps);
      HasTurn(ThreadOf(v, t)) && TraceOf(v, t).turnProgress && LiveRetry(ThreadOf(Apply(v, step), t)).value.consecutive
          == 1
  {
    var v := Run(w, steps);
    ReachedOk(w, cfg, bound, steps);
    ThreadChain(v, t);
    StepChangesThread(v, step, t);
    if ChangeOf(v, step, t).ByAnswer? { AnswerHasTurn(v, step, t); }
    ChangeKeepsChain(v, ThreadOf(v, t), ChangeOf(v, step, t));
  }

  // ---- holds ----

  ghost predicate NeverLifted(w: World, steps: seq<Step>, t: ThreadId)
    decreases |steps|
  {
    steps == [] || (!Lifts(ThreadOf(w, t), ChangeOf(w, steps[0], t)) && NeverLifted(Apply(w, steps[0]), steps[1..], t))
  }

  /** A held goal stays held until something that may lift the hold happens. */
  lemma {:induction false} HoldStays(w: World, steps: seq<Step>, t: ThreadId)
    requires ThreadOf(w, t).goalHeld && NeverLifted(w, steps, t)
    ensures ThreadOf(Run(w, steps), t).goalHeld
    decreases |steps|
  {
    if steps != [] {
      StepChangesThread(w, steps[0], t);
      HoldEndsExactlyBy(w, ThreadOf(w, t), ChangeOf(w, steps[0], t));
      HoldStays(Apply(w, steps[0]), steps[1..], t);
    }
  }

  // ---- goal-limit stops ----

  ghost predicate LatchUndisturbed(w: World, steps: seq<Step>, t: ThreadId)
    decreases |steps|
  {
    steps == [] || (!MayEndLatch(ChangeOf(w, steps[0], t)) && LatchUndisturbed(Apply(w, steps[0]), steps[1..], t))
  }

  /** Whatever turns do, and through ticks, reloads, dispatches and restarts of the process, a goal-limit stop keeps
      its record, its request and its counters (a restart may raise a zero no-progress count of the record). */
  lemma {:induction false} GoalLimitLatch(w: World, steps: seq<Step>, t: ThreadId)
    requires WorldOk(w) && ValidRun(w, steps) && GoalLimitStopped(ThreadOf(w, t)) && LatchUndisturbed(w, steps, t)
    ensures SameLatch(ThreadOf(w, t), ThreadOf(Run(w, steps), t))
    decreases |steps|
  {
    if steps != [] {
      var step := steps[0];
      ThreadChain(w, t);
      StepChangesThread(w, step, t);
      LatchStays(w, ThreadOf(w, t), ChangeOf(w, step, t));
      StepKeepsOk(w, step);
      GoalLimitLatch(Apply(w, step), steps[1..], t);
    }
  }

  /** One goal-stop request gets at most as many runs that are still current as the largest controller failure
      limit of the run, and the last of them clears it. */
  lemma GoalBlockRunsAreBounded(w: World, cfg: Config, bound: int, steps: seq<Step>, i: nat, result: Result, at: Time)
    requires IsRun(w, cfg, bound, steps) && Enabled(Run(w, steps), FinishTask(i, result, at))
    requires var v := Run(w, steps); v.tasks[i].job.GoalBlockJob? && StillCurrent(v.core, v.tasks[i].job)
    ensures var v := Run(w, steps);
      var t := v.tasks[i].job.thread;
      && TraceOf(v, t).goalRuns + 1 <= bound
      && (TraceOf(v, t).goalRuns + 1 == bound ==> ThreadOf(Apply(v, FinishTask(i, result, at)), t).goalStop.None?)
  {
    var v := Run(w, steps);
    var t := v.tasks[i].job.thread;
    ReachedOk(w, cfg, bound, steps);
    BoundStays(w, steps);
    StepKeepsOk(v, FinishTask(i, result, at));
    ThreadChain(v, t);
    ThreadChain(Apply(v, FinishTask(i, result, at)), t);
    assert Apply(v, FinishTask(i, result, at)).failureBound == bound;
  }

  // ---- events ----

  predicate Forgets(step: Step, key: EventKey) { step.Prune? && key in step.keys }

  predicate Handles(change: Change, key: EventKey) { change.ByEvent? && KeyOf(change.item) == key }

  ghost predicate NeverHandled(w: World, steps: seq<Step>, t: ThreadId, key: EventKey)
    decreases |steps|
  {
    steps == [] || (!Handles(ChangeOf(w, steps[0], t), key) && NeverHandled(Apply(w, steps[0]), steps[1..], t, key))
  }

  lemma DispatchKeepsKeys(c: Core, now: Time, goals: seq<ThreadId>, picks: seq<ThreadId>)
    ensures Dispatch(c, now, goals, picks).processed == c.processed
  {
    GoalJobsKeepKeys(c, goals);
    LaunchKeepsKeys(WithGoalJobs(c, goals), picks, now);
  }

  lemma GoalJobsKeepKeys(c: Core, goals: seq<ThreadId>)
    ensures WithGoalJobs(c, goals).processed == c.processed
  {
  }

  lemma LaunchKeepsKeys(c: Core, picks: seq<ThreadId>, now: Time)
    ensures Launch(c, picks, now).processed == c.processed && StopDue(c, now).processed == c.processed
  {
  }

  lemma QuietKeepsKeys(w: World, step: Step)
    requires !step.Observe? && !step.Prune? && !step.DispatchDue?
    ensures Apply(w, step).core.processed == w.core.processed
  {
    if step.TakeAnswer? || step.FinishTask? || step.StartTask? { JobKeepsKeys(w, step); }
  }

  lemma JobKeepsKeys(w: World, step: Step)
    requires step.TakeAnswer? || step.FinishTask? || step.StartTask?
    ensures Apply(w, step).core.processed == w.core.processed
  {
    if step.FinishTask? && step.index < |w.tasks| {
      FinishKeepsKeys(w.core, w.tasks[step.index].job, step.result, step.at);
    }
  }

  lemma FinishKeepsKeys(c: Core, job: Job, result: Result, at: Time)
    ensures FinishJob(c, job, result, at).processed == c.processed
  {
  }

  lemma StepKeepsKey(w: World, step: Step, key: EventKey)
    requires key in w.core.processed && !Forgets(step, key)
    ensures key in Apply(w, step).core.processed
  {
    match step
    case DispatchDue(goals, picks) => DispatchKeepsKeys(w.core, w.now, goals, picks);
    case Observe(_) =>
    case Prune(_, _) =>
    case _ => QuietKeepsKeys(w, step);
  }

  /** An event that was handled changes no thread again before its key is pruned, however often it is read. */
  lemma {:induction false} HandledOnce(w: World, steps: seq<Step>, t: ThreadId, key: EventKey)
    requires key in w.core.processed && forall s :: s in steps ==> !Forgets(s, key)
    ensures key in Run(w, steps).core.processed && NeverHandled(w, steps, t, key)
    decreases |steps|
  {
    if steps != [] {
      StepKeepsKey(w, steps[0], key);
      HandledOnce(Apply(w, steps[0]), steps[1..], t, key);
    }
  }

  /** A handled event becomes known, and every key that was known stays known. */
  lemma HandledIsKnown(w: World, item: Item, key: EventKey)
    ensures key in Apply(w, Observe(item)).core.processed <==> key in w.core.processed || key == KeyOf(item)
  {
  }

  /** Only readings of the same event have the same key: the same thread, kind, turn and time. */
  lemma KeysTellApart(one: Item, other: Item)
    ensures KeyOf(one) == KeyOf(other) <==>
      && one.thread == other.thread && one.event.at == other.event.at && one.digest == other.digest
      && TurnOf(one.event) == TurnOf(other.event)
      && (one.event.TaskStarted? <==> other.event.TaskStarted?)
      && (one.event.TaskUserInput? <==> other.event.TaskUserInput?)
      && (one.event.TaskProgress? <==> other.event.TaskProgress?)
      && (one.event.TaskComplete? <==> other.event.TaskComplete?)
      && (one.event.TurnAborted? <==> other.event.TurnAborted?)
      && (one.event.GoalUpdated? <==> other.event.GoalUpdated?)
  {
  }

  /** So each event acts once: after its first handling no reading of it changes a thread before its key is pruned. */
  lemma EachEventOnce(w: World, item: Item, steps: seq<Step>, t: ThreadId)
    requires forall s :: s in steps ==> !Forgets(s, KeyOf(item))
    ensures NeverHandled(Apply(w, Observe(item)), steps, t, KeyOf(item))
  {
    HandledIsKnown(w, item, KeyOf(item));
    HandledOnce(Apply(w, Observe(item)), steps, t, KeyOf(item));
  }

  // ---- exhausted chains ----

  /** The user restarts the thread, or this failure is handled. */
  predicate Renews(change: Change, key: EventKey) {
    change == ByCommand(RestartRetry) || FailsWith(change, key)
  }

  ghost predicate NeverRenewed(w: World, steps: seq<Step>, t: ThreadId, key: EventKey)
    decreases |steps|
  {
    steps == [] || (!Renews(ChangeOf(w, steps[0], t), key) && NeverRenewed(Apply(w, steps[0]), steps[1..], t, key))
  }

  /** As long as its key is known, a failure is renewed by the user only. */
  lemma {:induction false} KnownIsNotRenewed(w: World, steps: seq<Step>, t: ThreadId, key: EventKey)
    requires key in w.core.processed && forall s :: s in steps ==> !Forgets(s, key) && !UserRestarts(s, t)
    ensures NeverRenewed(w, steps, t, key)
    decreases |steps|
  {
    if steps != [] {
      StepKeepsKey(w, steps[0], key);
      KnownIsNotRenewed(Apply(w, steps[0]), steps[1..], t, key);
    }
  }

  /** If the thread is about this failure at all, it is stopped over its limits. */
  predicate Exhausted(th: ThreadState, key: EventKey) {
    About(th, key) ==> th.stopped.Some? && OverBudget(th.stopped.value)
  }

  lemma ChangeKeepsExhausted(w: World, th: ThreadState, change: Change, key: EventKey)
    requires ChainOk(th) && Exhausted(th, key) && !Renews(change, key)
    ensures Exhausted(Changed(w, th, change), key)
  {
    var after := Changed(w, th, change);
    if About(after, key) {
      FailureComesFromCompletion(w, th, change, key);
      if Live(after) { OverBudgetRevives(w, th, change); } else { OverBudgetStays(w, th, change); }
    }
  }

  /** A dispatch adds no job for a failure that is stopped over its limits. */
  lemma DispatchSparesExhausted(w: World, step: Step, t: ThreadId, key: EventKey, i: nat)
    requires WorldOk(w) && Exhausted(ThreadOf(w, t), key)
    requires |w.log| <= i < |Apply(w, step).log| && Apply(w, step).log[i].thread == t
    ensures Apply(w, step).log[i].retry.fault.key != key
  {
    OnlyDispatchLogs(w, step);
    ThreadChain(w, t);
    NewEntryIs(w, step.picks, Apply(w, step).log[i]);
  }

  lemma {:induction false} ExhaustedStaysDown(w: World, steps: seq<Step>, t: ThreadId, key: EventKey, i: nat)
    requires WorldOk(w) && ValidRun(w, steps) && Exhausted(ThreadOf(w, t), key) && NeverRenewed(w, steps, t, key)
    requires |w.log| <= i < |Run(w, steps).log| && Run(w, steps).log[i].thread == t
    ensures Run(w, steps).log[i].retry.fault.key != key
    decreases |steps|
  {
    if steps != [] {
      var v := Apply(w, steps[0]);
      RunLogGrows(v, steps[1..]);
      if i < |v.log| {
        DispatchSparesExhausted(w, steps[0], t, key, i);
      } else {
        ThreadChain(w, t);
        StepChangesThread(w, steps[0], t);
        ChangeKeepsExhausted(w, ThreadOf(w, t), ChangeOf(w, steps[0], t), key);
        StepKeepsOk(w, steps[0]);
        ExhaustedStaysDown(v, steps[1..], t, key, i);
      }
    }
  }

  /** Once a failure is stopped for exceeding a numeric limit, no recovery job is ever dispatched for it again unless
      the user restarts the thread or its own event is handled once more: not after the stop got another reason, not
      after the limits were raised, not after a process restart, and whatever the dates of the events are. */
  lemma OverBudgetStopsForGood(w: World, cfg: Config, bound: int, before: seq<Step>, steps: seq<Step>, t: ThreadId,
      i: nat)
    requires IsRun(w, cfg, bound, before) && ValidRun(Run(w, before), steps)
    requires var v := Run(w, before);
      && ThreadOf(v, t).stopped.Some? && OverBudget(ThreadOf(v, t).stopped.value)
      && NeverRenewed(v, steps, t, ThreadOf(v, t).stopped.value.fault.key)
      && |v.log| <= i < |Run(v, steps).log| && Run(v, steps).log[i].thread == t
    ensures Run(Run(w, before), steps).log[i].retry.fault.key != ThreadOf(Run(w, before), t).stopped.value.fault.key
  {
    ReachedOk(w, cfg, bound, before);
    var v := Run(w, before);
    ExhaustedStaysDown(v, steps, t, ThreadOf(v, t).stopped.value.fault.key, i);
  }

  // ---- double confirmation ----

  lemma AnswerRecorded(v: World, t: ThreadId)
    requires t in v.probes && ProbeCurrent(ThreadOf(v, t), v.probes[t])
    ensures TraceOf(Apply(v, TakeAnswer(t, ProbeStatus(false))), t).answers ==
      TraceOf(v, t).answers + [Seen(v.probes[t].key, v.probes[t].turn, v.now, false)]
  {
  }

  /** The entry leaves only by a current answer that finds an earlier inactive one counted. */
  lemma SecondConfirmation(v: World, t: ThreadId)
    requires WorldOk(v) && t in v.probes && ThreadOf(v, t).awaiting.Some?
    requires ThreadOf(Apply(v, TakeAnswer(t, ProbeStatus(false))), t).awaiting.None?
    ensures ProbeCurrent(ThreadOf(v, t), v.probes[t]) && ThreadOf(v, t).awaiting.value.lifecycleChecks > 0
  {
    AnswerChange(v, TakeAnswer(t, ProbeStatus(false)), t);
    assert ThreadOk(t, ThreadOf(v, t), TraceOf(v, t), v.now, v.failureBound);
  }

  /** The newest two answers of the trace are inactive ones about the entry, far enough apart and late enough. */
  predicate ConfirmedInactive(aw: Awaiting, answers: seq<Seen>, now: Time, cfg: Config) {
    var n := |answers|;
    && n >= 2
    && answers[n - 1] == Seen(aw.retry.fault.key, aw.retryTurn, now, false)
    && answers[n - 2] == Seen(aw.retry.fault.key, aw.retryTurn, answers[n - 2].at, false)
    && answers[n - 1].at - answers[n - 2].at >= PROBE_INTERVAL
    && now - LifecycleStart(aw) >= cfg.startAckTimeoutSeconds * SECOND
  }

  lemma SecondAnswer(th: ThreadState, tr: Trace, p: Probe, now: Time, cfg: Config)
    requires ProbeOk(th, tr, p, now, cfg) && ProbeCurrent(th, p) && th.awaiting.value.lifecycleChecks > 0
    ensures ConfirmedInactive(th.awaiting.value, tr.answers + [Seen(p.key, p.turn, now, false)], now, cfg)
  {
  }

  /** An acknowledged retry is given up as inactive only when the newest two probe answers about its failure and
      turn, at least five seconds apart, were both inactive, and not before the acknowledgement timeout. */
  lemma InactiveNeedsTwoAnswers(w: World, cfg: Config, bound: int, steps: seq<Step>, t: ThreadId)
    requires IsRun(w, cfg, bound, steps)
    requires var v := Run(w, steps);
      var step := TakeAnswer(t, ProbeStatus(false));
      Enabled(v, step) && ThreadOf(v, t).awaiting.Some? && ThreadOf(Apply(v, step), t).awaiting.None?
    ensures var v := Run(w, steps);
      ConfirmedInactive(ThreadOf(v, t).awaiting.value, TraceOf(Apply(v, TakeAnswer(t, ProbeStatus(false))), t).answers,
                        v.now, v.core.config)
  {
    var v := Run(w, steps);
    ReachedOk(w, cfg, bound, steps);
    SecondConfirmation(v, t);
    AnswerRecorded(v, t);
    SecondAnswer(ThreadOf(v, t), TraceOf(v, t), v.probes[t], v.now, v.core.config);
  }

  // ---- jobs ----

  /** In every reachable state each thread has at most one outstanding job, and `active` is exactly the threads with
      one. */
  lemma OneJobPerThread(w: World, cfg: Config, bound: int, steps: seq<Step>)
    requires IsRun(w, cfg, bound, steps)
    ensures var v := Run(w, steps); JobsMatch(v.tasks, v.core.active)
  {
    ReachedOk(w, cfg, bound, steps);
  }
}
