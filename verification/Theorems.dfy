/** What every run of the watchdog guarantees. */
module Theorems {
  import opened Types
  import opened Policy
  import opened Core
  import opened World
  import opened Invariant
  import opened Safety
  import opened Preservation
  import opened RunInvariant

  /** `steps` is a run of a watchdog that starts with an empty state. */
  ghost predicate IsRun(w: World, cfg: Config, bound: int, steps: seq<Step>) {
    Init(w, cfg, bound) && ValidRun(w, steps)
  }

  lemma ReachedOk(w: World, cfg: Config, bound: int, steps: seq<Step>)
    requires IsRun(w, cfg, bound, steps)
    ensures WorldOk(Run(w, steps))
  {
    InitOk(w, cfg, bound);
    RunKeepsOk(w, steps);
  }

  lemma ReachedThread(w: World, cfg: Config, bound: int, steps: seq<Step>, t: ThreadId)
    requires IsRun(w, cfg, bound, steps)
    ensures var v := Run(w, steps); ThreadOk(t, ThreadOf(v, t), TraceOf(v, t), v.now, bound)
  {
    ReachedOk(w, cfg, bound, steps);
    BoundStays(w, steps);
    var v := Run(w, steps);
    assert ThreadOk(t, ThreadOf(v, t), TraceOf(v, t), v.now, v.failureBound);
  }

  lemma StepBound(w: World, step: Step)
    ensures Apply(w, step).failureBound == w.failureBound
  {
  }

  lemma {:induction false} BoundStays(w: World, steps: seq<Step>)
    ensures Run(w, steps).failureBound == w.failureBound
    decreases |steps|
  {
    if steps != [] {
      StepBound(w, steps[0]);
      BoundStays(Apply(w, steps[0]), steps[1..]);
    }
  }

  lemma ClockAdvances(w: World, step: Step)
    requires Enabled(w, step)
    ensures w.now <= Apply(w, step).now
  {
  }

  lemma {:induction false} RunClock(w: World, steps: seq<Step>)
    requires ValidRun(w, steps)
    ensures w.now <= Run(w, steps).now
    decreases |steps|
  {
    if steps != [] {
      ClockAdvances(w, steps[0]);
      RunClock(Apply(w, steps[0]), steps[1..]);
    }
  }

  // ---- runs one after the other ----

  lemma {:induction false} Joined(w: World, one: seq<Step>, other: seq<Step>)
    requires ValidRun(w, one) && ValidRun(Run(w, one), other)
    ensures ValidRun(w, one + other) && Run(w, one + other) == Run(Run(w, one), other)
    decreases |one|
  {
    if one == [] {
      assert one + other == other;
    } else {
      assert (one + other)[1..] == one[1..] + other;
      Joined(Apply(w, one[0]), one[1..], other);
    }
  }

  lemma Single(w: World, step: Step)
    requires Enabled(w, step)
    ensures ValidRun(w, [step]) && Run(w, [step]) == Apply(w, step)
  {
    assert [step][1..] == [];
  }

  lemma OneMore(w: World, steps: seq<Step>, step: Step)
    requires ValidRun(w, steps) && Enabled(Run(w, steps), step)
    ensures ValidRun(w, steps + [step]) && Run(w, steps + [step]) == Apply(Run(w, steps), step)
  {
    Single(Run(w, steps), step);
    Joined(w, steps, [step]);
  }

  // ---- phases and counters ----

  /** At most one of pending, awaiting and stopped; a goal-stop request only beside its own stop. */
  lemma OnePhasePerThread(w: World, cfg: Config, bound: int, steps: seq<Step>, t: ThreadId)
    requires IsRun(w, cfg, bound, steps)
    ensures OnePhase(ThreadOf(Run(w, steps), t))
  {
    ReachedThread(w, cfg, bound, steps, t);
  }

  /** The counters of a live chain are those of its retry, and its start time is known. */
  lemma LiveCountersMatch(w: World, cfg: Config, bound: int, steps: seq<Step>, t: ThreadId)
    requires IsRun(w, cfg, bound, steps)
    ensures var th := ThreadOf(Run(w, steps), t);
      Live(th) ==>
        var r := LiveRetry(th).value;
        && 1 <= r.consecutive <= r.attempt && th.recoveryAttempts == r.attempt && th.consecutiveRetries == r.consecutive
        && th.recoveryStartedAt != 0
  {
    ReachedThread(w, cfg, bound, steps, t);
  }

  // ---- dispatched jobs ----

  lemma LoggedOk(w: World, cfg: Config, bound: int, steps: seq<Step>, e: Entry)
    requires IsRun(w, cfg, bound, steps) && e in Run(w, steps).log
    ensures EntryOk(e)
  {
    ReachedOk(w, cfg, bound, steps);
  }

  /** Every recovery job dispatched in a tick that could reload the configuration is within the limits of its
      failure class under that configuration, and within those it carries, whatever configurations the run went
      through: the limits of the configuration, and the smaller ones of an authentication or an unknown failure. */
  lemma DispatchedWithinBudget(w: World, cfg: Config, bound: int, steps: seq<Step>, e: Entry)
    requires IsRun(w, cfg, bound, steps) && e in Run(w, steps).log && e.reloaded
    ensures e.retry.attempt <= e.config.maxRecoveryAttempts && e.retry.consecutive <= e.config.maxConsecutiveRetries
    ensures e.retry.fault.kind.AuthLimited? ==>
      e.retry.attempt <= e.config.authMaxAttempts && e.retry.consecutive <= e.config.authMaxAttempts
    ensures e.retry.fault.kind.Unknown? ==> e.retry.attempt <= e.config.unknownMaxAttempts
    ensures e.retry.attempt <= e.retry.maxAttempts && e.retry.consecutive <= e.retry.maxConsecutive
  {
    LoggedOk(w, cfg, bound, steps, e);
    LimitsMean(e.retry.fault.kind, e.retry.attempt, e.retry.consecutive, e.config);
  }

  /** No recovery job is dispatched more than thirty minutes after the start that its thread stores. */
  lemma DispatchedBeforeDeadline(w: World, cfg: Config, bound: int, steps: seq<Step>, e: Entry)
    requires IsRun(w, cfg, bound, steps) && e in Run(w, steps).log
    ensures e.before.recoveryStartedAt != 0 && e.at - e.before.recoveryStartedAt <= MAX_RECOVERY_DURATION
  {
    LoggedOk(w, cfg, bound, steps, e);
  }

  /** In a chain without reported progress the two counters are equal, so the no-progress limit bounds every attempt
      too. */
  lemma NoProgressBoundsAttempts(w: World, cfg: Config, bound: int, steps: seq<Step>, e: Entry)
    requires IsRun(w, cfg, bound, steps) && e in Run(w, steps).log && !e.trace.chainProgress
    ensures e.retry.attempt == e.retry.consecutive
    ensures e.reloaded ==> e.retry.attempt <= e.config.maxConsecutiveRetries
  {
    LoggedOk(w, cfg, bound, steps, e);
  }

  // ---- what traces keep ----

  predicate UserRestarts(step: Step, t: ThreadId) {
    step.Control? && step.command == Command(RestartRetry, t)
  }

  predicate Starts(step: Step, t: ThreadId) {
    step.Observe? && step.item.thread == t && step.item.event.TaskStarted?
  }

  /** A trace never forgets a user restart or an external start; it learns of user restarts only when `restarting`,
      and of starts only when `starting`. */
  predicate Remembers(before: Trace, after: Trace, restarting: bool, starting: bool) {
    && before.restarted <= after.restarted && before.external <= after.external
    && (restarting || before.restarted == after.restarted)
    && (starting || (before.ack == after.ack && before.external == after.external))
  }

  lemma WholeMapTrace(w: World, c: Core, t: ThreadId)
    ensures Remembers(TraceOf(w, t), TraceOf(WithThreads(w, c), t), false, false)
  {
    NotedForAll(w, c, t);
  }

  lemma WholeMapRemembers(w: World, step: Step, t: ThreadId)
    requires step.Restart? || step.SharedReload? || step.TickStart? || step.EndScan? || step.ExpireStarts?
        || step.Prune?
    ensures Remembers(TraceOf(w, t), TraceOf(Apply(w, step), t), false, false)
  {
    WholeMapTrace(w, Apply(w, step).core, t);
  }

  lemma DispatchRemembers(w: World, goals: seq<ThreadId>, picks: seq<ThreadId>, t: ThreadId)
    ensures Remembers(TraceOf(w, t), TraceOf(DispatchWorld(w, goals, picks), t), false, false)
  {
    DispatchTrace(w, goals, picks, t);
  }

  lemma EventRemembers(w: World, item: Item, t: ThreadId)
    ensures Remembers(TraceOf(w, t), TraceOf(ObserveWorld(w, item), t), false, Starts(Observe(item), t))
  {
  }

  lemma CommandRemembers(w: World, command: Command, t: ThreadId)
    ensures Remembers(TraceOf(w, t), TraceOf(ControlWorld(w, command), t), UserRestarts(Control(command), t), false)
  {
  }

  lemma JobRemembers(w: World, step: Step, t: ThreadId)
    requires step.TakeAnswer? || step.FinishTask?
    ensures Remembers(TraceOf(w, t), TraceOf(Apply(w, step), t), false, false)
  {
  }

  lemma QuietRemembers(w: World, step: Step, t: ThreadId)
    requires step.ControllerChange? || step.SetPaused? || step.StartTask? || step.BeginProbes?
    ensures Remembers(TraceOf(w, t), TraceOf(Apply(w, step), t), false, false)
  {
  }

  lemma StepRemembers(w: World, step: Step, t: ThreadId)
    ensures Remembers(TraceOf(w, t), TraceOf(Apply(w, step), t), UserRestarts(step, t), Starts(step, t))
  {
    match step
    case DispatchDue(goals, picks) => DispatchRemembers(w, goals, picks, t);
    case Restart(_, _, _) => WholeMapRemembers(w, step, t);
    case SharedReload(_, _) => WholeMapRemembers(w, step, t);
    case TickStart(_, _, _) => WholeMapRemembers(w, step, t);
    case EndScan(_) => WholeMapRemembers(w, step, t);
    case ExpireStarts => WholeMapRemembers(w, step, t);
    case Prune(_, _) => WholeMapRemembers(w, step, t);
    case Observe(item) => EventRemembers(w, item, t);
    case Control(command) => CommandRemembers(w, command, t);
    case TakeAnswer(_, _) => JobRemembers(w, step, t);
    case FinishTask(_, _, _) => JobRemembers(w, step, t);
    case _ => QuietRemembers(w, step, t);
  }

  // ---- the log ----

  lemma OnlyDispatchLogs(w: World, step: Step)
    ensures Apply(w, step).log == if step.DispatchDue? then w.log + Entries(w, step.picks) else w.log
  {
  }

  lemma {:induction false} RunLogGrows(w: World, steps: seq<Step>)
    ensures |w.log| <= |Run(w, steps).log|
    ensures forall i :: 0 <= i < |w.log| ==> Run(w, steps).log[i] == w.log[i]
    decreases |steps|
  {
    if steps != [] {
      OnlyDispatchLogs(w, steps[0]);
      RunLogGrows(Apply(w, steps[0]), steps[1..]);
    }
  }

  lemma {:induction false} NewEntryIs(w: World, picks: seq<ThreadId>, e: Entry)
    requires e in Entries(w, picks)
    ensures e.thread in picks && ThreadOf(w, e.thread).pending.Some?
        && e.retry == ThreadOf(w, e.thread).pending.value.retry
    ensures e.trace == TraceOf(w, e.thread) && e.before == ThreadOf(w, e.thread) && e.at == w.now
  {
    if ThreadOf(w, picks[0]).pending.None? || e != Entries(w, picks)[0] {
      NewEntryIs(w, picks[1..], e);
    }
  }

  /** What a log entry had seen is still known. */
  ghost predicate LogTraced(w: World) {
    forall e :: e in w.log ==>
      e.trace.restarted <= TraceOf(w, e.thread).restarted && e.trace.external <= TraceOf(w, e.thread).external
  }

  lemma LogTracedStays(w: World, step: Step)
    requires LogTraced(w)
    ensures LogTraced(Apply(w, step))
  {
    var v := Apply(w, step);
    forall e | e in v.log
      ensures e.trace.restarted <= TraceOf(v, e.thread).restarted && e.trace.external <= TraceOf(v, e.thread).external
    {
      StepRemembers(w, step, e.thread);
      if e !in w.log {
        assert step.DispatchDue?;
        NewEntryIs(w, step.picks, e);
        DispatchTrace(w, step.goals, step.picks, e.thread);
      }
    }
  }

  lemma {:induction false} RunLogTraced(w: World, steps: seq<Step>)
    requires LogTraced(w)
    ensures LogTraced(Run(w, steps))
    decreases |steps|
  {
    if steps != [] {
      LogTracedStays(w, steps[0]);
      RunLogTraced(Apply(w, steps[0]), steps[1..]);
    }
  }

  // ---- acknowledged starts ----

  /** At some point of the run the start of `a` was handled, and `a.before` is the thread that it found. */
  ghost predicate HandledInRun(w: World, steps: seq<Step>, t: ThreadId, a: Ack)
    decreases |steps|
  {
    && steps != []
    && ((Starts(steps[0], t) && steps[0].item.event == TaskStarted(a.turn, a.at) && ThreadOf(w, t) == a.before)
        || HandledInRun(Apply(w, steps[0]), steps[1..], t, a))
  }

  lemma StepAcknowledged(w: World, step: Step, t: ThreadId, a: Ack)
    requires TraceOf(Apply(w, step), t).ack == Some(a) && TraceOf(w, t).ack != Some(a)
    ensures Starts(step, t) && step.item.event == TaskStarted(a.turn, a.at) && ThreadOf(w, t) == a.before
  {
    StepRemembers(w, step, t);
  }

  lemma {:induction false} AcknowledgedInRun(w: World, steps: seq<Step>, t: ThreadId, a: Ack)
    requires TraceOf(Run(w, steps), t).ack == Some(a) && TraceOf(w, t).ack != Some(a)
    ensures HandledInRun(w, steps, t, a)
    decreases |steps|
  {
    if steps != [] {
      var v := Apply(w, steps[0]);
      if TraceOf(v, t).ack == Some(a) {
        StepAcknowledged(w, steps[0], t, a);
      } else {
        AcknowledgedInRun(v, steps[1..], t, a);
      }
    }
  }

  // ---- the hold of a goal ----

  /** At some point of the run the user restarted the thread while it had a goal-limit stop about this failure. */
  ghost predicate RestartedByUser(w: World, steps: seq<Step>, t: ThreadId, key: EventKey)
    decreases |steps|
  {
    && steps != []
    && ((UserRestarts(steps[0], t) && GoalLimitStopped(ThreadOf(w, t)) && ThreadOf(w, t).stopped.value.fault.key == key)
        || RestartedByUser(Apply(w, steps[0]), steps[1..], t, key))
  }

  lemma StepRestarted(w: World, step: Step, t: ThreadId, key: EventKey)
    requires key in TraceOf(Apply(w, step), t).restarted && key !in TraceOf(w, t).restarted
    ensures UserRestarts(step, t) && GoalLimitStopped(ThreadOf(w, t)) && ThreadOf(w, t).stopped.value.fault.key == key
  {
    StepRemembers(w, step, t);
  }

  lemma {:induction false} RestartedInRun(w: World, steps: seq<Step>, t: ThreadId, key: EventKey)
    requires key in TraceOf(Run(w, steps), t).restarted && key !in TraceOf(w, t).restarted
    ensures RestartedByUser(w, steps, t, key)
    decreases |steps|
  {
    if steps != [] {
      var v := Apply(w, steps[0]);
      if key in TraceOf(v, t).restarted {
        StepRestarted(w, steps[0], t, key);
      } else {
        RestartedInRun(v, steps[1..], t, key);
      }
    }
  }

  /** At some point of the run this start was handled, and it did not become the turn of a retry. */
  ghost predicate StartedExternally(w: World, steps: seq<Step>, t: ThreadId, turn: TurnId, at: Time)
    decreases |steps|
  {
    && steps != []
    && ((Starts(steps[0], t) && steps[0].item.event == TaskStarted(turn, at) && !TakesTurn(Apply(w, steps[0]), t, turn))
        || StartedExternally(Apply(w, steps[0]), steps[1..], t, turn, at))
  }

  predicate TakesTurn(w: World, t: ThreadId, turn: TurnId) {
    ThreadOf(w, t).awaiting.Some? && ThreadOf(w, t).awaiting.value.retryTurn == turn
  }

  lemma StepExternal(w: World, step: Step, t: ThreadId, turn: TurnId, at: Time)
    requires (turn, at) in TraceOf(Apply(w, step), t).external && (turn, at) !in TraceOf(w, t).external
    ensures Starts(step, t) && step.item.event == TaskStarted(turn, at) && !TakesTurn(Apply(w, step), t, turn)
  {
    StepRemembers(w, step, t);
  }

  lemma {:induction false} ExternalInRun(w: World, steps: seq<Step>, t: ThreadId, turn: TurnId, at: Time)
    requires (turn, at) in TraceOf(Run(w, steps), t).external && (turn, at) !in TraceOf(w, t).external
    ensures StartedExternally(w, steps, t, turn, at)
    decreases |steps|
  {
    if steps != [] {
      var v := Apply(w, steps[0]);
      if (turn, at) in TraceOf(v, t).external {
        StepExternal(w, steps[0], t, turn, at);
      } else {
        ExternalInRun(v, steps[1..], t, turn, at);
      }
    }
  }

  /** A job dispatched while the goal is held is for a failure that the user restarted in this run from a goal-limit
      stop, or the turn whose failure began its chain was started externally in this run, no earlier than the hold's
      known update time. */
  lemma HeldGoalIsRespected(w: World, cfg: Config, bound: int, steps: seq<Step>, e: Entry)
    requires IsRun(w, cfg, bound, steps) && e in Run(w, steps).log
    requires e.before.goalHeld
    ensures e.retry.goalLimitRestart ==> RestartedByUser(w, steps, e.thread, e.retry.fault.key)
    ensures !e.retry.goalLimitRestart ==>
      var origin := e.retry.fault.originStartedAt;
      && origin != 0 && StartedExternally(w, steps, e.thread, e.trace.firstTurn, origin)
      && (e.before.goalStatus.Paused? || e.before.goalStatus.Blocked?)
      && (e.before.goalUpdatedAt == 0 || e.before.goalUpdatedAt <= origin)
  {
    LoggedOk(w, cfg, bound, steps, e);
    RunLogTraced(w, steps);
    if e.retry.goalLimitRestart {
      RestartedInRun(w, steps, e.thread, e.retry.fault.key);
    } else {
      ExternalInRun(w, steps, e.thread, e.trace.firstTurn, e.retry.fault.originStartedAt);
    }
  }
}
