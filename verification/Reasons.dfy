/** The reason of every reachable stop says what was exceeded. */
module Reasons {
  import opened Types
  import opened Policy
  import opened ThreadSteps
  import opened Core
  import opened World
  import opened Invariant
  import opened Safety
  import opened Preservation
  import opened RunInvariant
  import opened Theorems
  import opened Chains
  import opened Rules
  import opened Histories
  import EventProofs

  /** Codes that only the watchdog gives to a stop. */
  predicate OwnReason(r: Reason) {
    || r.RecoveryAttemptLimit? || r.ConsecutiveRetryLimit? || r.AuthAttemptLimit? || r.RecoveryTimeLimit?
        || r.RetryLimit?
    || IsGoalLimitReason(r)
  }

  /** What an own code means for the stop that carries it. */
  predicate Truthful(s: Stopped, start: Time, now: Time) {
    && !s.reason.RetryLimit?
    && (s.reason.RecoveryAttemptLimit? ==> s.attempts + 1 > s.maxAttempts)
    && (s.reason.ConsecutiveRetryLimit? ==> s.attempts + 1 <= s.maxAttempts && s.consecutive + 1 > s.maxConsecutive)
    && (s.reason.AuthAttemptLimit? ==> s.fault.kind.AuthLimited? && OverBudget(s))
    && (IsGoalLimitReason(s.reason) ==>
          s.fault.kind.EmptyResponse? && (OverBudget(s)
              || (s.stoppedAt <= now && s.stoppedAt - start > MAX_RECOVERY_DURATION)))
    && (s.reason.RecoveryTimeLimit? ==>
          s.stoppedAt <= now && (s.stoppedAt - start > MAX_RECOVERY_DURATION || start >= s.stoppedAt))
  }

  predicate ReasonOk(th: ThreadState, now: Time) {
    th.stopped.Some? ==> Truthful(th.stopped.value, th.recoveryStartedAt, now)
  }

  /** The change brings no own code from outside. */
  predicate Honest(change: Change) {
    match change
    case ByResult(result, _) => !OwnReason(FailureReason(result))
    case ByAnswer(answer) => answer.ProbeFailed? ==> !OwnReason(answer.reason)
    case _ => true
  }

  lemma TrueIsTruthful(s: Stopped, goalActive: bool, late: bool, start: Time, now: Time)
    requires TrueReason(s, goalActive, late)
        && (late ==> s.stoppedAt - start > MAX_RECOVERY_DURATION && s.stoppedAt <= now)
    ensures Truthful(s, start, now)
  {
  }

  // ---- events ----

  /** Scheduling a failure leaves the stop with a clock that may have been restarted, or writes one of its own. */
  lemma ScheduleReason(th: ThreadState, f: Failure, now: Time, attempt: int, consecutive: int, origin: Time,
      notified: bool, cfg: Config)
    requires attempt >= 1 && consecutive >= 1 && ReasonOk(th, now) && !GoalLimitStopped(th)
    ensures ReasonOk(ScheduleFailure(th, f, now, attempt, consecutive, origin, notified, cfg), now)
  {
    var started := ChainStart(th, now);
    var free := if BlockAttributed(started, f.at) then started.(goalHeld := false) else started;
    var decision := ClassifyCompletion(f.completion, cfg);
    var limits := LimitsForDecision(decision, cfg);
    var late := now - free.recoveryStartedAt > MAX_RECOVERY_DURATION;
    if late || attempt > limits.attempts || consecutive > limits.consecutive {
      ExhaustedReasonIsTrue(free, f, now, attempt, consecutive, origin, decision.kind, limits, cfg);
      var s := StopExhausted(free, f, now, attempt, consecutive, origin, decision.kind, limits, cfg).stopped.value;
      TrueIsTruthful(s, free.goalStatus.Active?, late, free.recoveryStartedAt, now);
    }
  }

  lemma FailedAgainReason(th: ThreadState, f: Failure, now: Time, cfg: Config)
    requires ChainOk(th) && ReasonOk(th, now) && th.awaiting.Some?
    ensures ReasonOk(EventProofs.FailedAgain(th, f, now, cfg), now)
  {
    var r := th.awaiting.value.retry;
    var idle := th.(currentTurnProgress := false, awaiting := None);
    var next := EventProofs.NextConsecutive(th, r);
    assert idle.stopped.None? && next >= 1;
    ScheduleReason(idle, f, now, r.attempt + 1, next, r.fault.originStartedAt, r.parentNotified, cfg);
    assert EventProofs.FailedAgain(th, f, now, cfg)
        == ScheduleFailure(idle, f, now, r.attempt + 1, next, r.fault.originStartedAt, r.parentNotified, cfg);
  }

  lemma FailedFirstReason(th: ThreadState, f: Failure, now: Time, cfg: Config)
    requires ReasonOk(th, now) && !GoalLimitStopped(th)
    ensures ReasonOk(EventProofs.FailedFirst(th, f, now, cfg), now)
  {
    ScheduleReason(th.(currentTurnProgress := false), f, now, 1, 1, ExternalTurnOrigin(th, f.turn, f.at), false, cfg);
  }

  lemma CompleteReason(th: ThreadState, f: Failure, now: Time, cfg: Config)
    requires ChainOk(th) && ReasonOk(th, now)
    ensures ReasonOk(Written(th, OnTaskComplete(th, f, now, cfg)), now)
  {
    EventProofs.CompletionShape(th, f, now, cfg);
    if th.awaiting.Some? { FailedAgainReason(th, f, now, cfg); }
    else if !GoalLimitStopped(th) { FailedFirstReason(th, f, now, cfg); }
  }

  lemma UpdateReason(th: ThreadState, at: Time, status: GoalStatus, updatedAt: Time, now: Time)
    requires ReasonOk(th, now)
    ensures ReasonOk(Written(th, OnGoalUpdated(th, at, status, updatedAt)), now)
  {
  }

  lemma EventReason(th: ThreadState, item: Item, now: Time, cfg: Config)
    requires ChainOk(th) && ReasonOk(th, now)
    ensures ReasonOk(Written(th, OnEvent(th, item, now, cfg)), now)
  {
    match item.event
    case TaskComplete(turn, at, completion) =>
      CompleteReason(th, Failure(KeyOf(item), turn, at, completion, item.codexHome, item.rolloutPath), now, cfg);
    case GoalUpdated(at, status, updatedAt) => UpdateReason(th, at, status, updatedAt, now);
    case _ =>
  }

  // ---- the other changes ----

  lemma ReloadReason(th: ThreadState, wall: Time, now: Time, cfg: Config)
    requires ChainOk(th) && ReasonOk(th, now)
    ensures ReasonOk(Reloaded(th, wall, cfg), now)
  {
    if th.pending.Some? && Reloaded(th, wall, cfg).stopped.Some? {
      LoweredReasonIsTrue(th, wall, cfg);
      TrueIsTruthful(Reloaded(th, wall, cfg).stopped.value, th.goalStatus.Active?, false, th.recoveryStartedAt, now);
    }
  }

  lemma ResultReason(th: ThreadState, result: Result, at: Time, now: Time, cfg: Config)
    requires ChainOk(th) && th.awaiting.Some? && !OwnReason(FailureReason(result))
    ensures ReasonOk(RecoveryFinished(th, result, at, cfg), now)
  {
  }

  lemma InactiveReason(th: ThreadState, now: Time, cfg: Config)
    requires ChainOk(th) && th.awaiting.Some?
    ensures ReasonOk(AdvanceInactive(th, now, cfg), now)
  {
    if AdvanceInactive(th, now, cfg).stopped.Some? {
      InactiveReasonIsTrue(th, now, cfg);
      TrueIsTruthful(AdvanceInactive(th, now, cfg).stopped.value, th.goalStatus.Active?, false, th.recoveryStartedAt,
          now);
    }
  }

  lemma AnswerReason(th: ThreadState, answer: Answer, now: Time, cfg: Config)
    requires ChainOk(th) && th.awaiting.Some? && (answer.ProbeFailed? ==> !OwnReason(answer.reason))
    ensures ReasonOk(Answered(th, answer, now, cfg), now)
  {
    if answer.ProbeStatus? {
      var aw := th.awaiting.value;
      var seen := aw.(retry := aw.retry.(dispatchFailures := 0), lifecycleChecks := if answer.active then 0
          else aw.lifecycleChecks + 1);
      InactiveReason(th.(awaiting := Some(seen)), now, cfg);
    }
  }

  lemma DispatchReason(c: Core, now: Time, mode: DispatchMode, th: ThreadState, active: bool, picked: bool)
    requires ChainOk(th) && ReasonOk(th, now)
    ensures ReasonOk(AfterDispatch(c, now, mode, th, active, picked), now)
  {
  }

  lemma BlockReason(th: ThreadState, result: Result, at: Time, now: Time, cfg: Config)
    requires ChainOk(th) && ReasonOk(th, now) && th.goalStop.Some?
    ensures ReasonOk(GoalBlockFinished(th, result, at, cfg), now)
  {
  }

  lemma OthersReason(w: World, th: ThreadState, change: Change)
    requires ChainOk(th) && ReasonOk(th, w.now) && !change.ByEvent? && !change.ByReload?
    requires (change.ByResult? || change.ByAnswer?) ==> th.awaiting.None?
    requires !change.ByDispatch? && !change.ByGoalBlock?
    ensures ReasonOk(Changed(w, th, change), w.now)
  {
  }

  lemma ChangeReason(w: World, th: ThreadState, change: Change)
    requires ChainOk(th) && ReasonOk(th, w.now) && Honest(change)
    ensures ReasonOk(Changed(w, th, change), w.now)
  {
    if change.ByEvent? { EventReason(th, change.item, w.now, w.core.config); }
    else if change.ByReload? { ReloadReason(th, change.wall, w.now, change.cfg); }
    else if change.ByResult? && th.awaiting.Some? { ResultReason(th, change.result, change.at, w.now, w.core.config); }
    else if change.ByAnswer? && th.awaiting.Some? { AnswerReason(th, change.answer, w.now, w.core.config); }
    else if change.ByDispatch? { DispatchReason(w.core, w.now, change.mode, th, change.active, change.picked); }
    else if change.ByGoalBlock? && th.goalStop.Some? && th.stopped.Some? {
      BlockReason(th, change.result, change.at, w.now, w.core.config);
    } else if !change.ByGoalBlock? { OthersReason(w, th, change); }
  }

  // ---- runs ----

  /** The controller answers with codes of its own. */
  predicate HonestStep(step: Step) {
    match step
    case FinishTask(_, result, _) => !OwnReason(FailureReason(result))
    case TakeAnswer(_, answer) => answer.ProbeFailed? ==> !OwnReason(answer.reason)
    case _ => true
  }

  lemma HonestChange(w: World, step: Step, t: ThreadId)
    requires HonestStep(step)
    ensures Honest(ChangeOf(w, step, t))
  {
  }

  lemma {:induction false} RunReason(w: World, steps: seq<Step>, t: ThreadId)
    requires WorldOk(w) && ValidRun(w, steps) && ReasonOk(ThreadOf(w, t), w.now) && forall s ::
        s in steps ==> HonestStep(s)
    ensures ReasonOk(ThreadOf(Run(w, steps), t), Run(w, steps).now)
    decreases |steps|
  {
    if steps != [] {
      var step := steps[0];
      ThreadChain(w, t);
      StepChangesThread(w, step, t);
      HonestChange(w, step, t);
      ChangeReason(w, ThreadOf(w, t), ChangeOf(w, step, t));
      ClockAdvances(w, step);
      StepKeepsOk(w, step);
      RunReason(Apply(w, step), steps[1..], t);
    }
  }

  /** After every run in which the controller does not use the watchdog's own codes, the reason of a stop is true: the
      attempts, the no-progress count or the authentication limit were exceeded, or the time was over (unless the clock
      of the chain has been restarted since); a goal is given up only without an answer and with one of the limits or
      the time exceeded; the catch-all reason never occurs. */
  lemma ReasonsAreTrue(w: World, cfg: Config, bound: int, steps: seq<Step>, t: ThreadId)
    requires IsRun(w, cfg, bound, steps) && forall s :: s in steps ==> HonestStep(s)
    ensures var v := Run(w, steps);
      ThreadOf(v, t).stopped.Some? ==> Truthful(ThreadOf(v, t).stopped.value, ThreadOf(v, t).recoveryStartedAt, v.now)
  {
    InitOk(w, cfg, bound);
    RunReason(w, steps, t);
  }
}
