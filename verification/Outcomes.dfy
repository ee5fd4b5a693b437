/** What each input must do to a thread, in terms of the fields it finds: both when it acts and when it does not. */
module Outcomes {
  import opened Types
  import opened Policy
  import opened Backoff
  import opened ThreadSteps
  import opened World
  import opened Invariant
  import opened Chains

  function After(th: ThreadState, item: Item, now: Time, cfg: Config): ThreadState {
    Written(th, OnEvent(th, item, now, cfg))
  }

  /** No retry, no stop, no request, and the counters of a thread that never failed. */
  predicate Reset(th: ThreadState) {
    && th.pending.None? && th.awaiting.None? && th.stopped.None? && th.goalStop.None?
    && th.recoveryAttempts == 0 && th.consecutiveRetries == 0 && !th.currentTurnProgress
  }

  /** The recovery of the thread's goal was given up, or giving it up failed. */
  predicate GoalGivenUp(th: ThreadState) {
    th.stopped.Some? && th.stopped.value.reason in {GoalEmptyResponseLimit, GoalEmptyResponseBlockFailed}
  }

  /** The retry state is the same: entries, stop, request and counters. */
  predicate SameRetryState(th: ThreadState, after: ThreadState) {
    && after.pending == th.pending && after.awaiting == th.awaiting && after.stopped == th.stopped
    && after.goalStop == th.goalStop
    && after.recoveryAttempts == th.recoveryAttempts && after.consecutiveRetries == th.consecutiveRetries
    && after.recoveryStartedAt == th.recoveryStartedAt
  }

  /** The goal fields are the same. */
  predicate SameGoal(th: ThreadState, after: ThreadState) {
    && after.goalStatus == th.goalStatus && after.goalUpdatedAt == th.goalUpdatedAt
    && after.goalObservedAt == th.goalObservedAt && after.goalHeld == th.goalHeld
  }

  // ---- starts ----

  /** An unacknowledged dispatch, and a start from two seconds before it to two seconds after its deadline. */
  predicate InWindow(th: ThreadState, turn: TurnId, at: Time) {
    && turn != "" && th.awaiting.Some? && th.awaiting.value.retryTurn == ""
    && at + 2 * SECOND >= th.awaiting.value.dispatchStartedAt
    && (th.awaiting.value.startDeadline != 0 ==> at <= th.awaiting.value.startDeadline + 2 * SECOND)
  }

  /** A start that a waiting retry of an empty response takes over: within five seconds of the failure by an active goal
      that is not held, or at any later time if the parent was told of the failure. */
  predicate TakenOver(th: ThreadState, turn: TurnId, at: Time) {
    && turn != "" && th.pending.Some?
    && var r := th.pending.value.retry;
    && r.fault.kind.EmptyResponse? && r.fault.failedAt != 0 && at >= r.fault.failedAt
    && (r.parentNotified || (th.goalStatus.Active? && !th.goalHeld && at - r.fault.failedAt <= 5 * SECOND))
  }

  /** The retry with its turn: acknowledged, or taken over as the goal's own turn or as one of a subagent. */
  function Taken(th: ThreadState, turn: TurnId, at: Time): Awaiting
    requires Live(th)
  {
    if th.awaiting.Some? then th.awaiting.value.(retryTurn := turn, startedAt := at)
    else
      var r := th.pending.value.retry;
      var own := th.goalStatus.Active? && !th.goalHeld && at - r.fault.failedAt <= 5 * SECOND;
      Awaiting(r, turn, if own then GoalActive else SubagentContinue, at, 0, at, 0, 0)
  }

  /** A start is ignored, noted beside a given-up goal, taken as the turn of the retry, or external; an external start
      resets the retry. */
  lemma StartOutcome(th: ThreadState, item: Item, now: Time, cfg: Config)
    requires ChainOk(th) && item.event.TaskStarted?
    ensures var turn, at, after := item.event.turn, item.event.at, After(th, item, now, cfg);
      if GoalGivenUp(th) then SameRetryState(th, after) && after.lastStartedAt == at && after.lastStartedTurn == turn
      else if InWindow(th, turn, at) || TakenOver(th, turn, at) then
        && after.awaiting == Some(Taken(th, turn, at)) && after.pending.None?
        && after.recoveryAttempts == th.recoveryAttempts && after.consecutiveRetries == th.consecutiveRetries
        && after.recoveryStartedAt == th.recoveryStartedAt
        && after.lastStartedTurn == turn && after.lastStartedAt == at && !after.currentTurnProgress
        && after.lastExternalAt == th.lastExternalAt
        && after.lastAutoRetryAt == if th.pending.Some? then at else th.lastAutoRetryAt
      else if th.awaiting.Some? && th.awaiting.value.retryTurn == turn then after == th
      else
        && Reset(after) && after.lastExternalTurn == turn && after.lastExternalAt == at
        && after.lastStartedTurn == turn && after.lastStartedAt == at
  {
  }

  // ---- user input ----

  /** The turn that an input without a turn id belongs to. */
  function InputTurn(th: ThreadState, turn: TurnId): TurnId { if turn == "" then th.lastStartedTurn else turn }

  /** Manual input in the goal turn of a retry, or in the turn that started last while a retry waits. */
  predicate Interrupts(th: ThreadState, turn: TurnId) {
    || (th.awaiting.Some? && th.awaiting.value.retryTurn == turn
          && th.awaiting.value.action in {GoalActive, GoalResume})
    || (th.pending.Some? && turn != "" && turn == th.lastStartedTurn)
  }

  lemma InputOutcome(th: ThreadState, item: Item, now: Time, cfg: Config)
    requires ChainOk(th) && item.event.TaskUserInput?
    ensures var after := After(th, item, now, cfg);
      if Interrupts(th, InputTurn(th, item.event.turn)) then Reset(after) && SameGoal(th, after) else after == th
  {
  }

  // ---- progress ----

  /** Progress counts for the turn of the retry, if no later turn has started. */
  predicate OwnProgress(th: ThreadState, at: Time) {
    th.awaiting.Some? && th.awaiting.value.retryTurn != "" && th.awaiting.value.retryTurn == th.lastStartedTurn
        && (th.awaiting.value.startedAt == 0 || th.awaiting.value.startedAt <= at)
  }

  lemma ProgressOutcome(th: ThreadState, item: Item, now: Time, cfg: Config)
    requires item.event.TaskProgress?
    ensures var after := After(th, item, now, cfg);
      && after.currentTurnProgress == (th.currentTurnProgress || OwnProgress(th, item.event.at))
      && SameRetryState(th, after) && SameGoal(th, after)
  {
  }

  // ---- aborts ----

  lemma AbortOutcome(th: ThreadState, item: Item, now: Time, cfg: Config)
    requires item.event.TurnAborted?
    ensures var after := After(th, item, now, cfg);
      && after.lastAbortedTurn == InputTurn(th, item.event.turn) && after.lastAbortedAt == item.event.at
      && SameGoal(th, after) && if GoalGivenUp(th) then SameRetryState(th, after) else Reset(after)
  {
  }

  // ---- recovery notices ----

  lemma NoticeOutcome(th: ThreadState, item: Item, now: Time, cfg: Config)
    requires ChainOk(th) && item.event.RecoveryNotice?
    ensures var after := After(th, item, now, cfg);
      var mine := Live(th) && item.event.child == item.thread && LiveRetry(th).value.fault.key == item.event.failure;
      && (Live(after) <==> Live(th))
      && (Live(th) ==>
            var r := LiveRetry(th).value; LiveRetry(after).value == r.(parentNotified := r.parentNotified || mine))
      && (!mine ==> after == th)
  {
  }

  // ---- completions ----

  predicate Succeeds(c: Completion) { c.error.blank && !(c.finalKnown && !c.finalPresent) }

  /** The completion is for the aborted turn. */
  predicate OfAborted(th: ThreadState, turn: TurnId) { turn != "" && turn == th.lastAbortedTurn }

  /** The completion is for the turn of the retry, for the failed turn that a retry waits for, or for a thread
      without a retry. */
  predicate Concerns(th: ThreadState, turn: TurnId) {
    if th.awaiting.Some? then th.awaiting.value.retryTurn != "" && th.awaiting.value.retryTurn == turn
    else th.pending.Some? ==> th.pending.value.retry.fault.failedTurn == turn
  }

  /** A success of such a turn, or any end of the aborted turn, resets the thread: the chain is recovered. */
  lemma SuccessOutcome(th: ThreadState, item: Item, now: Time, cfg: Config)
    requires ChainOk(th) && item.event.TaskComplete? && !GoalGivenUp(th)
    requires OfAborted(th, item.event.turn) || (Concerns(th, item.event.turn) && Succeeds(item.event.completion))
    ensures Reset(After(th, item, now, cfg)) && SameGoal(th, After(th, item, now, cfg))
  {
  }

  /** Every other completion that is not a failure to be answered leaves the thread as it is. */
  lemma IgnoredCompletion(th: ThreadState, item: Item, now: Time, cfg: Config)
    requires ChainOk(th) && item.event.TaskComplete?
    requires GoalGivenUp(th) ||
             (!OfAborted(th, item.event.turn) &&
              (!Concerns(th, item.event.turn) || (th.pending.Some? && !Succeeds(item.event.completion))))
    ensures After(th, item, now, cfg) == th
  {
  }

  /** A failed completion of the retry's own turn, or of a thread without a retry. */
  predicate Fails(th: ThreadState, turn: TurnId, c: Completion) {
    && !Succeeds(c) && !GoalGivenUp(th) && !OfAborted(th, turn) && th.pending.None? && Concerns(th, turn)
  }

  /** The number of the attempt that answers the failure. */
  function NextAttempt(th: ThreadState): int { if th.awaiting.Some? then th.awaiting.value.retry.attempt + 1 else 1 }

  /** Its place in the row of attempts without progress. */
  function NextWithoutProgress(th: ThreadState): int {
    if th.awaiting.None? || th.currentTurnProgress then 1 else th.awaiting.value.retry.consecutive + 1
  }

  /** When the turn began that the chain goes back to, if it was external. */
  function OriginOf(th: ThreadState, turn: TurnId, at: Time): Time {
    if th.awaiting.Some? then th.awaiting.value.retry.fault.originStartedAt
    else if turn != "" && turn == th.lastExternalTurn && th.lastExternalAt <= at then th.lastExternalAt
    else 0
  }

  function ChainBegan(th: ThreadState, now: Time): Time {
    if th.recoveryStartedAt == 0 || (th.recoveryAttempts == 0 && th.consecutiveRetries == 0) then now
    else th.recoveryStartedAt
  }

  /** From two seconds before the failure to five seconds after it. */
  predicate BlockBelongs(blockedAt: Time, failedAt: Time) {
    blockedAt != 0 && failedAt != 0 && -2 * SECOND <= blockedAt - failedAt <= 5 * SECOND
  }

  /** The goal is held, not by a block that belongs to this failure, and not by a pause or block from before the
      external turn that the chain goes back to. */
  predicate HeldFor(th: ThreadState, at: Time, origin: Time) {
    && th.goalHeld && !(th.goalStatus.Blocked? && BlockBelongs(th.goalUpdatedAt, at))
    && !(origin != 0 && th.goalStatus in {Paused, Blocked} && (th.goalUpdatedAt == 0 || th.goalUpdatedAt <= origin))
  }

  predicate OutOfTime(th: ThreadState, now: Time) { now - ChainBegan(th, now) > 30 * 60 * SECOND }

  /** The four ends of a failure. */
  datatype Answering = Skipping | Forgetting | GivingUp | Retrying

  function AnswerTo(th: ThreadState, item: Item, now: Time, cfg: Config): Answering
    requires item.event.TaskComplete?
  {
    var e := item.event;
    var d := ClassifyCompletion(e.completion, cfg);
    if HeldFor(th, e.at, OriginOf(th, e.turn, e.at)) then Skipping
    else if !d.retry then Forgetting
    else if OutOfTime(th, now) || Exceeds(d.kind, NextAttempt(th), NextWithoutProgress(th), cfg) then GivingUp
    else Retrying
  }

  /** The failure, as a record of it must show it. */
  predicate Recorded(f: Fault, th: ThreadState, item: Item, kind: FailureClass)
    requires item.event.TaskComplete?
  {
    && f.key == KeyOf(item) && f.failedTurn == item.event.turn && f.failedAt == item.event.at && f.kind == kind
    && f.originStartedAt == OriginOf(th, item.event.turn, item.event.at)
    && f.codexHome == item.codexHome && f.rolloutPath == item.rolloutPath
  }

  lemma FailureIs(th: ThreadState, item: Item, now: Time, cfg: Config)
    requires ChainOk(th) && item.event.TaskComplete? && Fails(th, item.event.turn, item.event.completion)
    ensures var e := item.event;
      After(th, item, now, cfg) ==
        ScheduleFailure(th.(currentTurnProgress := false, awaiting := None), FailureOf(item), now, NextAttempt(th),
                        NextWithoutProgress(th), OriginOf(th, e.turn, e.at),
                        th.awaiting.Some? && th.awaiting.value.retry.parentNotified, cfg)
  {
  }

  predicate Skipped(th: ThreadState, after: ThreadState, at: Time) {
    && after.pending.None? && after.awaiting.None? && after.stopped == th.stopped && after.goalHeld
    && after.recoveryAttempts == 0 && after.consecutiveRetries == 0 && after.lastFailureAt == at
    && !after.currentTurnProgress
  }

  /** The retry that answers the failure: due after the delay for its place in the row. */
  predicate Retried(th: ThreadState, after: ThreadState, item: Item, now: Time, cfg: Config)
    requires item.event.TaskComplete?
  {
    && after.pending.Some? && after.awaiting.None? && after.stopped.None? && after.goalStop.None?
    && var p := after.pending.value;
    && Recorded(p.retry.fault, th, item, ClassifyCompletion(item.event.completion, cfg).kind)
    && p.retry.attempt == NextAttempt(th) == after.recoveryAttempts
    && p.retry.consecutive == NextWithoutProgress(th) == after.consecutiveRetries
    && p.retry.maxAttempts == MostAttempts(p.retry.fault.kind, cfg)
    && p.retry.maxConsecutive == MostWithoutProgress(p.retry.fault.kind, cfg)
    && p.retry.dispatchFailures == 0 && !p.retry.goalLimitRestart
    && (p.retry.parentNotified <==> th.awaiting.Some? && th.awaiting.value.retry.parentNotified)
    && p.dueAt == now + Delay(NextWithoutProgress(th), cfg)
    && after.recoveryStartedAt == ChainBegan(th, now) && after.lastFailureAt == item.event.at
    && !after.currentTurnProgress
  }

  /** Why a chain is given up: a goal without an answer, the time, the authentication limit where it is the smaller one,
      all attempts, or the attempts without progress. */
  function GiveUpReason(kind: FailureClass, goalActive: bool, late: bool, attempt: int, consecutive: int,
      cfg: Config): Reason {
    if kind.EmptyResponse? && goalActive then GoalEmptyResponseLimit
    else if late then RecoveryTimeLimit
    else if kind.AuthLimited? &&
            ((attempt > cfg.authMaxAttempts && cfg.authMaxAttempts < cfg.maxRecoveryAttempts) ||
             (consecutive > cfg.authMaxAttempts && cfg.authMaxAttempts < cfg.maxConsecutiveRetries))
    then AuthAttemptLimit
    else if attempt > MostAttempts(kind, cfg) then RecoveryAttemptLimit
    else ConsecutiveRetryLimit
  }

  /** The stop of an exhausted chain counts the attempts that were made; a goal without an answer is asked to stop. */
  predicate GaveUp(th: ThreadState, after: ThreadState, item: Item, now: Time, cfg: Config)
    requires item.event.TaskComplete?
  {
    && after.pending.None? && after.awaiting.None? && after.stopped.Some?
    && var s := after.stopped.value;
    && Recorded(s.fault, th, item, ClassifyCompletion(item.event.completion, cfg).kind)
    && s.attempts == NextAttempt(th) - 1 == after.recoveryAttempts && s.stoppedAt == now
    && s.consecutive == NextWithoutProgress(th) - 1 == after.consecutiveRetries
    && s.maxAttempts == MostAttempts(s.fault.kind, cfg) && s.maxConsecutive == MostWithoutProgress(s.fault.kind, cfg)
    && s.reason == GiveUpReason(s.fault.kind, th.goalStatus.Active?, OutOfTime(th, now), s.attempts + 1,
                                s.consecutive + 1, cfg)
    && (s.reason.GoalEmptyResponseLimit? ==>
          after.goalStop == Some(GoalStop(s.fault.key, GoalEmptyResponseLimit, now, now, 0)))
    && s.transportBlocked.None? && !s.historical && after.recoveryStartedAt == ChainBegan(th, now)
    && after.lastFailureAt == item.event.at && !after.currentTurnProgress
  }

  lemma FailureSkipped(th: ThreadState, item: Item, now: Time, cfg: Config)
    requires ChainOk(th) && item.event.TaskComplete? && Fails(th, item.event.turn, item.event.completion)
    requires AnswerTo(th, item, now, cfg).Skipping?
    ensures Skipped(th, After(th, item, now, cfg), item.event.at)
  {
    FailureIs(th, item, now, cfg);
  }

  lemma FailureForgotten(th: ThreadState, item: Item, now: Time, cfg: Config)
    requires ChainOk(th) && item.event.TaskComplete? && Fails(th, item.event.turn, item.event.completion)
    requires AnswerTo(th, item, now, cfg).Forgetting?
    ensures Reset(After(th, item, now, cfg))
  {
    FailureIs(th, item, now, cfg);
  }

  /** The limits that the classification of the failure gives. */
  lemma LimitsOf(c: Completion, attempt: int, consecutive: int, cfg: Config)
    requires ValidConfig(cfg) && ClassifyCompletion(c, cfg).retry
    ensures var kind, limits := ClassifyCompletion(c, cfg).kind, LimitsForDecision(ClassifyCompletion(c, cfg), cfg);
      && limits == Limits(MostAttempts(kind, cfg), MostWithoutProgress(kind, cfg))
      && (attempt > limits.attempts || consecutive > limits.consecutive <==> Exceeds(kind, attempt, consecutive, cfg))
  {
    FreshLimitsAgree(c, cfg);
    LimitsMean(ClassifyCompletion(c, cfg).kind, attempt, consecutive, cfg);
  }

  /** The thread as the schedule finds it. */
  function Freed(th: ThreadState, now: Time, at: Time): ThreadState {
    var idle := th.(currentTurnProgress := false, awaiting := None, recoveryStartedAt := ChainBegan(th, now));
    if th.goalHeld && th.goalStatus.Blocked? && BlockBelongs(th.goalUpdatedAt, at) then idle.(goalHeld := false)
    else idle
  }

  function FailureOf(item: Item): Failure
    requires item.event.TaskComplete?
  {
    Failure(KeyOf(item), item.event.turn, item.event.at, item.event.completion, item.codexHome, item.rolloutPath)
  }

  lemma RetriedIs(th: ThreadState, item: Item, now: Time, cfg: Config)
    requires ChainOk(th) && ValidConfig(cfg) && item.event.TaskComplete?
    requires Fails(th, item.event.turn, item.event.completion) && AnswerTo(th, item, now, cfg).Retrying?
    ensures var e, d := item.event, ClassifyCompletion(item.event.completion, cfg);
      After(th, item, now, cfg) ==
        Scheduled(Freed(th, now, e.at), FailureOf(item), now, NextAttempt(th), NextWithoutProgress(th),
                  OriginOf(th, e.turn, e.at), th.awaiting.Some? && th.awaiting.value.retry.parentNotified, d.kind,
                  LimitsForDecision(d, cfg), cfg)
  {
    LimitsOf(item.event.completion, NextAttempt(th), NextWithoutProgress(th), cfg);
    FailureIs(th, item, now, cfg);
  }

  lemma GivenUpIs(th: ThreadState, item: Item, now: Time, cfg: Config)
    requires ChainOk(th) && ValidConfig(cfg) && item.event.TaskComplete?
    requires Fails(th, item.event.turn, item.event.completion) && AnswerTo(th, item, now, cfg).GivingUp?
    ensures var e, d := item.event, ClassifyCompletion(item.event.completion, cfg);
      After(th, item, now, cfg) ==
        StopExhausted(Freed(th, now, e.at), FailureOf(item), now, NextAttempt(th), NextWithoutProgress(th),
                      OriginOf(th, e.turn, e.at), d.kind, LimitsForDecision(d, cfg), cfg)
  {
    LimitsOf(item.event.completion, NextAttempt(th), NextWithoutProgress(th), cfg);
    FailureIs(th, item, now, cfg);
  }

  lemma FailureGivenUp(th: ThreadState, item: Item, now: Time, cfg: Config)
    requires ChainOk(th) && ValidConfig(cfg) && item.event.TaskComplete?
    requires Fails(th, item.event.turn, item.event.completion) && AnswerTo(th, item, now, cfg).GivingUp?
    ensures GaveUp(th, After(th, item, now, cfg), item, now, cfg)
  {
    LimitsOf(item.event.completion, NextAttempt(th), NextWithoutProgress(th), cfg);
    GivenUpIs(th, item, now, cfg);
  }

  lemma FailureRetried(th: ThreadState, item: Item, now: Time, cfg: Config)
    requires ChainOk(th) && ValidConfig(cfg) && item.event.TaskComplete?
    requires Fails(th, item.event.turn, item.event.completion) && AnswerTo(th, item, now, cfg).Retrying?
    ensures Retried(th, After(th, item, now, cfg), item, now, cfg)
  {
    LimitsOf(item.event.completion, NextAttempt(th), NextWithoutProgress(th), cfg);
    RetriedIs(th, item, now, cfg);
  }

  /** A failure under a hold is skipped, one that is not retryable is forgotten, and a retryable one is given up
      exactly if a limit or the time is exceeded; otherwise it gets its next attempt. */
  lemma FailureOutcome(th: ThreadState, item: Item, now: Time, cfg: Config)
    requires ChainOk(th) && ValidConfig(cfg) && item.event.TaskComplete?
    requires Fails(th, item.event.turn, item.event.completion)
    ensures var after := After(th, item, now, cfg);
      match AnswerTo(th, item, now, cfg)
      case Skipping => Skipped(th, after, item.event.at)
      case Forgetting => Reset(after)
      case GivingUp => GaveUp(th, after, item, now, cfg)
      case Retrying => Retried(th, after, item, now, cfg)
  {
    match AnswerTo(th, item, now, cfg)
    case Skipping => FailureSkipped(th, item, now, cfg);
    case Forgetting => FailureForgotten(th, item, now, cfg);
    case GivingUp => FailureGivenUp(th, item, now, cfg);
    case Retrying => FailureRetried(th, item, now, cfg);
  }

  // ---- goal updates ----

  /** Not older than the known goal state, and observed later. */
  predicate Fresh(th: ThreadState, at: Time, updatedAt: Time) {
    (th.goalUpdatedAt == 0 || updatedAt >= th.goalUpdatedAt) && (th.goalObservedAt == 0 || at > th.goalObservedAt)
  }

  /** A live retry that the user restarted from a given-up goal. */
  predicate RestartedGoal(th: ThreadState) { LiveRetry(th).Some? && LiveRetry(th).value.goalLimitRestart }

  /** Whether the goal is held once this status is known. */
  predicate HeldBy(th: ThreadState, status: GoalStatus, updatedAt: Time) {
    if status.Active? then th.stopped.Some? && th.stopped.value.reason.GoalEmptyResponseBlockFailed?
    else status.Blocked? && !RestartedGoal(th) && !GoalGivenUp(th) ==> !BlockBelongs(updatedAt, th.lastFailureAt)
  }

  /** The live retry goes back to an external turn that began after this pause or block. */
  predicate BegunSince(th: ThreadState, status: GoalStatus, updatedAt: Time) {
    && LiveRetry(th).Some? && LiveRetry(th).value.fault.originStartedAt != 0 && status in {Paused, Blocked}
    && (updatedAt == 0 || updatedAt <= LiveRetry(th).value.fault.originStartedAt)
  }

  const FINAL: set<GoalStatus> := {Blocked, Paused, Completed, Complete, UsageLimited, BudgetLimited}

  /** A given-up goal that the user activates again. */
  predicate Revives(th: ThreadState, status: GoalStatus) {
    && status.Active? && !th.goalStatus.Active? && th.goalStop.None?
    && th.stopped.Some? && th.stopped.value.reason.GoalEmptyResponseLimit?
  }

  /** A given-up goal that is over: its request is withdrawn. */
  predicate Withdrawn(th: ThreadState, after: ThreadState) {
    && th.stopped.Some? && after.stopped == Some(th.stopped.value.(reason := GoalEmptyResponseLimit))
    && after.goalStop.None? && after.pending == th.pending && after.awaiting == th.awaiting
    && after.recoveryAttempts == th.recoveryAttempts && after.consecutiveRetries == th.consecutiveRetries
  }

  /** What a fresh update leaves of the retry. */
  predicate UpdateLeaves(th: ThreadState, status: GoalStatus, updatedAt: Time, after: ThreadState) {
    if GoalGivenUp(th) && status.Active? then if Revives(th, status) then Reset(after) else SameRetryState(th, after)
    else if GoalGivenUp(th) && status in FINAL then Withdrawn(th, after)
    else if !HeldBy(th, status, updatedAt) || BegunSince(th, status, updatedAt) then SameRetryState(th, after)
    else if RestartedGoal(th) && status.Blocked? then SameRetryState(th, after)
    else Reset(after)
  }

  lemma GivenUpUpdate(th: ThreadState, at: Time, status: GoalStatus, updatedAt: Time)
    requires ChainOk(th) && Fresh(th, at, updatedAt) && GoalGivenUp(th)
    ensures var after := Written(th, OnGoalUpdated(th, at, status, updatedAt));
      after.goalHeld == HeldBy(th, status, updatedAt) && UpdateLeaves(th, status, updatedAt, after)
  {
  }

  lemma OtherUpdate(th: ThreadState, at: Time, status: GoalStatus, updatedAt: Time)
    requires ChainOk(th) && Fresh(th, at, updatedAt) && !GoalGivenUp(th)
    ensures var after := Written(th, OnGoalUpdated(th, at, status, updatedAt));
      after.goalHeld == HeldBy(th, status, updatedAt) && UpdateLeaves(th, status, updatedAt, after)
  {
  }

  /** A stale update changes nothing; a fresh one is recorded, decides the hold, and ends every retry that the hold does
      not let pass. */
  lemma UpdateOutcome(th: ThreadState, item: Item, now: Time, cfg: Config)
    requires ChainOk(th) && item.event.GoalUpdated?
    ensures var e, after := item.event, After(th, item, now, cfg);
      if !Fresh(th, e.at, e.updatedAt) then after == th
      else
        && after.goalStatus == e.status && after.goalUpdatedAt == e.updatedAt && after.goalObservedAt == e.at
        && after.goalHeld == HeldBy(th, e.status, e.updatedAt) && UpdateLeaves(th, e.status, e.updatedAt, after)
  {
    var e := item.event;
    if Fresh(th, e.at, e.updatedAt) {
      if GoalGivenUp(th) { GivenUpUpdate(th, e.at, e.status, e.updatedAt); }
      else { OtherUpdate(th, e.at, e.status, e.updatedAt); }
    }
  }
}
