/** What each step of the watchdog does to the state of one thread. A result of `None` means that the
    source returns without writing the thread back. */
module ThreadSteps {
  import opened Types
  import opened Policy
  import opened Backoff

  /** `cancelRetryLocked` and `resetRetryStateLocked`. */
  function Clear(th: ThreadState): ThreadState {
    th.(pending := None, awaiting := None, recoveryAttempts := 0, consecutiveRetries := 0,
        currentTurnProgress := false, stopped := None, goalStop := None)
  }

  predicate WithinDispatchWindow(aw: Awaiting, at: Time) {
    && aw.dispatchStartedAt - 2 * SECOND <= at
    && (aw.startDeadline == 0 || at <= aw.startDeadline + 2 * SECOND)
  }

  /** A task_started event that a retry without a turn takes as its own: in the dispatch window, or adopted. */
  predicate Acknowledges(th: ThreadState, turn: TurnId, at: Time) {
    && turn != ""
    && ((th.awaiting.Some? && th.awaiting.value.retryTurn == "" && WithinDispatchWindow(th.awaiting.value, at)) ||
        CanAdoptNativeGoalTurn(th, turn, at) || CanAdoptSubagentTurn(th, turn, at))
  }

  function Adopt(th: ThreadState, turn: TurnId, at: Time, action: Action): ThreadState
    requires th.pending.Some?
  {
    th.(pending := None, lastAutoRetryAt := at,
        awaiting := Some(Awaiting(th.pending.value.retry, turn, action, at, 0, at, 0, 0)))
  }

  function OnTaskStarted(before: ThreadState, turn: TurnId, at: Time): Option<ThreadState> {
    var th := before.(lastStartedTurn := turn, lastStartedAt := at, currentTurnProgress := false);
    var external := th.(lastExternalTurn := turn, lastExternalAt := at);
    if GoalLimitStopped(th) then Some(th)
    else if th.awaiting.Some? then
      var aw := th.awaiting.value;
      if aw.retryTurn == "" && turn != "" && WithinDispatchWindow(aw, at) then
        Some(th.(awaiting := Some(aw.(retryTurn := turn, startedAt := at))))
      else if aw.retryTurn == turn then None
      else Some(Clear(external))
    else if th.pending.Some? then
      if CanAdoptNativeGoalTurn(th, turn, at) then Some(Adopt(th, turn, at, GoalActive))
      else if CanAdoptSubagentTurn(th, turn, at) then Some(Adopt(th, turn, at, SubagentContinue))
      else Some(Clear(external))
    else Some(external.(recoveryAttempts := 0, consecutiveRetries := 0, stopped := None, goalStop := None))
  }

  function OnTaskUserInput(th: ThreadState, eventTurn: TurnId): Option<ThreadState> {
    var turn := if eventTurn == "" then th.lastStartedTurn else eventTurn;
    if GoalLimitStopped(th) then None
    else if th.awaiting.Some? && th.awaiting.value.retryTurn == turn then
      if th.awaiting.value.action.GoalActive? || th.awaiting.value.action.GoalResume? then Some(Clear(th)) else None
    else if th.pending.Some? && turn != "" && turn == th.lastStartedTurn then Some(Clear(th))
    else None
  }

  function OnTaskProgress(th: ThreadState, at: Time): Option<ThreadState> {
    if th.awaiting.None? then None
    else
      var aw := th.awaiting.value;
      if aw.retryTurn == "" || aw.retryTurn != th.lastStartedTurn || (aw.startedAt != 0 && at < aw.startedAt) then None
      else Some(th.(currentTurnProgress := true))
  }

  function OnTurnAborted(th: ThreadState, eventTurn: TurnId, at: Time): Option<ThreadState> {
    var turn := if eventTurn == "" then th.lastStartedTurn else eventTurn;
    var marked := th.(lastAbortedTurn := turn, lastAbortedAt := at);
    if GoalLimitStopped(th) then Some(marked) else Some(Clear(marked))
  }

  /** A failed completion: its key, its event fields and the file it came from. */
  datatype Failure = Failure(key: EventKey, turn: TurnId, at: Time, completion: Completion,
                             codexHome: string, rolloutPath: string)

  function FaultOf(f: Failure, origin: Time, kind: FailureClass): Fault {
    Fault(f.key, f.turn, f.at, origin, kind, f.codexHome, f.rolloutPath)
  }

  function ChainStart(th: ThreadState, now: Time): ThreadState {
    if (th.recoveryAttempts == 0 && th.consecutiveRetries == 0) || th.recoveryStartedAt == 0
    then th.(recoveryStartedAt := now) else th
  }

  /** The failure that a goal block is attributed to lifts the hold. */
  predicate BlockAttributed(th: ThreadState, at: Time) {
    th.goalHeld && th.goalStatus.Blocked? && GoalBlockedByFailure(th.goalUpdatedAt, at)
  }

  function ScheduleFailure(before: ThreadState, f: Failure, now: Time, attempt: int, consecutive: int,
                           origin: Time, parentNotified: bool, cfg: Config): ThreadState {
    var started := ChainStart(before, now);
    if started.goalHeld && !BlockAttributed(started, f.at) &&
       !HeldConversationAllowed(started.goalStatus, started.goalUpdatedAt, origin)
    then
      started.(pending := None, awaiting := None, recoveryAttempts := 0, consecutiveRetries := 0,
               currentTurnProgress := false, lastFailureAt := f.at)
    else
      var th := if BlockAttributed(started, f.at) then started.(goalHeld := false) else started;
      var decision := ClassifyCompletion(f.completion, cfg);
      if !decision.retry then Clear(th)
      else
        var limits := LimitsForDecision(decision, cfg);
        if now - th.recoveryStartedAt > MAX_RECOVERY_DURATION || attempt > limits.attempts
            || consecutive > limits.consecutive
        then StopExhausted(th, f, now, attempt, consecutive, origin, decision.kind, limits, cfg)
        else
          Scheduled(th, f, now, attempt, consecutive, origin, parentNotified, decision.kind, limits, cfg)
  }

  function Scheduled(th: ThreadState, f: Failure, now: Time, attempt: int, consecutive: int, origin: Time,
                     parentNotified: bool, kind: FailureClass, limits: Limits, cfg: Config): ThreadState {
    th.(recoveryAttempts := attempt, consecutiveRetries := consecutive, currentTurnProgress := false,
        lastFailureAt := f.at, awaiting := None, stopped := None, goalStop := None,
        pending := Some(Pending(
          Retry(FaultOf(f, origin, kind), attempt, limits.attempts, consecutive, limits.consecutive, 0, parentNotified,
              false),
          now + Delay(consecutive, cfg))))
  }

  function StopExhausted(th: ThreadState, f: Failure, now: Time, attempt: int, consecutive: int, origin: Time,
                         kind: FailureClass, limits: Limits, cfg: Config): ThreadState {
    var reason :=
      if kind.EmptyResponse? && th.goalStatus.Active? then GoalEmptyResponseLimit
      else if now - th.recoveryStartedAt > MAX_RECOVERY_DURATION then RecoveryTimeLimit
      else StopReasonForClass(kind, cfg, attempt, limits.attempts, consecutive, limits.consecutive);
    th.(pending := None, awaiting := None,
        recoveryAttempts := CompletedCount(attempt), consecutiveRetries := CompletedCount(consecutive),
        currentTurnProgress := false, lastFailureAt := f.at,
        stopped := Some(Stopped(FaultOf(f, origin, kind), now, CompletedCount(attempt), limits.attempts,
                                CompletedCount(consecutive), limits.consecutive, reason, false, None)),
        goalStop := if reason.GoalEmptyResponseLimit? then Some(GoalStop(f.key, reason, now, now, 0)) else th.goalStop)
  }

  function OnTaskComplete(th: ThreadState, f: Failure, now: Time, cfg: Config): Option<ThreadState> {
    if GoalLimitStopped(th) then Some(th)
    else if f.turn != "" && f.turn == th.lastAbortedTurn then Some(Clear(th))
    else if th.awaiting.Some? then
      var aw := th.awaiting.value;
      if aw.retryTurn == "" || aw.retryTurn != f.turn then None
      else if Succeeded(f.completion) then Some(Clear(th))
      else
        var consecutive := if th.currentTurnProgress then 1 else aw.retry.consecutive + 1;
        Some(ScheduleFailure(th.(currentTurnProgress := false, awaiting := None), f, now, aw.retry.attempt + 1,
                             consecutive, aw.retry.fault.originStartedAt, aw.retry.parentNotified, cfg))
    else if th.pending.Some? then
      if th.pending.value.retry.fault.failedTurn != f.turn then None
      else if Succeeded(f.completion) then Some(Clear(th))
      else None
    else if Succeeded(f.completion) then Some(Clear(th))
    else
      Some(ScheduleFailure(th.(currentTurnProgress := false), f, now, 1, 1, ExternalTurnOrigin(th, f.turn, f.at),
          false, cfg))
  }

  predicate StaleGoalUpdate(th: ThreadState, at: Time, updatedAt: Time) {
    || (th.goalUpdatedAt != 0 && updatedAt < th.goalUpdatedAt)
    || (th.goalObservedAt != 0 && at <= th.goalObservedAt)
  }

  function OnGoalUpdated(before: ThreadState, at: Time, status: GoalStatus, updatedAt: Time): Option<ThreadState> {
    if StaleGoalUpdate(before, at, updatedAt) then None
    else
      var th := before.(goalStatus := status, goalUpdatedAt := updatedAt, goalObservedAt := at);
      if GoalLimitRestartPending(th) && status.Blocked? then Some(th.(goalHeld := true))
      else if GoalLimitStopped(th) && status.Active? then Some(ActivatedWhileStopped(th, before.goalStatus))
      else if GoalLimitStopped(th) && EndsGoalStop(status) then
        Some(th.(goalStop := None, stopped := Some(th.stopped.value.(reason := GoalEmptyResponseLimit)),
            goalHeld := true))
      else Some(HoldDecided(th))
  }

  predicate EndsGoalStop(status: GoalStatus) {
    status.Blocked? || status.Paused? || status.Completed? || status.Complete? || status.UsageLimited?
        || status.BudgetLimited?
  }

  /** An active goal beside a goal-limit stop: only an explicit later activation clears the stop. */
  function ActivatedWhileStopped(th: ThreadState, previous: GoalStatus): ThreadState
    requires th.stopped.Some?
  {
    if th.stopped.value.reason.GoalEmptyResponseBlockFailed? then th.(goalHeld := true)
    else if !previous.Active? && th.goalStop.None? then
      th.(stopped := None, recoveryAttempts := 0, consecutiveRetries := 0, currentTurnProgress := false,
          goalHeld := false)
    else th.(goalHeld := false)
  }

  function HoldDecided(th: ThreadState): ThreadState {
    var held := th.(goalHeld := GoalRequiresHold(th.goalStatus, th.goalUpdatedAt, th.lastFailureAt));
    if !held.goalHeld || HeldConversationStillAllowed(held, th.goalStatus, th.goalUpdatedAt) then held else Clear(held)
  }

  function OnRecoveryNotice(t: ThreadId, th: ThreadState, child: ThreadId, failure: EventKey): Option<ThreadState> {
    var markPending := child == t && th.pending.Some? && th.pending.value.retry.fault.key == failure;
    var markAwaiting := child == t && th.awaiting.Some? && th.awaiting.value.retry.fault.key == failure;
    if !markPending && !markAwaiting then None
    else
      var th1 := if markPending
        then th.(pending := Some(th.pending.value.(retry := th.pending.value.retry.(parentNotified := true)))) else th;
      Some(if markAwaiting
        then th1.(awaiting := Some(th.awaiting.value.(retry := th.awaiting.value.retry.(parentNotified := true))))
            else th1)
  }

  function KindOf(e: Event): EventKind {
    match e
    case TaskStarted(_, _) => StartedKind
    case TaskUserInput(_, _) => InputKind
    case TaskProgress(_) => ProgressKind
    case TaskComplete(_, _, _) => CompleteKind
    case TurnAborted(_, _) => AbortedKind
    case GoalUpdated(_, _, _) => GoalKind
    case RecoveryNotice(_, _, _) => NoticeKind
  }

  function TurnOf(e: Event): TurnId {
    match e
    case TaskStarted(turn, _) => turn
    case TaskUserInput(turn, _) => turn
    case TaskComplete(turn, _, _) => turn
    case TurnAborted(turn, _) => turn
    case _ => ""
  }

  function KeyOf(item: Item): EventKey {
    EventKey(item.thread, KindOf(item.event), TurnOf(item.event), item.event.at, item.digest)
  }

  /** `handleEventLocked` after the duplicate check. */
  function OnEvent(th: ThreadState, item: Item, now: Time, cfg: Config): Option<ThreadState> {
    match item.event
    case TaskStarted(turn, at) => OnTaskStarted(th, turn, at)
    case TaskUserInput(turn, _) => OnTaskUserInput(th, turn)
    case TaskProgress(at) => OnTaskProgress(th, at)
    case TaskComplete(turn, at, completion) =>
      OnTaskComplete(th, Failure(KeyOf(item), turn, at, completion, item.codexHome, item.rolloutPath), now, cfg)
    case TurnAborted(turn, at) => OnTurnAborted(th, turn, at)
    case GoalUpdated(at, status, updatedAt) => OnGoalUpdated(th, at, status, updatedAt)
    case RecoveryNotice(_, child, failure) => OnRecoveryNotice(item.thread, th, child, failure)
  }

  /** `applyControlCommandLocked` on a known thread. */
  function OnCommand(th: ThreadState, kind: CommandKind, now: Time, cfg: Config): Option<ThreadState> {
    match kind
    case RetryNow =>
      if th.pending.None? then None else Some(th.(pending := Some(th.pending.value.(dueAt := now))))
    case CancelRetry =>
      if th.pending.None? then None
      else Some(th.(pending := None, recoveryAttempts := 0, consecutiveRetries := 0, currentTurnProgress := false,
          goalStop := None))
    case RestartRetry =>
      if th.stopped.None? then None
      else
        var s := th.stopped.value;
        var limits := LimitsFor(s.fault.kind, cfg);
        Some(th.(stopped := None, goalStop := None, goalHeld := false, recoveryAttempts := 1, consecutiveRetries := 1,
                 recoveryStartedAt := now,
                 pending := Some(Pending(
                   Retry(s.fault, 1, limits.attempts, 1, limits.consecutive, 0, false, IsGoalLimitReason(s.reason)),
                       now))))
  }

  /** A pending entry that exceeds limits which have just been lowered. */
  function StopOverBudget(th: ThreadState, now: Time, cfg: Config): ThreadState
    requires th.pending.Some?
  {
    var r := th.pending.value.retry;
    var reason :=
      if r.fault.kind.EmptyResponse? && th.goalStatus.Active? then GoalEmptyResponseLimit
      else StopReasonForClass(r.fault.kind, cfg, r.attempt, r.maxAttempts, r.consecutive, r.maxConsecutive);
    th.(pending := None, awaiting := None,
        recoveryAttempts := CompletedCount(r.attempt), consecutiveRetries := CompletedCount(r.consecutive),
        stopped := Some(Stopped(r.fault, now, CompletedCount(r.attempt), r.maxAttempts,
                                CompletedCount(r.consecutive), r.maxConsecutive, reason, false, None)),
        goalStop := if reason.GoalEmptyResponseLimit? then Some(GoalStop(r.fault.key, reason, now, now, 0))
            else th.goalStop)
  }

  function Relimit(r: Retry, cfg: Config): Retry {
    var l := LimitsFor(r.fault.kind, cfg);
    r.(maxAttempts := l.attempts, maxConsecutive := l.consecutive)
  }

  /** The loop body of `reloadConfigLocked`. */
  function Reloaded(th: ThreadState, now: Time, cfg: Config): ThreadState {
    var th1 := if th.awaiting.Some?
      then th.(awaiting := Some(th.awaiting.value.(retry := Relimit(th.awaiting.value.retry, cfg)))) else th;
    if th1.pending.None? then th1
    else
      var th2 := th1.(pending := Some(th1.pending.value.(retry := Relimit(th1.pending.value.retry, cfg))));
      if WithinLimits(th2.pending.value.retry, cfg) then th2 else StopOverBudget(th2, now, cfg)
  }

  /** The loop body of `reconcileStartupState`. */
  function RestoredAtStartup(th: ThreadState, now: Time): ThreadState {
    if th.awaiting.None? || th.awaiting.value.retryTurn != "" then th
    else th.(awaiting := None, pending := Some(Pending(th.awaiting.value.retry, now)))
  }

  function LoadedRetry(r: Retry, attempts: int, consecutive: int, lastFailureAt: Time, fixAttempt: bool): Retry {
    var attempt := if !fixAttempt || r.attempt >= 1 then r.attempt else if attempts >= 1 then attempts else 1;
    var cons := if r.consecutive >= 1 then r.consecutive else if consecutive >= 1 then consecutive else attempt;
    r.(attempt := attempt, consecutive := cons,
       maxConsecutive := if r.maxConsecutive < 1 then r.maxAttempts else r.maxConsecutive,
       fault := if r.fault.failedAt == 0 then r.fault.(failedAt := lastFailureAt) else r.fault)
  }

  /** The repair loop of `loadState` on a record written by this version. */
  function Loaded(th: ThreadState): ThreadState {
    th.(
      pending := if th.pending.None? then None else
        Some(th.pending.value.(retry := LoadedRetry(th.pending.value.retry, th.recoveryAttempts, th.consecutiveRetries,
            th.lastFailureAt, true))),
      awaiting := if th.awaiting.None? then None else
        Some(th.awaiting.value.(retry := LoadedRetry(th.awaiting.value.retry, th.recoveryAttempts,
            th.consecutiveRetries, th.lastFailureAt, false))),
      stopped := if th.stopped.None? then None else
        Some(th.stopped.value.(
          consecutive := if th.stopped.value.consecutive < 1 then th.stopped.value.attempts
              else th.stopped.value.consecutive,
          maxConsecutive := if th.stopped.value.maxConsecutive < 1 then th.stopped.value.maxAttempts
              else th.stopped.value.maxConsecutive)),
      goalStop := if th.goalStop.Some? && (th.stopped.None? || th.goalStop.value.key != th.stopped.value.fault.key)
          then None else th.goalStop)
  }

  function StopAwaiting(th: ThreadState, now: Time, reason: Reason): ThreadState
    requires th.awaiting.Some?
  {
    var r := th.awaiting.value.retry;
    th.(pending := None, awaiting := None, goalStop := None,
        recoveryAttempts := CompletedCount(r.attempt), consecutiveRetries := CompletedCount(r.consecutive),
        stopped := Some(Stopped(r.fault, now, CompletedCount(r.attempt), r.maxAttempts,
                                CompletedCount(r.consecutive), r.maxConsecutive, reason, false, None)))
  }

  /** `rescheduleAwaitingWithPolicyLocked`. */
  function RescheduleAwaiting(th: ThreadState, now: Time, reason: Reason, countFailure: bool, cfg: Config): ThreadState
    requires th.awaiting.Some?
  {
    var r := th.awaiting.value.retry;
    var failures := if countFailure then r.dispatchFailures + 1 else r.dispatchFailures;
    if NeedsAction(reason) || (countFailure && failures >= cfg.controllerFailureLimit)
        then StopAwaiting(th, now, reason)
    else th.(awaiting := None, pending := Some(Pending(r.(dispatchFailures := failures), now + Delay(failures, cfg))))
  }

  /** `stopPendingForControllerLocked`: the marker says whether the failure is known to be unsent. */
  function StopPending(th: ThreadState, now: Time, reason: Reason): ThreadState
    requires th.pending.Some?
  {
    var r := th.pending.value.retry;
    var unsent :=
      && reason.SharedDisabled? && r.dispatchFailures == 0 && !r.parentNotified && !r.goalLimitRestart
      && r.fault.failedAt != 0 && th.lastAutoRetryAt <= r.fault.failedAt;
    th.(pending := None, awaiting := None, goalStop := None, currentTurnProgress := false,
        recoveryAttempts := CompletedCount(r.attempt), consecutiveRetries := CompletedCount(r.consecutive),
        stopped := Some(Stopped(r.fault, now, CompletedCount(r.attempt), r.maxAttempts,
                                CompletedCount(r.consecutive), r.maxConsecutive, reason, false, Some(unsent))))
  }

  predicate Reopenable(th: ThreadState, now: Time, cfg: Config) {
    && CanReopen(th, now)
    && var s := th.stopped.value;
    && var l := LimitsFor(s.fault.kind, cfg);
    && s.attempts + 1 <= Min(l.attempts, s.maxAttempts)
    && s.consecutive + 1 <= Min(l.consecutive, s.maxConsecutive)
  }

  /** The loop body of `reopenRestartRequiredLocked` on an entry that passes its checks. */
  function Reopened(th: ThreadState, now: Time, cfg: Config): ThreadState
    requires th.stopped.Some?
  {
    var s := th.stopped.value;
    var l := LimitsFor(s.fault.kind, cfg);
    th.(stopped := None,
        recoveryStartedAt := if th.recoveryStartedAt == 0 then s.fault.failedAt else th.recoveryStartedAt,
        recoveryAttempts := s.attempts + 1, consecutiveRetries := s.consecutive + 1,
        pending := Some(Pending(
          Retry(s.fault, s.attempts + 1, Min(l.attempts, s.maxAttempts), s.consecutive + 1,
              Min(l.consecutive, s.maxConsecutive),
                0, false, false), now)))
  }

  predicate Unacknowledged(th: ThreadState, now: Time) {
    th.awaiting.Some? && th.awaiting.value.retryTurn == "" && th.awaiting.value.startDeadline <= now
  }

  function LifecycleStart(aw: Awaiting): Time {
    if aw.startedAt == 0 then aw.dispatchStartedAt else aw.startedAt
  }

  /** Whether `reconcileAwaitingLifecycle` probes this thread at `now`. */
  predicate ProbeDue(th: ThreadState, now: Time, cfg: Config) {
    && th.awaiting.Some?
    && var aw := th.awaiting.value;
    && aw.retryTurn != "" && LifecycleStart(aw) != 0
    && now - LifecycleStart(aw) >= cfg.startAckTimeoutSeconds * SECOND
    && (aw.lastLifecycleCheckAt == 0 || now - aw.lastLifecycleCheckAt >= PROBE_INTERVAL)
  }

  function ProbeStarted(th: ThreadState, now: Time): ThreadState
    requires th.awaiting.Some?
  {
    th.(awaiting := Some(th.awaiting.value.(lastLifecycleCheckAt := now)))
  }

  /** `advanceInactiveAwaitingLocked`. */
  function AdvanceInactive(th: ThreadState, now: Time, cfg: Config): ThreadState
    requires th.awaiting.Some?
  {
    var aw := th.awaiting.value;
    var r := aw.retry;
    var attempt := r.attempt + 1;
    var consecutive := if th.currentTurnProgress then 1 else r.consecutive + 1;
    if attempt > r.maxAttempts || consecutive > r.maxConsecutive then
      var reason :=
        if r.fault.kind.EmptyResponse? && th.goalStatus.Active? then GoalEmptyResponseLimit
        else StopReasonForClass(r.fault.kind, cfg, attempt, r.maxAttempts, consecutive, r.maxConsecutive);
      th.(pending := None, awaiting := None, currentTurnProgress := false,
          recoveryAttempts := CompletedCount(attempt), consecutiveRetries := CompletedCount(consecutive),
          stopped := Some(Stopped(r.fault, now, CompletedCount(attempt), r.maxAttempts, CompletedCount(consecutive),
              r.maxConsecutive,
                                  reason, LifecycleStart(aw) != 0 && now - LifecycleStart(aw) > DISPLAY_WINDOW, None)),
          goalStop := if reason.GoalEmptyResponseLimit? then Some(GoalStop(r.fault.key, reason, now, now, 0))
              else th.goalStop)
    else
      th.(recoveryAttempts := attempt, consecutiveRetries := consecutive, currentTurnProgress := false,
          awaiting := None, stopped := None, goalStop := None,
          pending := Some(Pending(r.(attempt := attempt, consecutive := consecutive), now + Delay(consecutive, cfg))))
  }

  /** A probe either fails or reports whether the turn is still active. */
  datatype Answer = ProbeFailed(reason: Reason) | ProbeStatus(active: bool)

  function Answered(th: ThreadState, answer: Answer, now: Time, cfg: Config): ThreadState
    requires th.awaiting.Some?
  {
    var aw := th.awaiting.value;
    match answer
    case ProbeFailed(reason) =>
      var failures := aw.retry.dispatchFailures + 1;
      if NeedsAction(reason) || failures >= cfg.controllerFailureLimit then StopAwaiting(th, now, reason)
      else th.(awaiting := Some(aw.(retry := aw.retry.(dispatchFailures := failures))))
    case ProbeStatus(active) =>
      var seen := aw.(retry := aw.retry.(dispatchFailures := 0), lifecycleChecks := if active then 0
          else aw.lifecycleChecks + 1);
      var th1 := th.(awaiting := Some(seen));
      if active || seen.lifecycleChecks < CONFIRMATIONS then th1 else AdvanceInactive(th1, now, cfg)
  }

  /** A hold that neither a user restart nor a later external turn overrides. */
  predicate HoldBlocks(th: ThreadState) {
    th.goalHeld && !GoalLimitRestartPending(th) && !HeldConversationStillAllowed(th, th.goalStatus, th.goalUpdatedAt)
  }

  function HoldCleared(th: ThreadState): ThreadState {
    if th.pending.None? && th.awaiting.None? then th
    else th.(pending := None, awaiting := None, recoveryAttempts := 0, consecutiveRetries := 0,
             currentTurnProgress := false, stopped := None)
  }

  predicate DuePending(th: ThreadState, now: Time) {
    th.pending.Some? && th.pending.value.dueAt <= now && th.awaiting.None?
  }

  predicate PastDeadline(th: ThreadState, now: Time) {
    th.recoveryStartedAt != 0 && now - th.recoveryStartedAt > MAX_RECOVERY_DURATION
  }

  /** The candidate loop of `dispatchDueLocked` on one thread. */
  function Swept(th: ThreadState, active: bool, now: Time): ThreadState {
    if HoldBlocks(th) then HoldCleared(th)
    else if DuePending(th, now) && !active && PastDeadline(th, now) then StopPending(th, now, RecoveryTimeLimit)
    else th
  }

  predicate Candidate(th: ThreadState, active: bool, now: Time) {
    !HoldBlocks(th) && DuePending(th, now) && !active && !PastDeadline(th, now)
  }

  function Dispatched(th: ThreadState, now: Time, cfg: Config): ThreadState
    requires th.pending.Some?
  {
    th.(pending := None, lastAutoRetryAt := now,
        awaiting := Some(Awaiting(th.pending.value.retry, "", Dispatching, now,
                                  now + cfg.startAckTimeoutSeconds * SECOND, 0, 0, 0)))
  }

  /** The check of `runJob` when it starts. */
  predicate RecoveryCurrent(th: ThreadState, r: Retry) {
    th.awaiting.Some? && th.awaiting.value.retry.fault.key == r.fault.key
        && th.awaiting.value.retry.attempt == r.attempt
  }

  predicate RecoveryMayStart(th: ThreadState, r: Retry) {
    && RecoveryCurrent(th, r)
    && !(th.goalHeld && !r.goalLimitRestart && !HeldConversationStillAllowed(th, th.goalStatus, th.goalUpdatedAt))
  }

  /** A result that says the parent was notified is remembered on the entry. */
  function Notified(th: ThreadState, result: Result): ThreadState
    requires th.awaiting.Some?
  {
    if !result.Error? && result.parentNotified
    then th.(awaiting := Some(th.awaiting.value.(retry := th.awaiting.value.retry.(parentNotified := true)))) else th
  }

  function WithoutFailures(th: ThreadState): ThreadState
    requires th.awaiting.Some?
  {
    th.(awaiting := Some(th.awaiting.value.(retry := th.awaiting.value.retry.(dispatchFailures := 0))))
  }

  function Skipped(th: ThreadState, reason: Reason): ThreadState {
    var held := HoldStatusForReason(reason);
    if held.None? then Clear(th)
    else if held.value.NoGoal? then Clear(th).(goalHeld := true)
    else Clear(th).(goalHeld := true, goalStatus := held.value)
  }

  function Confirmed(th: ThreadState, action: Action, at: Time, cfg: Config): ThreadState
    requires th.awaiting.Some?
  {
    var quiet := WithoutFailures(th);
    quiet.(awaiting := Some(quiet.awaiting.value.(action := action,
        startDeadline := at + cfg.startAckTimeoutSeconds * SECOND)))
  }

  /** `runJob` with a result for the entry that is still awaiting it. */
  function RecoveryFinished(before: ThreadState, result: Result, at: Time, cfg: Config): ThreadState
    requires before.awaiting.Some?
  {
    var th := Notified(before, result);
    match result
    case Error(_) => RescheduleAwaiting(th, at, FailureReason(result), true, cfg)
    case RetryLater(_, _) => RescheduleAwaiting(th, at, FailureReason(result), true, cfg)
    case UserActive(_, _) => RescheduleAwaiting(WithoutFailures(th), at, FailureReason(result), false, cfg)
    case NotApplicable(reason, _) => Skipped(th, reason)
    case Accepted(action, _, _) => Confirmed(th, action, at, cfg)
  }

  predicate GoalBlockCurrent(th: ThreadState, key: EventKey) {
    th.goalStop.Some? && th.goalStop.value.key == key && GoalLimitStopped(th)
  }

  function RescheduleGoalBlock(th: ThreadState, now: Time, reason: Reason, cfg: Config): ThreadState
    requires th.goalStop.Some? && th.stopped.Some?
  {
    var failures := th.goalStop.value.dispatchFailures + 1;
    if NeedsAction(reason) || failures >= cfg.controllerFailureLimit then
      th.(goalStop := None, goalHeld := true,
          stopped := Some(th.stopped.value.(reason := if NeedsAction(reason) then reason
              else GoalEmptyResponseBlockFailed)))
    else
      th.(goalStop := Some(th.goalStop.value.(dispatchFailures := failures, dueAt := now + Delay(failures, cfg))))
  }

  function BlockedStatus(reason: Reason): GoalStatus {
    match reason
    case GoalAlreadyPaused => Paused
    case GoalAlreadyCompleted => Completed
    case GoalAlreadyUsageLimited => UsageLimited
    case GoalAlreadyBudgetLimited => BudgetLimited
    case _ => Blocked
  }

  /** `runGoalBlockJob` with a result for the request that is still open. */
  function GoalBlockFinished(th: ThreadState, result: Result, at: Time, cfg: Config): ThreadState
    requires th.goalStop.Some? && th.stopped.Some?
  {
    match result
    case Error(_) => RescheduleGoalBlock(th, at, FailureReason(result), cfg)
    case RetryLater(_, _) => RescheduleGoalBlock(th, at, FailureReason(result), cfg)
    case UserActive(_, _) => RescheduleGoalBlock(th, at, FailureReason(result), cfg)
    case NotApplicable(_, _) => RescheduleGoalBlock(th, at, ControllerInvalidResult, cfg)
    case Accepted(action, reason, _) =>
      if action.GoalBlock? then
        th.(goalStop := None, stopped := Some(th.stopped.value.(reason := GoalEmptyResponseLimit)),
            goalStatus := BlockedStatus(reason), goalObservedAt := at, goalHeld := true)
      else RescheduleGoalBlock(th, at, ControllerInvalidResult, cfg)
  }
}
