/** The records of the watchdog: configuration, lifecycle events and the per-thread retry state. */
module Types {

  datatype Option<+T> = None | Some(value: T)

  /** Nanoseconds; 0 is Go's zero time, so `t == 0` is `t.IsZero()`. */
  type Time = int

  const SECOND: int := 1_000_000_000
  const MAX_RECOVERY_DURATION: int := 30 * 60 * SECOND
  const DISPLAY_WINDOW: int := 3600 * SECOND
  const NATIVE_GOAL_WINDOW: int := 5 * SECOND
  const PROBE_INTERVAL: int := 5 * SECOND
  const CONFIRMATIONS: int := 2

  type ThreadId = string

  /** "" stands for a record without a turn id. */
  type TurnId = string

  datatype FailureClass =
    | NoFailure | Transient | RateLimit | Server | AuthTransient | AuthLimited | EmptyResponse | Unknown

  datatype DelayStrategy = Exponential | Linear | Fixed

  datatype Config = Config(
    initialDelaySeconds: int, maxDelaySeconds: int, delayIncrementSeconds: int, delayStrategy: DelayStrategy,
    maxConsecutiveRetries: int, maxRecoveryAttempts: int, maxParallelRetries: int, startAckTimeoutSeconds: int,
    authMaxAttempts: int, unknownMaxAttempts: int, controllerFailureLimit: int, sharedEnabled: bool)

  /** The checks of `Config.validate` on the fields above. */
  predicate ValidConfig(c: Config) {
    && 1 <= c.initialDelaySeconds <= 3600
    && 1 <= c.delayIncrementSeconds <= 3600
    && 1 <= c.maxDelaySeconds <= 86400
    && (c.delayStrategy.Fixed? || c.initialDelaySeconds <= c.maxDelaySeconds)
    && 1 <= c.maxConsecutiveRetries <= 100
    && 1 <= c.maxRecoveryAttempts <= 1000
    && 1 <= c.maxParallelRetries <= 16
    && 10 <= c.startAckTimeoutSeconds <= 300
    && 1 <= c.authMaxAttempts <= 1000
    && 1 <= c.unknownMaxAttempts
    && 1 <= c.controllerFailureLimit <= 20
  }

  /** Reason codes. `OtherReason` is any code the watchdog compares with nothing. */
  datatype Reason =
    | NoReason
    | GoalEmptyResponseLimit | GoalEmptyResponseBlockFailed
    | RecoveryTimeLimit | RecoveryAttemptLimit | ConsecutiveRetryLimit | RetryLimit | AuthAttemptLimit
    | StartNotAcknowledged
    | CodexNotRunning | CodexRestartRequired | CodexHomeNotShared
    | PortReserved | PortConflict | EnvironmentConflict | OwnershipUnknown
    | SharedDisabled | ConfigInvalid | MigrationDeferred | IpcGoalControlUnsupported
    | ChannelUnavailable | BackgroundDispatchFailed | ControllerTimeout | ControllerInvalidResult
    | ControllerUnavailable
    | GoalAlreadyPaused | GoalAlreadyCompleted | GoalAlreadyUsageLimited | GoalAlreadyBudgetLimited
    | GoalPaused | GoalCompleted | GoalUsageLimited | GoalBudgetLimited
    | GoalBlockedBeforeFailure | GoalStatusChanged | GoalStatusUnsupported
    | IpcTurnStarted | IpcGoalTurnStarted
    | OtherReason(code: string)

  /** The daemon's `controllerState`. */
  datatype Controller = Starting | Ready | OfficialIpcReady | Failing(reason: Reason)

  datatype GoalStatus =
    | NoGoal | Active | Blocked | Paused | Completed | Complete | UsageLimited | BudgetLimited
    | OtherStatus(text: string)

  datatype Action =
    | NoAction | Dispatching | GoalResume | GoalActive | ConversationContinue | SubagentContinue | GoalBlock

  datatype EventKind = StartedKind | InputKind | ProgressKind | CompleteKind | AbortedKind | GoalKind | NoticeKind

  /** A processed-event key: thread, kind, turn, timestamp and a digest of the remaining fields. */
  datatype EventKey = EventKey(thread: ThreadId, kind: EventKind, turn: TurnId, at: Time, digest: string)

  /** What `classifyFailure` reads in an error text, one flag per text test and the extracted status. */
  datatype ErrorText = ErrorText(
    blank: bool, userCancelled: bool, ccSwitchUpstream: bool, permanent: bool, status: int,
    authUnavailable: bool, capacity: bool, network: bool, authWords: bool)

  datatype Completion = Completion(error: ErrorText, finalKnown: bool, finalPresent: bool)

  datatype Event =
    | TaskStarted(turn: TurnId, at: Time)
    | TaskUserInput(turn: TurnId, at: Time)
    | TaskProgress(at: Time)
    | TaskComplete(turn: TurnId, at: Time, completion: Completion)
    | TurnAborted(turn: TurnId, at: Time)
    | GoalUpdated(at: Time, status: GoalStatus, updatedAt: Time)
    | RecoveryNotice(at: Time, child: ThreadId, failure: EventKey)

  /** An event as the scanner hands it over; `digest` is the hashed part of its key. */
  datatype Item = Item(thread: ThreadId, event: Event, digest: string, codexHome: string, rolloutPath: string)

  /** The failure a retry answers. */
  datatype Fault = Fault(
    key: EventKey, failedTurn: TurnId, failedAt: Time, originStartedAt: Time, kind: FailureClass,
    codexHome: string, rolloutPath: string)

  /** The payload that a pending entry, an awaiting entry and a recovery job share. */
  datatype Retry = Retry(
    fault: Fault, attempt: int, maxAttempts: int, consecutive: int, maxConsecutive: int,
    dispatchFailures: int, parentNotified: bool, goalLimitRestart: bool)

  datatype Pending = Pending(retry: Retry, dueAt: Time)

  datatype Awaiting = Awaiting(
    retry: Retry, retryTurn: TurnId, action: Action, dispatchStartedAt: Time, startDeadline: Time,
    startedAt: Time, lifecycleChecks: int, lastLifecycleCheckAt: Time)

  datatype Stopped = Stopped(
    fault: Fault, stoppedAt: Time, attempts: int, maxAttempts: int, consecutive: int, maxConsecutive: int,
    reason: Reason, historical: bool, transportBlocked: Option<bool>)

  datatype GoalStop = GoalStop(key: EventKey, reason: Reason, requestedAt: Time, dueAt: Time, dispatchFailures: int)

  datatype ThreadState = ThreadState(
    recoveryAttempts: int, consecutiveRetries: int, recoveryStartedAt: Time,
    lastFailureAt: Time, lastAutoRetryAt: Time,
    goalStatus: GoalStatus, goalUpdatedAt: Time, goalObservedAt: Time, goalHeld: bool,
    lastStartedTurn: TurnId, lastStartedAt: Time, lastExternalTurn: TurnId, lastExternalAt: Time,
    currentTurnProgress: bool, lastAbortedTurn: TurnId, lastAbortedAt: Time,
    pending: Option<Pending>, awaiting: Option<Awaiting>, stopped: Option<Stopped>, goalStop: Option<GoalStop>)

  /** Go's zero `ThreadState`, which a map lookup of an unknown thread yields. */
  const EmptyThread: ThreadState := ThreadState(
    0, 0, 0, 0, 0, NoGoal, 0, 0, false, "", 0, "", 0, false, "", 0, None, None, None, None)

  datatype Job =
    | RecoveryJob(thread: ThreadId, retry: Retry)
    | GoalBlockJob(thread: ThreadId, key: EventKey, dispatchFailures: int, kind: FailureClass, attempts: int,
                   codexHome: string, rolloutPath: string)

  /** What `Resume` returns after validation: an error code, or an outcome. */
  datatype Result =
    | Error(reason: Reason)
    | RetryLater(reason: Reason, parentNotified: bool)
    | UserActive(reason: Reason, parentNotified: bool)
    | NotApplicable(reason: Reason, parentNotified: bool)
    | Accepted(action: Action, reason: Reason, parentNotified: bool)

  datatype CommandKind = RetryNow | CancelRetry | RestartRetry
  datatype Command = Command(kind: CommandKind, thread: ThreadId)
}
