/** The pure decisions: classification, retry limits, stop reasons and the goal-hold predicates. */
module Policy {
  import opened Types

  datatype Decision = Decision(retry: bool, kind: FailureClass, maxAttempts: int, maxConsecutive: int)

  function ClassifyFailure(text: ErrorText, cfg: Config): (d: Decision)
    ensures d.retry <==> !d.kind.NoFailure?
    ensures !d.kind.EmptyResponse?
  {
    if text.blank then Decision(false, NoFailure, 0, 0)
    else if text.userCancelled then Decision(false, NoFailure, 0, 0)
    else if text.ccSwitchUpstream then Decision(true, Transient, 0, 0)
    else if text.permanent then Decision(false, NoFailure, 0, 0)
    else if text.status == 408 || text.status == 425 then Decision(true, Transient, 0, 0)
    else if text.status == 429 then Decision(true, RateLimit, 0, 0)
    else if 500 <= text.status <= 599 then Decision(true, Server, 0, 0)
    else if text.status in {400, 404, 405, 409, 410, 413, 415, 422} then Decision(false, NoFailure, 0, 0)
    else if text.authUnavailable then Decision(true, AuthTransient, 0, 0)
    else if text.capacity then Decision(true, RateLimit, 0, 0)
    else if text.network then Decision(true, Transient, 0, 0)
    else if text.status == 401 || text.status == 403 || text.authWords then
      Decision(true, AuthLimited, cfg.authMaxAttempts, 0)
    else Decision(true, Unknown, cfg.unknownMaxAttempts, 0)
  }

  function ClassifyCompletion(c: Completion, cfg: Config): (d: Decision)
    ensures d.retry ==> !Succeeded(c)
  {
    if !c.error.blank then ClassifyFailure(c.error, cfg)
    else if c.finalKnown && !c.finalPresent then Decision(true, EmptyResponse, 0, 0)
    else Decision(false, NoFailure, 0, 0)
  }

  predicate Succeeded(c: Completion) {
    c.error.blank && (!c.finalKnown || c.finalPresent)
  }

  // ---- the classes, one by one ----

  const CLIENT_ERRORS: set<int> := {400, 404, 405, 409, 410, 413, 415, 422}

  /** A status that alone decides the class. */
  predicate Coded(t: ErrorText) { t.status in {408, 425, 429} || 500 <= t.status <= 599 }

  /** A failure that is worth a retry: not the user's, and neither permanent nor a client error, unless the switch
      reports an upstream problem. */
  predicate Retryable(t: ErrorText) {
    && !t.blank && !t.userCancelled
    && (t.ccSwitchUpstream || (!t.permanent && t.status !in CLIENT_ERRORS))
  }

  /** Only text decides: no upstream problem is reported and no status does. */
  predicate ByText(t: ErrorText) { Retryable(t) && !t.ccSwitchUpstream && !Coded(t) }

  /** Which failures are in which class, and how many attempts the class gets. */
  lemma ClassesAre(t: ErrorText, cfg: Config)
    ensures var d := ClassifyFailure(t, cfg);
      && (d.retry <==> Retryable(t))
      && (d.kind.Server? <==> Retryable(t) && !t.ccSwitchUpstream && 500 <= t.status <= 599)
      && (d.kind.RateLimit? <==>
            (Retryable(t) && !t.ccSwitchUpstream && t.status == 429) || (ByText(t) && !t.authUnavailable && t.capacity))
      && (d.kind.Transient? <==>
            || (Retryable(t) && (t.ccSwitchUpstream || t.status in {408, 425}))
            || (ByText(t) && !t.authUnavailable && !t.capacity && t.network))
      && (d.kind.AuthTransient? <==> ByText(t) && t.authUnavailable)
      && (d.kind.AuthLimited? <==>
            && ByText(t) && !t.authUnavailable && !t.capacity && !t.network
            && (t.status in {401, 403} || t.authWords))
      && d.maxConsecutive == 0
      && d.maxAttempts == (if d.kind.AuthLimited? then cfg.authMaxAttempts
                           else if d.kind.Unknown? then cfg.unknownMaxAttempts else 0)
  {
  }

  /** A completion without an error is a failure exactly if it is known to have no final answer. */
  lemma CompletionsAre(c: Completion, cfg: Config)
    ensures var d := ClassifyCompletion(c, cfg);
      && (d.kind.EmptyResponse? <==> c.error.blank && c.finalKnown && !c.finalPresent)
      && (!c.error.blank ==> d == ClassifyFailure(c.error, cfg))
      && (c.error.blank ==> (d.retry <==> d.kind.EmptyResponse?))
  {
  }

  // ---- limits ----

  function Min(a: int, b: int): int { if a <= b then a else b }

  datatype Limits = Limits(attempts: int, consecutive: int)

  function LimitsForDecision(d: Decision, cfg: Config): Limits {
    var attempts := if 0 < d.maxAttempts < cfg.maxRecoveryAttempts then d.maxAttempts else cfg.maxRecoveryAttempts;
    var consecutive :=
      if d.maxConsecutive > 0 then Min(d.maxConsecutive, cfg.maxConsecutiveRetries)
      else if d.maxAttempts > 0 && !d.kind.Unknown? then Min(d.maxAttempts, cfg.maxConsecutiveRetries)
      else cfg.maxConsecutiveRetries;
    Limits(attempts, consecutive)
  }

  function LimitsFor(kind: FailureClass, cfg: Config): (l: Limits)
    ensures ValidConfig(cfg) ==> l.attempts >= 1 && l.consecutive >= 1
  {
    var maxAttempts := match kind
      case AuthLimited => cfg.authMaxAttempts
      case Unknown => cfg.unknownMaxAttempts
      case _ => 0;
    LimitsForDecision(Decision(false, kind, maxAttempts, 0), cfg)
  }

  /** The attempts that the configuration allows a class. */
  function MostAttempts(kind: FailureClass, cfg: Config): int {
    match kind
    case AuthLimited => Min(cfg.authMaxAttempts, cfg.maxRecoveryAttempts)
    case Unknown => Min(cfg.unknownMaxAttempts, cfg.maxRecoveryAttempts)
    case _ => cfg.maxRecoveryAttempts
  }

  /** The attempts in a row without progress that it allows. */
  function MostWithoutProgress(kind: FailureClass, cfg: Config): int {
    if kind.AuthLimited? then Min(cfg.authMaxAttempts, cfg.maxConsecutiveRetries) else cfg.maxConsecutiveRetries
  }

  /** More than the configuration allows. */
  predicate Exceeds(kind: FailureClass, attempt: int, consecutive: int, cfg: Config) {
    || attempt > cfg.maxRecoveryAttempts || consecutive > cfg.maxConsecutiveRetries
    || (kind.AuthLimited? && (attempt > cfg.authMaxAttempts || consecutive > cfg.authMaxAttempts))
    || (kind.Unknown? && attempt > cfg.unknownMaxAttempts)
  }

  /** Limits recomputed from a stored class on reload agree with those of the fresh classification, and both are the
      smaller of what the class and the configuration allow. */
  lemma FreshLimitsAgree(c: Completion, cfg: Config)
    requires ClassifyCompletion(c, cfg).retry
    ensures LimitsForDecision(ClassifyCompletion(c, cfg), cfg) == LimitsFor(ClassifyCompletion(c, cfg).kind, cfg)
    ensures ValidConfig(cfg) ==>
      var kind := ClassifyCompletion(c, cfg).kind;
      LimitsFor(kind, cfg) == Limits(MostAttempts(kind, cfg), MostWithoutProgress(kind, cfg))
  {
  }

  /** The limits of a class are exceeded exactly if one of the configured numbers is. */
  lemma LimitsMean(kind: FailureClass, attempt: int, consecutive: int, cfg: Config)
    requires ValidConfig(cfg)
    ensures LimitsFor(kind, cfg) == Limits(MostAttempts(kind, cfg), MostWithoutProgress(kind, cfg))
    ensures attempt > LimitsFor(kind, cfg).attempts || consecutive > LimitsFor(kind, cfg).consecutive <==>
      Exceeds(kind, attempt, consecutive, cfg)
  {
  }

  predicate WithinLimits(r: Retry, cfg: Config) {
    var l := LimitsFor(r.fault.kind, cfg);
    r.attempt <= l.attempts && r.consecutive <= l.consecutive
  }

  function CompletedCount(next: int): int {
    if next - 1 < 0 then 0 else next - 1
  }

  function StopReason(attempt: int, limit: int, consecutive: int, consecutiveLimit: int): Reason {
    if attempt > limit then RecoveryAttemptLimit
    else if consecutive > consecutiveLimit then ConsecutiveRetryLimit
    else RetryLimit
  }

  function StopReasonForClass(kind: FailureClass, cfg: Config, attempt: int, limit: int,
                              consecutive: int, consecutiveLimit: int): Reason {
    if kind.AuthLimited? &&
       ((attempt > limit && limit < cfg.maxRecoveryAttempts && limit == cfg.authMaxAttempts) ||
        (consecutive > consecutiveLimit && consecutiveLimit < cfg.maxConsecutiveRetries &&
         consecutiveLimit == cfg.authMaxAttempts))
    then AuthAttemptLimit
    else StopReason(attempt, limit, consecutive, consecutiveLimit)
  }

  predicate NeedsAction(r: Reason) {
    || r.CodexNotRunning? || r.CodexRestartRequired? || r.CodexHomeNotShared? || r.PortReserved?
    || r.PortConflict? || r.EnvironmentConflict? || r.OwnershipUnknown? || r.SharedDisabled?
    || r.ConfigInvalid? || r.MigrationDeferred? || r.IpcGoalControlUnsupported?
  }

  predicate NeedsFailOpen(r: Reason) {
    || r.PortReserved? || r.PortConflict? || r.EnvironmentConflict? || r.OwnershipUnknown? || r.ConfigInvalid?
    || r.ChannelUnavailable? || r.BackgroundDispatchFailed? || r.ControllerTimeout?
    || r.ControllerInvalidResult? || r.ControllerUnavailable?
  }

  /** The code under which an error, a `retry_later` or a `user_active` result is recorded. */
  function FailureReason(r: Result): Reason {
    match r
    case Error(reason) => reason
    case RetryLater(reason, _) => if reason.NoReason? then ControllerUnavailable else reason
    case UserActive(reason, _) => if reason.NoReason? then ControllerUnavailable else reason
    case _ => ControllerUnavailable
  }

  predicate IsGoalLimitReason(r: Reason) {
    r.GoalEmptyResponseLimit? || r.GoalEmptyResponseBlockFailed?
  }

  predicate GoalLimitStopped(th: ThreadState) {
    th.stopped.Some? && IsGoalLimitReason(th.stopped.value.reason)
  }

  predicate GoalLimitRestartPending(th: ThreadState) {
    || (th.pending.Some? && th.pending.value.retry.goalLimitRestart)
    || (th.awaiting.Some? && th.awaiting.value.retry.goalLimitRestart)
  }

  predicate HeldConversationAllowed(status: GoalStatus, goalUpdatedAt: Time, originStartedAt: Time) {
    && originStartedAt != 0
    && (status.Paused? || status.Blocked?)
    && (goalUpdatedAt == 0 || goalUpdatedAt <= originStartedAt)
  }

  predicate HeldConversationStillAllowed(th: ThreadState, status: GoalStatus, goalUpdatedAt: Time) {
    var origin :=
      if th.pending.Some? then th.pending.value.retry.fault.originStartedAt
      else if th.awaiting.Some? then th.awaiting.value.retry.fault.originStartedAt
      else 0;
    HeldConversationAllowed(status, goalUpdatedAt, origin)
  }

  predicate GoalBlockedByFailure(goalUpdatedAt: Time, failureAt: Time) {
    && goalUpdatedAt != 0 && failureAt != 0
    && failureAt - 2 * SECOND <= goalUpdatedAt <= failureAt + 5 * SECOND
  }

  predicate GoalRequiresHold(status: GoalStatus, goalUpdatedAt: Time, failureAt: Time) {
    if status.Active? then false
    else if status.Blocked? then !GoalBlockedByFailure(goalUpdatedAt, failureAt)
    else true
  }

  /** The goal status that a `not_applicable` reason reports; `NoGoal` leaves the recorded status alone. */
  function HoldStatusForReason(r: Reason): Option<GoalStatus> {
    match r
    case GoalPaused => Some(Paused)
    case GoalCompleted => Some(Completed)
    case GoalUsageLimited => Some(UsageLimited)
    case GoalBudgetLimited => Some(BudgetLimited)
    case GoalBlockedBeforeFailure => Some(Blocked)
    case GoalStatusChanged => Some(NoGoal)
    case GoalStatusUnsupported => Some(NoGoal)
    case _ => None
  }

  predicate CanAdoptNativeGoalTurn(th: ThreadState, turn: TurnId, at: Time) {
    && th.pending.Some?
    && var f := th.pending.value.retry.fault;
    && f.kind.EmptyResponse? && th.goalStatus.Active? && !th.goalHeld && turn != ""
    && f.failedAt != 0 && f.failedAt <= at <= f.failedAt + NATIVE_GOAL_WINDOW
  }

  predicate CanAdoptSubagentTurn(th: ThreadState, turn: TurnId, at: Time) {
    && th.pending.Some? && th.pending.value.retry.parentNotified
    && var f := th.pending.value.retry.fault;
    && f.kind.EmptyResponse? && turn != "" && f.failedAt != 0 && f.failedAt <= at
  }

  function ExternalTurnOrigin(th: ThreadState, turn: TurnId, at: Time): Time {
    if turn == "" || turn != th.lastExternalTurn || th.lastExternalAt == 0 || at < th.lastExternalAt then 0
    else th.lastExternalAt
  }

  /** `canReopenTransportRetry`: only a known pre-dispatch stop may rejoin an automatic chain. */
  predicate CanReopen(th: ThreadState, now: Time) {
    && th.stopped.Some? && !th.stopped.value.historical
    && th.pending.None? && th.awaiting.None? && th.goalStop.None? && !th.goalHeld
    && var s := th.stopped.value;
    && (s.reason.CodexRestartRequired? || s.reason.SharedDisabled?)
    && (th.goalStatus.NoGoal? || th.goalStatus.Active?)
    && var start := if th.recoveryStartedAt == 0 then s.fault.failedAt else th.recoveryStartedAt;
    && start != 0 && start <= now && now - start <= MAX_RECOVERY_DURATION
    && s.fault.failedAt != 0 && s.fault.failedAt <= now && now - s.fault.failedAt <= MAX_RECOVERY_DURATION
    && (s.reason.SharedDisabled? ==>
          && (KnownUnsent(s) || LegacyUnsent(th, s))
          && s.fault.failedTurn != "" && th.lastStartedTurn == s.fault.failedTurn
          && th.lastStartedAt <= s.fault.failedAt)
    && th.lastStartedAt <= s.fault.failedAt && th.lastExternalAt <= s.fault.failedAt
    && (th.lastAbortedAt == 0 || th.lastAbortedAt < s.fault.failedAt)
    && (s.fault.failedTurn == "" || th.lastAbortedTurn != s.fault.failedTurn)
  }

  predicate KnownUnsent(s: Stopped) { s.transportBlocked == Some(true) }

  predicate LegacyUnsent(th: ThreadState, s: Stopped) {
    s.transportBlocked.None? && s.attempts == 0 && s.consecutive == 0 && th.lastAutoRetryAt <= s.fault.failedAt
  }
}
