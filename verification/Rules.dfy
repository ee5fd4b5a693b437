/** What any single step may do to a thread: the turn of a retry, a goal hold, a goal-limit stop, an exhausted stop. */
module Rules {
  import opened Types
  import opened Policy
  import opened ThreadSteps
  import opened Core
  import opened World
  import opened Invariant
  import opened Preservation
  import opened Chains
  import EventProofs

  // ---- turn correlation ----

  /** Once a retry has its turn, a step either keeps the turn or ends the awaiting entry. */
  predicate TurnKept(th: ThreadState, after: ThreadState) {
    HasTurn(th) && after.awaiting.Some? ==>
      var aw, aw' := th.awaiting.value, after.awaiting.value;
      && aw'.retryTurn == aw.retryTurn && aw'.startedAt == aw.startedAt && aw'.dispatchStartedAt == aw.dispatchStartedAt
      && aw'.retry.fault.key == aw.retry.fault.key && aw'.retry.attempt == aw.retry.attempt
  }

  lemma EventKeepsTurn(th: ThreadState, item: Item, now: Time, cfg: Config)
    requires OnePhase(th)
    ensures TurnKept(th, Written(th, OnEvent(th, item, now, cfg)))
  {
    match item.event
    case TaskComplete(_, _, _) => CompleteKeepsTurn(th, item, now, cfg);
    case GoalUpdated(at, status, updatedAt) => EventProofs.GoalUpdateShape(th, at, status, updatedAt);
    case _ =>
  }

  lemma CompleteKeepsTurn(th: ThreadState, item: Item, now: Time, cfg: Config)
    requires OnePhase(th) && item.event.TaskComplete?
    ensures TurnKept(th, Written(th, OnEvent(th, item, now, cfg)))
  {
  }

  lemma ResultKeepsTurn(th: ThreadState, result: Result, at: Time, cfg: Config)
    requires OnePhase(th) && th.awaiting.Some?
    ensures TurnKept(th, RecoveryFinished(th, result, at, cfg))
  {
  }

  lemma AnswerKeepsTurn(th: ThreadState, answer: Answer, now: Time, cfg: Config)
    requires OnePhase(th) && th.awaiting.Some?
    ensures TurnKept(th, Answered(th, answer, now, cfg))
  {
  }

  lemma QuietKeepsTurn(w: World, th: ThreadState, change: Change)
    requires ChainOk(th) && !change.ByEvent? && ((change.ByResult? || change.ByAnswer?) ==> th.awaiting.None?)
    ensures TurnKept(th, Changed(w, th, change))
  {
  }

  lemma ChangeKeepsTurn(w: World, th: ThreadState, change: Change)
    requires ChainOk(th)
    ensures TurnKept(th, Changed(w, th, change))
  {
    if change.ByEvent? { EventKeepsTurn(th, change.item, w.now, w.core.config); }
    else if change.ByResult? && th.awaiting.Some? { ResultKeepsTurn(th, change.result, change.at, w.core.config); }
    else if change.ByAnswer? && th.awaiting.Some? { AnswerKeepsTurn(th, change.answer, w.now, w.core.config); }
    else { QuietKeepsTurn(w, th, change); }
  }

  lemma CompleteGivesNoTurn(th: ThreadState, f: Failure, now: Time, cfg: Config)
    requires !HasTurn(th)
    ensures !HasTurn(Written(th, OnTaskComplete(th, f, now, cfg)))
  {
  }

  lemma EventGivesTurn(th: ThreadState, item: Item, now: Time, cfg: Config)
    requires ChainOk(th) && !HasTurn(th) && HasTurn(Written(th, OnEvent(th, item, now, cfg)))
    ensures item.event.TaskStarted? && Acknowledges(th, item.event.turn, item.event.at)
    ensures var aw := Written(th, OnEvent(th, item, now, cfg)).awaiting.value;
      aw.retryTurn == item.event.turn && aw.startedAt == item.event.at
  {
    match item.event
    case TaskComplete(turn, at, completion) =>
      CompleteGivesNoTurn(th, Failure(KeyOf(item), turn, at, completion, item.codexHome, item.rolloutPath), now, cfg);
    case _ =>
  }

  lemma OthersGiveNoTurn(w: World, th: ThreadState, change: Change)
    requires ChainOk(th) && !HasTurn(th) && !change.ByEvent?
    ensures !HasTurn(Changed(w, th, change))
  {
  }

  /** Nothing but a task_started event that acknowledges the retry, or is adopted by it, gives it a turn. */
  lemma TurnComesFromStart(w: World, th: ThreadState, change: Change)
    requires ChainOk(th) && !HasTurn(th) && HasTurn(Changed(w, th, change))
    ensures change.ByEvent? && change.item.event.TaskStarted?
        && Acknowledges(th, change.item.event.turn, change.item.event.at)
    ensures Changed(w, th, change).awaiting.value.retryTurn == change.item.event.turn
    ensures Changed(w, th, change).awaiting.value.startedAt == change.item.event.at
  {
    if change.ByEvent? {
      EventGivesTurn(th, change.item, w.now, w.core.config);
    } else {
      OthersGiveNoTurn(w, th, change);
    }
  }

  /** A completion that reaches an awaiting entry is for its turn, or for the last aborted turn. */
  lemma OnlyOwnCompletionMatters(th: ThreadState, f: Failure, now: Time, cfg: Config)
    requires th.awaiting.Some?
    ensures Written(th, OnTaskComplete(th, f, now, cfg)) != th ==>
      || (f.turn != "" && f.turn == th.awaiting.value.retryTurn)
      || (f.turn != "" && f.turn == th.lastAbortedTurn)
  {
  }

  // ---- goal hold ----

  /** A goal update that lifts a hold: an activation, unless the goal block of a stop has failed, or a block that
      follows the last failure closely. */
  predicate UpdateLifts(th: ThreadState, at: Time, status: GoalStatus, updatedAt: Time) {
    && !StaleGoalUpdate(th, at, updatedAt)
    && match status
       case Active => !(th.stopped.Some? && th.stopped.value.reason.GoalEmptyResponseBlockFailed?)
       case Blocked =>
         !GoalLimitRestartPending(th) && !GoalLimitStopped(th) && GoalBlockedByFailure(updatedAt, th.lastFailureAt)
       case _ => false
  }

  /** A failed completion that the goal block is attributed to, and that is handled as a failure of the thread. */
  predicate FailureLifts(th: ThreadState, turn: TurnId, at: Time, completion: Completion) {
    && BlockAttributed(th, at) && !GoalLimitStopped(th)
    && !(turn != "" && turn == th.lastAbortedTurn)
    && (th.awaiting.Some? ==> HasTurn(th) && turn == th.awaiting.value.retryTurn)
    && (th.awaiting.None? ==> th.pending.None?)
    && !Succeeded(completion)
  }

  /** What lifts a hold. */
  predicate Lifts(th: ThreadState, change: Change) {
    match change
    case ByPrune => true
    case ByCommand(kind) => kind.RestartRetry? && th.stopped.Some?
    case ByEvent(item) =>
      (match item.event
       case GoalUpdated(at, status, updatedAt) => UpdateLifts(th, at, status, updatedAt)
       case TaskComplete(turn, at, completion) => FailureLifts(th, turn, at, completion)
       case _ => false)
    case _ => false
  }

  lemma CompletionAndHold(th: ThreadState, f: Failure, now: Time, cfg: Config)
    requires th.goalHeld
    ensures !Written(th, OnTaskComplete(th, f, now, cfg)).goalHeld <==> FailureLifts(th, f.turn, f.at, f.completion)
  {
  }

  lemma UpdateAndHold(th: ThreadState, at: Time, status: GoalStatus, updatedAt: Time)
    requires th.goalHeld
    ensures !Written(th, OnGoalUpdated(th, at, status, updatedAt)).goalHeld <==> UpdateLifts(th, at, status, updatedAt)
  {
  }

  lemma EventAndHold(th: ThreadState, item: Item, now: Time, cfg: Config)
    requires th.goalHeld
    ensures !Written(th, OnEvent(th, item, now, cfg)).goalHeld <==> Lifts(th, ByEvent(item))
  {
    match item.event
    case TaskComplete(turn, at, completion) =>
      CompletionAndHold(th, Failure(KeyOf(item), turn, at, completion, item.codexHome, item.rolloutPath), now, cfg);
    case GoalUpdated(at, status, updatedAt) => UpdateAndHold(th, at, status, updatedAt);
    case _ =>
  }

  /** A hold ends exactly by an activation, by a goal block or a failure that belong together, by a user restart of a
      stop, or with the whole record. */
  lemma HoldEndsExactlyBy(w: World, th: ThreadState, change: Change)
    requires th.goalHeld
    ensures !Changed(w, th, change).goalHeld <==> Lifts(th, change)
  {
    if change.ByEvent? { EventAndHold(th, change.item, w.now, w.core.config); }
  }

  // ---- goal-limit stop ----

  /** What a restart of the process may do to a stop: a zero no-progress count is raised to the attempts. */
  predicate Repaired(s: Stopped, u: Stopped) {
    && u == s.(reason := u.reason, consecutive := u.consecutive)
    && (u.consecutive == s.consecutive || (s.consecutive < 1 && u.consecutive == s.attempts))
  }

  predicate SameLatch(th: ThreadState, after: ThreadState) {
    && th.stopped.Some? && after.stopped.Some? && Repaired(th.stopped.value, after.stopped.value)
    && after.stopped.value.reason == th.stopped.value.reason && after.goalStop == th.goalStop
    && after.pending == th.pending && after.awaiting == th.awaiting
    && after.recoveryAttempts == th.recoveryAttempts && after.consecutiveRetries == th.consecutiveRetries
  }

  /** Turns that start, report, complete, fail or abort do not touch a goal-limit stop. */
  lemma LatchIgnoresTurns(th: ThreadState, item: Item, now: Time, cfg: Config)
    requires OnePhase(th) && GoalLimitStopped(th) && !item.event.GoalUpdated?
    ensures SameLatch(th, Written(th, OnEvent(th, item, now, cfg)))
  {
  }

  /** The changes that may end or alter a goal-limit stop. */
  predicate MayEndLatch(change: Change) {
    || (change.ByEvent? && change.item.event.GoalUpdated?)
    || (change.ByCommand? && change.kind.RestartRetry?)
    || change.ByGoalBlock? || change.ByPrune?
  }

  lemma RestartKeepsLatch(th: ThreadState, at: Time)
    requires ChainOk(th) && GoalLimitStopped(th)
    ensures SameLatch(th, RestoredAtStartup(Loaded(th), at))
  {
  }

  lemma LatchStays(w: World, th: ThreadState, change: Change)
    requires ChainOk(th) && GoalLimitStopped(th) && !MayEndLatch(change)
    ensures SameLatch(th, Changed(w, th, change))
  {
    if change.ByEvent? { LatchIgnoresTurns(th, change.item, w.now, w.core.config); }
    else if change.ByRestart? { RestartKeepsLatch(th, change.at); }
  }

  // ---- the failure of a thread ----

  /** A failed completion with this key is handled. */
  predicate FailsWith(change: Change, key: EventKey) {
    change.ByEvent? && change.item.event.TaskComplete? && !Succeeded(change.item.event.completion)
        && KeyOf(change.item) == key
  }

  predicate About(th: ThreadState, key: EventKey) { Record(th).Some? && Record(th).value.key == key }

  lemma ScheduledAbout(th: ThreadState, f: Failure, now: Time, attempt: int, consecutive: int, origin: Time,
      notified: bool, cfg: Config, key: EventKey)
    requires About(ScheduleFailure(th, f, now, attempt, consecutive, origin, notified, cfg), key)
    ensures f.key == key || (th.stopped.Some? && About(th, key))
  {
  }

  lemma FailedAbout(th: ThreadState, f: Failure, now: Time, cfg: Config, key: EventKey)
    requires OnePhase(th) && About(EventProofs.Failed(th, f, now, cfg), key)
    ensures About(th, key) || f.key == key
  {
    if th.awaiting.Some? {
      var r := th.awaiting.value.retry;
      ScheduledAbout(th.(currentTurnProgress := false, awaiting := None), f, now, r.attempt + 1,
                     EventProofs.NextConsecutive(th, r), r.fault.originStartedAt, r.parentNotified, cfg, key);
    } else {
      ScheduledAbout(th.(currentTurnProgress := false), f, now, 1, 1, ExternalTurnOrigin(th, f.turn, f.at), false, cfg,
                     key);
    }
  }

  lemma CompletionAbout(th: ThreadState, f: Failure, now: Time, cfg: Config, key: EventKey)
    requires OnePhase(th) && About(Written(th, OnTaskComplete(th, f, now, cfg)), key)
    ensures About(th, key) || (f.key == key && !Succeeded(f.completion))
  {
    EventProofs.CompletionShape(th, f, now, cfg);
    if EventProofs.Answerable(th, f) && About(EventProofs.Failed(th, f, now, cfg), key) {
      FailedAbout(th, f, now, cfg, key);
    }
  }

  lemma EventAbout(th: ThreadState, item: Item, now: Time, cfg: Config, key: EventKey)
    requires ChainOk(th) && About(Written(th, OnEvent(th, item, now, cfg)), key)
    ensures About(th, key) || FailsWith(ByEvent(item), key)
  {
    match item.event
    case TaskComplete(turn, at, completion) =>
      CompletionAbout(th, Failure(KeyOf(item), turn, at, completion, item.codexHome, item.rolloutPath), now, cfg, key);
    case GoalUpdated(at, status, updatedAt) => EventProofs.GoalUpdateShape(th, at, status, updatedAt);
    case _ =>
  }

  lemma ResultAbout(th: ThreadState, result: Result, at: Time, cfg: Config, key: EventKey)
    requires OnePhase(th) && th.awaiting.Some? && About(RecoveryFinished(th, result, at, cfg), key)
    ensures About(th, key)
  {
  }

  lemma AnswerAbout(th: ThreadState, answer: Answer, now: Time, cfg: Config, key: EventKey)
    requires OnePhase(th) && th.awaiting.Some? && About(Answered(th, answer, now, cfg), key)
    ensures About(th, key)
  {
  }

  lemma OthersAbout(w: World, th: ThreadState, change: Change, key: EventKey)
    requires ChainOk(th) && !change.ByEvent? && ((change.ByResult? || change.ByAnswer?) ==> th.awaiting.None?)
    requires About(Changed(w, th, change), key)
    ensures About(th, key)
  {
  }

  /** A thread is about another failure only after the failed completion of that failure. */
  lemma FailureComesFromCompletion(w: World, th: ThreadState, change: Change, key: EventKey)
    requires ChainOk(th) && About(Changed(w, th, change), key)
    ensures About(th, key) || FailsWith(change, key)
  {
    if change.ByEvent? { EventAbout(th, change.item, w.now, w.core.config, key); }
    else if change.ByResult? && th.awaiting.Some? { ResultAbout(th, change.result, change.at, w.core.config, key); }
    else if change.ByAnswer? && th.awaiting.Some? { AnswerAbout(th, change.answer, w.now, w.core.config, key); }
    else { OthersAbout(w, th, change, key); }
  }

  // ---- exhausted stop ----

  /** The conjunct of the reopening test that an over-budget stop fails under any limits. */
  lemma OverBudgetNotReopenable(th: ThreadState, now: Time, cfg: Config)
    requires th.stopped.Some? && OverBudget(th.stopped.value)
    ensures !Reopenable(th, now, cfg)
  {
  }

  lemma CompletionRevives(th: ThreadState, f: Failure, now: Time, cfg: Config)
    requires th.stopped.Some? && !Live(th) && Live(Written(th, OnTaskComplete(th, f, now, cfg)))
    ensures LiveRetry(Written(th, OnTaskComplete(th, f, now, cfg))).value.fault.key == f.key
    ensures LiveRetry(Written(th, OnTaskComplete(th, f, now, cfg))).value.attempt == 1
  {
  }

  /** A thread stopped over budget becomes live again only by a user restart, or with a failure that begins a new
      chain: not after its stop got another reason, and not under higher limits. */
  lemma OverBudgetRevives(w: World, th: ThreadState, change: Change)
    requires ChainOk(th) && th.stopped.Some? && OverBudget(th.stopped.value) && Live(Changed(w, th, change))
    ensures change == ByCommand(RestartRetry) ||
            (change.ByEvent? && change.item.event.TaskComplete? &&
             LiveRetry(Changed(w, th, change)).value.fault.key == KeyOf(change.item) &&
             LiveRetry(Changed(w, th, change)).value.attempt == 1)
  {
    if change.ByReopen? {
      OverBudgetNotReopenable(th, w.now, w.core.config);
    } else if change.ByEvent? && change.item.event.TaskComplete? {
      var e := change.item.event;
      CompletionRevives(th, Failure(KeyOf(change.item), e.turn, e.at, e.completion, change.item.codexHome,
          change.item.rolloutPath),
                        w.now, w.core.config);
    }
  }

  lemma CompletionKeepsOverBudget(th: ThreadState, item: Item, now: Time, cfg: Config)
    requires OnePhase(th) && th.stopped.Some? && OverBudget(th.stopped.value) && item.event.TaskComplete?
    requires var after := Written(th, OnEvent(th, item, now, cfg));
      after.stopped.Some? && !FailsWith(ByEvent(item), after.stopped.value.fault.key)
    ensures OverBudget(Written(th, OnEvent(th, item, now, cfg)).stopped.value)
  {
  }

  lemma EventKeepsOverBudget(th: ThreadState, item: Item, now: Time, cfg: Config)
    requires OnePhase(th) && th.stopped.Some? && OverBudget(th.stopped.value)
    requires var after := Written(th, OnEvent(th, item, now, cfg));
      after.stopped.Some? && !FailsWith(ByEvent(item), after.stopped.value.fault.key)
    ensures OverBudget(Written(th, OnEvent(th, item, now, cfg)).stopped.value)
  {
    match item.event
    case TaskComplete(_, _, _) => CompletionKeepsOverBudget(th, item, now, cfg);
    case GoalUpdated(at, status, updatedAt) => EventProofs.GoalUpdateShape(th, at, status, updatedAt);
    case _ =>
  }

  lemma OthersKeepOverBudget(w: World, th: ThreadState, change: Change)
    requires ChainOk(th) && th.stopped.Some? && OverBudget(th.stopped.value) && !change.ByEvent?
    requires Changed(w, th, change).stopped.Some?
    ensures OverBudget(Changed(w, th, change).stopped.value)
  {
  }

  lemma OverBudgetStays(w: World, th: ThreadState, change: Change)
    requires ChainOk(th) && th.stopped.Some? && OverBudget(th.stopped.value)
    requires var after := Changed(w, th, change);
      after.stopped.Some? && !FailsWith(change, after.stopped.value.fault.key)
    ensures OverBudget(Changed(w, th, change).stopped.value)
  {
    if change.ByEvent? { EventKeepsOverBudget(th, change.item, w.now, w.core.config); }
    else { OthersKeepOverBudget(w, th, change); }
  }

  /** The reason of an exhausted stop says what was exceeded; the catch-all reason never occurs. */
  predicate TrueReason(s: Stopped, goalActive: bool, late: bool) {
    && (late || OverBudget(s))
    && (s.reason.GoalEmptyResponseLimit? <==> s.fault.kind.EmptyResponse? && goalActive)
    && (s.reason.RecoveryTimeLimit? <==> late && !s.reason.GoalEmptyResponseLimit?)
    && (s.reason.RecoveryAttemptLimit? ==> s.attempts + 1 > s.maxAttempts)
    && (s.reason.ConsecutiveRetryLimit? ==> s.attempts + 1 <= s.maxAttempts && s.consecutive + 1 > s.maxConsecutive)
    && (s.reason.AuthAttemptLimit? ==> s.fault.kind.AuthLimited? && OverBudget(s))
    && (s.reason.GoalEmptyResponseLimit? || s.reason.RecoveryTimeLimit? || s.reason.RecoveryAttemptLimit? ||
        s.reason.ConsecutiveRetryLimit? || s.reason.AuthAttemptLimit?)
  }

  lemma ExhaustedReasonIsTrue(th: ThreadState, f: Failure, now: Time, attempt: int, consecutive: int, origin: Time,
                              kind: FailureClass, limits: Limits, cfg: Config)
    requires attempt >= 1 && consecutive >= 1
    requires now - th.recoveryStartedAt > MAX_RECOVERY_DURATION || attempt > limits.attempts
        || consecutive > limits.consecutive
    ensures TrueReason(StopExhausted(th, f, now, attempt, consecutive, origin, kind, limits, cfg).stopped.value,
                       th.goalStatus.Active?, now - th.recoveryStartedAt > MAX_RECOVERY_DURATION)
  {
  }

  lemma LoweredReasonIsTrue(th: ThreadState, now: Time, cfg: Config)
    requires ChainOk(th) && th.pending.Some? && Reloaded(th, now, cfg).stopped.Some?
    ensures TrueReason(Reloaded(th, now, cfg).stopped.value, th.goalStatus.Active?, false)
  {
  }

  lemma InactiveReasonIsTrue(th: ThreadState, now: Time, cfg: Config)
    requires ChainOk(th) && th.awaiting.Some? && AdvanceInactive(th, now, cfg).stopped.Some?
    ensures TrueReason(AdvanceInactive(th, now, cfg).stopped.value, th.goalStatus.Active?, false)
  {
  }

  // ---- stop and reopen ----

  /** The stop carries the failure of the retry and one attempt less on each counter. */
  predicate StopOf(th: ThreadState, after: ThreadState) {
    && Live(th) && after.stopped.Some?
    && var r, s := LiveRetry(th).value, after.stopped.value;
    && s.fault == r.fault && s.attempts + 1 == r.attempt && s.consecutive + 1 == r.consecutive
    && after.recoveryStartedAt == th.recoveryStartedAt
  }

  predicate TransportReason(r: Reason) { r.CodexRestartRequired? || r.SharedDisabled? }

  lemma CompleteStopsOtherwise(th: ThreadState, f: Failure, now: Time, cfg: Config)
    requires ChainOk(th) && Live(th) && Written(th, OnTaskComplete(th, f, now, cfg)).stopped.Some?
    ensures !TransportReason(Written(th, OnTaskComplete(th, f, now, cfg)).stopped.value.reason)
  {
  }

  lemma EventStopsOtherwise(th: ThreadState, item: Item, now: Time, cfg: Config)
    requires ChainOk(th) && Live(th) && Written(th, OnEvent(th, item, now, cfg)).stopped.Some?
    ensures !TransportReason(Written(th, OnEvent(th, item, now, cfg)).stopped.value.reason)
  {
    match item.event
    case TaskComplete(turn, at, completion) =>
      CompleteStopsOtherwise(th, Failure(KeyOf(item), turn, at, completion, item.codexHome, item.rolloutPath), now,
          cfg);
    case GoalUpdated(at, status, updatedAt) => EventProofs.GoalUpdateShape(th, at, status, updatedAt);
    case _ =>
  }

  lemma RescheduleStops(th: ThreadState, at: Time, reason: Reason, countFailure: bool, cfg: Config)
    requires ChainOk(th) && th.awaiting.Some? && RescheduleAwaiting(th, at, reason, countFailure, cfg).stopped.Some?
    ensures StopOf(th, RescheduleAwaiting(th, at, reason, countFailure, cfg))
  {
    assert StopOf(th, StopAwaiting(th, at, reason));
  }

  lemma ResultStops(th: ThreadState, result: Result, at: Time, cfg: Config)
    requires ChainOk(th) && th.awaiting.Some? && RecoveryFinished(th, result, at, cfg).stopped.Some?
    ensures StopOf(th, RecoveryFinished(th, result, at, cfg))
  {
    var noted := Notified(th, result);
    if result.UserActive? {
      RescheduleStops(WithoutFailures(noted), at, FailureReason(result), false, cfg);
    } else if result.Error? || result.RetryLater? {
      RescheduleStops(noted, at, FailureReason(result), true, cfg);
    }
  }

  lemma AnswerStops(th: ThreadState, answer: Answer, now: Time, cfg: Config)
    requires ChainOk(th) && th.awaiting.Some? && Answered(th, answer, now, cfg).stopped.Some?
    requires TransportReason(Answered(th, answer, now, cfg).stopped.value.reason)
    ensures StopOf(th, Answered(th, answer, now, cfg))
  {
  }

  lemma QuietStops(w: World, th: ThreadState, change: Change)
    requires ChainOk(th) && Live(th) && !change.ByEvent?
        && ((change.ByResult? || change.ByAnswer?) ==> th.awaiting.None?)
    requires Changed(w, th, change).stopped.Some? && TransportReason(Changed(w, th, change).stopped.value.reason)
    ensures StopOf(th, Changed(w, th, change))
  {
  }

  /** Whatever stops a live chain for want of a transport keeps its failure and takes back the attempt. */
  lemma TransportStopKeepsChain(w: World, th: ThreadState, change: Change)
    requires ChainOk(th) && Live(th)
    requires Changed(w, th, change).stopped.Some? && TransportReason(Changed(w, th, change).stopped.value.reason)
    ensures StopOf(th, Changed(w, th, change))
  {
    if change.ByEvent? { EventStopsOtherwise(th, change.item, w.now, w.core.config); }
    else if change.ByResult? && th.awaiting.Some? { ResultStops(th, change.result, change.at, w.core.config); }
    else if change.ByAnswer? && th.awaiting.Some? { AnswerStops(th, change.answer, w.now, w.core.config); }
    else { QuietStops(w, th, change); }
  }

  /** A failed completion that a held goal skips restarts the clock of a thread whose counters are zero. */
  predicate RestartsClock(th: ThreadState, change: Change) {
    && change.ByEvent? && change.item.event.TaskComplete?
    && var e := change.item.event;
    && !GoalLimitStopped(th) && !(e.turn != "" && e.turn == th.lastAbortedTurn) && !Succeeded(e.completion)
    && th.goalHeld && !BlockAttributed(th, e.at)
    && !HeldConversationAllowed(th.goalStatus, th.goalUpdatedAt, ExternalTurnOrigin(th, e.turn, e.at))
    && ((th.recoveryAttempts == 0 && th.consecutiveRetries == 0) || th.recoveryStartedAt == 0)
  }

  /** The stop stays, up to its reason and the repair of a restart. */
  predicate RestsAs(th: ThreadState, after: ThreadState) {
    th.stopped.Some? && after.stopped.Some? && Repaired(th.stopped.value, after.stopped.value)
  }

  lemma CompletionAndStart(th: ThreadState, item: Item, now: Time, cfg: Config)
    requires ChainOk(th) && ValidConfig(cfg) && item.event.TaskComplete?
    requires RestsAs(th, Written(th, OnEvent(th, item, now, cfg)))
    requires th.recoveryStartedAt != 0
    ensures Written(th, OnEvent(th, item, now, cfg)).recoveryStartedAt ==
            if RestartsClock(th, ByEvent(item)) then now else th.recoveryStartedAt
  {
  }

  /** While a stop rests, the start of its chain moves exactly when the clock is restarted, and then to the present. */
  lemma RestMovesStart(w: World, th: ThreadState, change: Change)
    requires ChainOk(th) && th.recoveryStartedAt != 0 && ValidConfig(w.core.config)
    requires RestsAs(th, Changed(w, th, change))
    ensures Changed(w, th, change).recoveryStartedAt == if RestartsClock(th, change) then w.now
        else th.recoveryStartedAt
  {
    if change.ByEvent? && change.item.event.TaskComplete? {
      CompletionAndStart(th, change.item, w.now, w.core.config);
    }
  }

  lemma CompletionStopsInTime(th: ThreadState, f: Failure, now: Time, cfg: Config)
    requires ChainOk(th) && Live(th) && Written(th, OnTaskComplete(th, f, now, cfg)).stopped.Some?
    ensures Written(th, OnTaskComplete(th, f, now, cfg)).recoveryStartedAt == th.recoveryStartedAt
  {
  }

  lemma EventStopsInTime(th: ThreadState, item: Item, now: Time, cfg: Config)
    requires ChainOk(th) && Live(th) && Written(th, OnEvent(th, item, now, cfg)).stopped.Some?
    ensures Written(th, OnEvent(th, item, now, cfg)).recoveryStartedAt == th.recoveryStartedAt
  {
    match item.event
    case TaskComplete(turn, at, completion) =>
      CompletionStopsInTime(th, Failure(KeyOf(item), turn, at, completion, item.codexHome, item.rolloutPath), now, cfg);
    case GoalUpdated(at, status, updatedAt) => EventProofs.GoalUpdateShape(th, at, status, updatedAt);
    case _ =>
  }

  lemma ResultStopsInTime(th: ThreadState, result: Result, at: Time, cfg: Config)
    requires ChainOk(th) && th.awaiting.Some? && RecoveryFinished(th, result, at, cfg).stopped.Some?
    ensures RecoveryFinished(th, result, at, cfg).recoveryStartedAt == th.recoveryStartedAt
  {
    ResultStops(th, result, at, cfg);
  }

  lemma AnswerStopsInTime(th: ThreadState, answer: Answer, now: Time, cfg: Config)
    requires th.awaiting.Some?
    ensures Answered(th, answer, now, cfg).recoveryStartedAt == th.recoveryStartedAt
  {
  }

  lemma OthersStopInTime(w: World, th: ThreadState, change: Change)
    requires ChainOk(th) && Live(th) && Changed(w, th, change).stopped.Some? && !change.ByEvent?
    ensures Changed(w, th, change).recoveryStartedAt == th.recoveryStartedAt
  {
    if change.ByResult? && th.awaiting.Some? { ResultStopsInTime(th, change.result, change.at, w.core.config); }
    else if change.ByAnswer? && th.awaiting.Some? { AnswerStopsInTime(th, change.answer, w.now, w.core.config); }
    else { QuietStopInTime(w, th, change); }
  }

  lemma QuietStopInTime(w: World, th: ThreadState, change: Change)
    requires ChainOk(th) && Live(th) && Changed(w, th, change).stopped.Some? && !change.ByEvent?
    requires (change.ByResult? || change.ByAnswer?) ==> th.awaiting.None?
    ensures Changed(w, th, change).recoveryStartedAt == th.recoveryStartedAt
  {
  }

  /** Whatever stops a live chain keeps its start. */
  lemma StopKeepsStart(w: World, th: ThreadState, change: Change)
    requires ChainOk(th) && Live(th) && Changed(w, th, change).stopped.Some?
    ensures Changed(w, th, change).recoveryStartedAt == th.recoveryStartedAt
  {
    if change.ByEvent? { EventStopsInTime(th, change.item, w.now, w.core.config); }
    else { OthersStopInTime(w, th, change); }
  }

  /** Same failure and same counters. */
  predicate SameRetry(th: ThreadState, after: ThreadState) {
    && Live(th) && Live(after)
    && var r, s := LiveRetry(th).value, LiveRetry(after).value;
    && s.fault == r.fault && s.attempt == r.attempt && s.consecutive == r.consecutive
    && after.recoveryAttempts == th.recoveryAttempts && after.consecutiveRetries == th.consecutiveRetries
  }

  /** What was stopped comes back with the counters and the failure it had. */
  lemma ReopenRestores(th: ThreadState, rested: ThreadState, now: Time, cfg: Config)
    requires ChainOk(th) && Live(th) && rested.stopped.Some? && Reopenable(rested, now, cfg)
    requires var r, s := LiveRetry(th).value, rested.stopped.value;
      s.fault == r.fault && s.attempts + 1 == r.attempt && s.consecutive + 1 == r.consecutive
    ensures SameRetry(th, Reopened(rested, now, cfg))
  {
  }

  // ---- dispatch ----

  /** What dispatch leaves of a pending thread. */
  predicate DispatchOutcome(th: ThreadState, after: ThreadState, now: Time, picked: bool)
    requires th.pending.Some?
  {
    var r := th.pending.value.retry;
    || (!picked && after == th)
    || (picked && after.awaiting.Some? && after.pending.None? && after.stopped.None?
        && after.awaiting.value.retry == r && after.awaiting.value.retryTurn == "" &&
        after.lastAutoRetryAt == now && !HoldBlocks(th) && th.pending.value.dueAt <= now)
    || (!picked && after.stopped.Some? && !Live(after) && after.stopped.value.fault == r.fault &&
        after.stopped.value.attempts == r.attempt - 1 && after.stopped.value.consecutive == r.consecutive - 1 &&
        th.pending.value.dueAt <= now)
    || (!picked && HoldBlocks(th) && Record(after).None? && after.recoveryAttempts == 0
        && after.consecutiveRetries == 0)
  }

  lemma DispatchLeavesPending(c: Core, now: Time, goals: seq<ThreadId>, picks: seq<ThreadId>, t: ThreadId)
    requires DispatchChoice(c, now, goals, picks) && t in c.threads && ChainOk(c.threads[t])
        && c.threads[t].pending.Some?
    ensures t in Dispatch(c, now, goals, picks).threads
    ensures DispatchOutcome(c.threads[t], Dispatch(c, now, goals, picks).threads[t], now, t in picks)
  {
    DispatchOfThread(c, now, goals, picks, t);
    PicksDue(c, now, goals, picks);
    AfterDispatchOutcome(c, now, ModeAfterGoals(c, goals), c.threads[t], t in WithGoalJobs(c, goals).active,
        t in picks);
  }

  lemma AfterDispatchOutcome(c: Core, now: Time, mode: DispatchMode, th: ThreadState, active: bool, picked: bool)
    requires ChainOk(th) && th.pending.Some? && (picked ==> mode.Sending? && Candidate(th, false, now))
    ensures DispatchOutcome(th, AfterDispatch(c, now, mode, th, active, picked), now, picked)
  {
  }
}
