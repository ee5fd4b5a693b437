/** The watchdog itself: its mutable state and the methods that run under its mutex. Each method is proved
    against the function that specifies it; what holds over whole runs is proved about those functions. */
module Daemon {
  import opened Types
  import opened Policy
  import opened Backoff
  import opened ThreadSteps
  import opened Slots
  import C = Core

  class Daemon {
    var threads: map<ThreadId, ThreadState>
    var active: map<ThreadId, Job>
    var config: Config
    var controller: Controller
    var paused: bool
    var processed: map<EventKey, Time>

    ghost predicate Valid()
      reads this
    {
      ValidConfig(config)
    }

    ghost function View(): C.Core
      reads this
    {
      C.Core(threads, active, config, controller, paused, processed)
    }

    /** The state before the first scan. */
    constructor (cfg: Config)
      requires ValidConfig(cfg)
      ensures Valid() && View() == C.Core(map[], map[], cfg, Starting, false, map[])
    {
      threads, active, config, controller, paused, processed := map[], map[], cfg, Starting, false, map[];
    }

    // ---- events ----

    method CancelRetry(t: ThreadId, before: ThreadState)
      modifies `threads
      ensures threads == old(threads)[t := Clear(before)]
    {
      var thread := before;
      thread := thread.(pending := None, awaiting := None);
      thread := thread.(recoveryAttempts := 0, consecutiveRetries := 0, currentTurnProgress := false);
      thread := thread.(stopped := None, goalStop := None);
      threads := threads[t := thread];
    }

    method HandleTaskStarted(t: ThreadId, turn: TurnId, at: Time, before: ThreadState)
      modifies `threads
      ensures threads == C.Store(old(threads), t, OnTaskStarted(before, turn, at))
    {
      var thread := before.(lastStartedTurn := turn, lastStartedAt := at, currentTurnProgress := false);
      if GoalLimitStopped(thread) {
        threads := threads[t := thread];
        return;
      }
      if thread.awaiting.Some? {
        var awaiting := thread.awaiting.value;
        var inWindow := !(at < awaiting.dispatchStartedAt - 2 * SECOND) &&
          (awaiting.startDeadline == 0 || !(at > awaiting.startDeadline + 2 * SECOND));
        if awaiting.retryTurn == "" && turn != "" && inWindow {
          awaiting := awaiting.(retryTurn := turn, startedAt := at);
          threads := threads[t := thread.(awaiting := Some(awaiting))];
          return;
        }
        if awaiting.retryTurn == turn {
          return;
        }
        CancelRetry(t, thread.(lastExternalTurn := turn, lastExternalAt := at));
        return;
      }
      if thread.pending.Some? {
        var action := NoAction;
        if CanAdoptNativeGoalTurn(thread, turn, at) {
          action := GoalActive;
        } else if CanAdoptSubagentTurn(thread, turn, at) {
          action := SubagentContinue;
        }
        if action != NoAction {
          var retry := thread.pending.value.retry;
          thread := thread.(pending := None, lastAutoRetryAt := at);
          thread := thread.(awaiting := Some(Awaiting(retry, turn, action, at, 0, at, 0, 0)));
          threads := threads[t := thread];
          return;
        }
        CancelRetry(t, thread.(lastExternalTurn := turn, lastExternalAt := at));
        return;
      }
      thread := thread.(lastExternalTurn := turn, lastExternalAt := at, recoveryAttempts := 0, consecutiveRetries := 0);
      threads := threads[t := thread.(stopped := None, goalStop := None)];
    }

    method HandleTaskUserInput(t: ThreadId, eventTurn: TurnId, thread: ThreadState)
      modifies `threads
      ensures threads == C.Store(old(threads), t, OnTaskUserInput(thread, eventTurn))
    {
      if GoalLimitStopped(thread) {
        return;
      }
      var turn := eventTurn;
      if turn == "" {
        turn := thread.lastStartedTurn;
      }
      if thread.awaiting.Some? && thread.awaiting.value.retryTurn == turn {
        if thread.awaiting.value.action != GoalActive && thread.awaiting.value.action != GoalResume {
          return;
        }
        CancelRetry(t, thread);
        return;
      }
      if thread.pending.Some? && turn != "" && turn == thread.lastStartedTurn {
        CancelRetry(t, thread);
      }
    }

    method HandleTaskProgress(t: ThreadId, at: Time, thread: ThreadState)
      modifies `threads
      ensures threads == C.Store(old(threads), t, OnTaskProgress(thread, at))
    {
      if thread.awaiting.None? || thread.awaiting.value.retryTurn == "" ||
         thread.awaiting.value.retryTurn != thread.lastStartedTurn ||
         (thread.awaiting.value.startedAt != 0 && at < thread.awaiting.value.startedAt) {
        return;
      }
      threads := threads[t := thread.(currentTurnProgress := true)];
    }

    method HandleTurnAborted(t: ThreadId, eventTurn: TurnId, at: Time, before: ThreadState)
      modifies `threads
      ensures threads == C.Store(old(threads), t, OnTurnAborted(before, eventTurn, at))
    {
      var turn := eventTurn;
      if turn == "" {
        turn := before.lastStartedTurn;
      }
      var thread := before.(lastAbortedTurn := turn, lastAbortedAt := at);
      if GoalLimitStopped(thread) {
        threads := threads[t := thread];
        return;
      }
      thread := thread.(pending := None, awaiting := None, stopped := None, goalStop := None);
      thread := thread.(recoveryAttempts := 0, consecutiveRetries := 0, currentTurnProgress := false);
      threads := threads[t := thread];
    }

    method StopExhaustedRetry(t: ThreadId, f: Failure, now: Time, before: ThreadState, attempt: int, consecutive: int,
                              origin: Time, kind: FailureClass, limits: Limits)
      modifies `threads
      ensures threads == old(threads)[t := StopExhausted(before, f, now, attempt, consecutive, origin, kind, limits,
          config)]
    {
      var thread := before;
      var attempts, completed := CompletedCount(attempt), CompletedCount(consecutive);
      var reason := StopReasonForClass(kind, config, attempt, limits.attempts, consecutive, limits.consecutive);
      if now - thread.recoveryStartedAt > MAX_RECOVERY_DURATION {
        reason := RecoveryTimeLimit;
      }
      if kind.EmptyResponse? && thread.goalStatus.Active? {
        reason := GoalEmptyResponseLimit;
      }
      thread := thread.(pending := None, awaiting := None, recoveryAttempts := attempts,
          consecutiveRetries := completed);
      thread := thread.(currentTurnProgress := false, lastFailureAt := f.at);
      thread := thread.(stopped := Some(Stopped(FaultOf(f, origin, kind), now, attempts, limits.attempts,
                                                completed, limits.consecutive, reason, false, None)));
      if reason == GoalEmptyResponseLimit {
        thread := thread.(goalStop := Some(GoalStop(f.key, reason, now, now, 0)));
      }
      threads := threads[t := thread];
    }

    method StartClock(before: ThreadState, now: Time) returns (thread: ThreadState)
      ensures thread == ChainStart(before, now)
    {
      thread := before;
      if thread.recoveryAttempts == 0 && thread.consecutiveRetries == 0 {
        thread := thread.(recoveryStartedAt := now);
      }
      if thread.recoveryStartedAt == 0 {
        thread := thread.(recoveryStartedAt := now);
      }
    }

    /** A failure under a hold that forbids the retry. */
    method SkipHeld(t: ThreadId, f: Failure, before: ThreadState)
      modifies `threads
      ensures threads == old(threads)[t := before.(pending := None, awaiting := None, recoveryAttempts := 0,
          consecutiveRetries := 0, currentTurnProgress := false, lastFailureAt := f.at)]
    {
      var thread := before.(pending := None, awaiting := None, recoveryAttempts := 0, consecutiveRetries := 0);
      threads := threads[t := thread.(currentTurnProgress := false, lastFailureAt := f.at)];
    }

    /** `scheduleFailureLocked`: held, not retryable, exhausted, or scheduled. */
    method ScheduleNextRetry(t: ThreadId, f: Failure, now: Time, before: ThreadState, attempt: int, consecutive: int,
                             origin: Time, parentNotified: bool)
      requires Valid()
      modifies `threads
      ensures threads == old(threads)[t := ScheduleFailure(before, f, now, attempt, consecutive, origin,
          parentNotified, config)]
    {
      var thread := StartClock(before, now);
      if thread.goalHeld {
        if thread.goalStatus.Blocked? && GoalBlockedByFailure(thread.goalUpdatedAt, f.at) {
          thread := thread.(goalHeld := false);
        } else if !HeldConversationAllowed(thread.goalStatus, thread.goalUpdatedAt, origin) {
          SkipHeld(t, f, thread);
          return;
        }
      }
      var decision := ClassifyCompletion(f.completion, config);
      if !decision.retry {
        CancelRetry(t, thread);
        return;
      }
      var limits := LimitsForDecision(decision, config);
      if now - thread.recoveryStartedAt > MAX_RECOVERY_DURATION || attempt > limits.attempts
          || consecutive > limits.consecutive {
        StopExhaustedRetry(t, f, now, thread, attempt, consecutive, origin, decision.kind, limits);
        return;
      }
      var delay := RetryDelay(consecutive, config);
      thread := thread.(recoveryAttempts := attempt, consecutiveRetries := consecutive, currentTurnProgress := false,
                        lastFailureAt := f.at, awaiting := None, stopped := None, goalStop := None);
      var retry := Retry(FaultOf(f, origin, decision.kind), attempt, limits.attempts, consecutive, limits.consecutive,
                         0, parentNotified, false);
      threads := threads[t := thread.(pending := Some(Pending(retry, now + delay)))];
    }

    method HandleTaskComplete(t: ThreadId, f: Failure, now: Time, before: ThreadState)
      requires Valid()
      modifies `threads
      ensures threads == C.Store(old(threads), t, OnTaskComplete(before, f, now, config))
    {
      var thread := before;
      if GoalLimitStopped(thread) {
        threads := threads[t := thread];
        return;
      }
      if f.turn != "" && f.turn == thread.lastAbortedTurn {
        CancelRetry(t, thread);
        return;
      }
      if thread.awaiting.Some? {
        var retry := thread.awaiting.value.retry;
        if thread.awaiting.value.retryTurn == "" || thread.awaiting.value.retryTurn != f.turn {
          return;
        }
        if Succeeded(f.completion) {
          CancelRetry(t, thread);
          return;
        }
        var next := retry.consecutive + 1;
        if thread.currentTurnProgress {
          next := 1;
        }
        thread := thread.(currentTurnProgress := false, awaiting := None);
        ScheduleNextRetry(t, f, now, thread, retry.attempt + 1, next, retry.fault.originStartedAt,
            retry.parentNotified);
        return;
      }
      if thread.pending.Some? {
        if thread.pending.value.retry.fault.failedTurn != f.turn {
          return;
        }
        if Succeeded(f.completion) {
          CancelRetry(t, thread);
        }
        return;
      }
      if Succeeded(f.completion) {
        CancelRetry(t, thread);
        return;
      }
      thread := thread.(currentTurnProgress := false);
      ScheduleNextRetry(t, f, now, thread, 1, 1, ExternalTurnOrigin(thread, f.turn, f.at), false);
    }

    /** The branch of `handleGoalUpdatedLocked` for an active goal beside a goal-limit stop. */
    method KeepOrLiftGoalStop(t: ThreadId, before: ThreadState, previous: GoalStatus)
      requires before.stopped.Some?
      modifies `threads
      ensures threads == old(threads)[t := ActivatedWhileStopped(before, previous)]
    {
      var thread := before;
      if thread.stopped.value.reason.GoalEmptyResponseBlockFailed? {
        threads := threads[t := thread.(goalHeld := true)];
        return;
      }
      if previous != Active && thread.goalStop.None? {
        thread := thread.(stopped := None, recoveryAttempts := 0, consecutiveRetries := 0,
            currentTurnProgress := false);
      }
      threads := threads[t := thread.(goalHeld := false)];
    }

    method HandleGoalUpdated(t: ThreadId, at: Time, status: GoalStatus, updatedAt: Time, before: ThreadState)
      modifies `threads
      ensures threads == C.Store(old(threads), t, OnGoalUpdated(before, at, status, updatedAt))
    {
      var thread := before;
      if (thread.goalUpdatedAt != 0 && updatedAt < thread.goalUpdatedAt) ||
         (thread.goalObservedAt != 0 && !(at > thread.goalObservedAt)) {
        return;
      }
      thread := thread.(goalStatus := status, goalUpdatedAt := updatedAt, goalObservedAt := at);
      if GoalLimitRestartPending(thread) && status.Blocked? {
        threads := threads[t := thread.(goalHeld := true)];
        return;
      }
      if GoalLimitStopped(thread) {
        if status.Active? {
          KeepOrLiftGoalStop(t, thread, before.goalStatus);
          return;
        }
        if EndsGoalStop(status) {
          thread := thread.(goalStop := None, goalHeld := true);
          thread := thread.(stopped := Some(thread.stopped.value.(reason := GoalEmptyResponseLimit)));
          threads := threads[t := thread];
          return;
        }
      }
      thread := thread.(goalHeld := GoalRequiresHold(status, updatedAt, thread.lastFailureAt));
      if !thread.goalHeld || HeldConversationStillAllowed(thread, status, updatedAt) {
        threads := threads[t := thread];
        return;
      }
      CancelRetry(t, thread);
    }

    method HandleRecoveryNotice(t: ThreadId, child: ThreadId, failure: EventKey, before: ThreadState)
      modifies `threads
      ensures threads == C.Store(old(threads), t, OnRecoveryNotice(t, before, child, failure))
    {
      var thread := before;
      var markPending := child == t && thread.pending.Some? && failure == thread.pending.value.retry.fault.key;
      var markAwaiting := child == t && thread.awaiting.Some? && failure == thread.awaiting.value.retry.fault.key;
      if !markPending && !markAwaiting {
        return;
      }
      if markPending {
        var retry := thread.pending.value.retry.(parentNotified := true);
        thread := thread.(pending := Some(thread.pending.value.(retry := retry)));
      }
      if markAwaiting {
        var retry := thread.awaiting.value.retry.(parentNotified := true);
        thread := thread.(awaiting := Some(thread.awaiting.value.(retry := retry)));
      }
      threads := threads[t := thread];
    }

    /** One event, unless its key was handled before. */
    method HandleEvent(item: Item, now: Time)
      requires Valid()
      modifies `threads, `processed
      ensures Valid() && View() == C.HandleEvent(old(View()), item, now)
    {
      var key := KeyOf(item);
      if key in processed {
        return;
      }
      processed := processed[key := now];
      var t, thread := item.thread, C.Lookup(threads, item.thread);
      match item.event
      case TaskStarted(turn, at) => HandleTaskStarted(t, turn, at, thread);
      case TaskUserInput(turn, _) => HandleTaskUserInput(t, turn, thread);
      case TaskProgress(at) => HandleTaskProgress(t, at, thread);
      case TaskComplete(turn, at, completion) =>
        HandleTaskComplete(t, Failure(key, turn, at, completion, item.codexHome, item.rolloutPath), now, thread);
      case TurnAborted(turn, at) => HandleTurnAborted(t, turn, at, thread);
      case GoalUpdated(at, status, updatedAt) => HandleGoalUpdated(t, at, status, updatedAt, thread);
      case RecoveryNotice(_, child, failure) => HandleRecoveryNotice(t, child, failure, thread);
    }

    /** The events of one scan, in order. */
    method HandleEvents(items: seq<Item>, now: Time)
      requires Valid()
      modifies `threads, `processed
      ensures Valid() && View() == AllHandled(old(View()), items, now)
    {
      var i := 0;
      assert items[..0] == [];
      while i < |items|
        invariant 0 <= i <= |items| && Valid()
        invariant View() == AllHandled(old(View()), items[..i], now)
      {
        assert items[..i + 1][..i] == items[..i] && items[..i + 1][i] == items[i];
        HandleEvent(items[i], now);
        i := i + 1;
      }
      assert items[..|items|] == items;
    }

    // ---- commands ----

    method ApplyControlCommand(command: Command, now: Time)
      requires Valid()
      modifies `threads
      ensures Valid() && View() == C.ApplyCommand(old(View()), command, now)
    {
      if command.thread !in threads {
        return;
      }
      var thread := threads[command.thread];
      match command.kind
      case RetryNow =>
        if thread.pending.None? {
          return;
        }
        thread := thread.(pending := Some(thread.pending.value.(dueAt := now)));
        threads := threads[command.thread := thread];
      case CancelRetry =>
        if thread.pending.None? {
          return;
        }
        thread := thread.(pending := None, recoveryAttempts := 0, consecutiveRetries := 0);
        threads := threads[command.thread := thread.(currentTurnProgress := false, goalStop := None)];
      case RestartRetry =>
        if thread.stopped.None? {
          return;
        }
        var s := thread.stopped.value;
        thread := thread.(stopped := None, goalStop := None, goalHeld := false);
        thread := thread.(recoveryAttempts := 1, consecutiveRetries := 1, recoveryStartedAt := now);
        var limits := LimitsFor(s.fault.kind, config);
        var retry := Retry(s.fault, 1, limits.attempts, 1, limits.consecutive, 0, false, IsGoalLimitReason(s.reason));
        threads := threads[command.thread := thread.(pending := Some(Pending(retry, now)))];
    }

    // ---- configuration and startup ----

    method StopPendingRetry(t: ThreadId, before: ThreadState, now: Time)
      requires before.pending.Some?
      modifies `threads
      ensures threads == old(threads)[t := StopOverBudget(before, now, config)]
    {
      var retry := before.pending.value.retry;
      var attempts, completed := CompletedCount(retry.attempt), CompletedCount(retry.consecutive);
      var reason := StopReasonForClass(retry.fault.kind, config, retry.attempt, retry.maxAttempts, retry.consecutive,
          retry.maxConsecutive);
      if retry.fault.kind.EmptyResponse? && before.goalStatus.Active? {
        reason := GoalEmptyResponseLimit;
      }
      var thread := before.(pending := None, awaiting := None, recoveryAttempts := attempts,
          consecutiveRetries := completed);
      thread := thread.(stopped := Some(Stopped(retry.fault, now, attempts, retry.maxAttempts, completed,
          retry.maxConsecutive,
                                                reason, false, None)));
      if reason == GoalEmptyResponseLimit {
        thread := thread.(goalStop := Some(GoalStop(retry.fault.key, reason, now, now, 0)));
      }
      threads := threads[t := thread];
    }

    method ReloadThread(t: ThreadId, wall: Time)
      requires t in threads
      modifies `threads
      ensures threads == old(threads)[t := Reloaded(old(threads)[t], wall, config)]
    {
      var thread := threads[t];
      if thread.awaiting.Some? {
        var limits := LimitsFor(thread.awaiting.value.retry.fault.kind, config);
        var retry := thread.awaiting.value.retry.(maxAttempts := limits.attempts, maxConsecutive := limits.consecutive);
        thread := thread.(awaiting := Some(thread.awaiting.value.(retry := retry)));
      }
      if thread.pending.Some? {
        var limits := LimitsFor(thread.pending.value.retry.fault.kind, config);
        var retry := thread.pending.value.retry.(maxAttempts := limits.attempts, maxConsecutive := limits.consecutive);
        thread := thread.(pending := Some(thread.pending.value.(retry := retry)));
        if retry.attempt > limits.attempts || retry.consecutive > limits.consecutive {
          StopPendingRetry(t, thread, wall);
          return;
        }
      }
      threads := threads[t := thread];
    }

    /** A configuration that cannot be read or is not valid changes nothing. */
    method ReloadConfig(loaded: Option<Config>, wall: Time)
      requires Valid() && (loaded.Some? ==> ValidConfig(loaded.value))
      modifies `threads, `config, `controller
      ensures Valid()
      ensures View() == if loaded.Some? then C.Reload(old(View()), loaded.value, wall) else old(View())
    {
      if loaded.None? {
        return;
      }
      config := loaded.value;
      if !config.sharedEnabled {
        if controller == Ready || controller == Starting {
          controller := Failing(SharedDisabled);
        }
      } else if controller == Failing(SharedDisabled) {
        controller := Starting;
      }
      var todo := threads.Keys;
      while todo != {}
        invariant config == loaded.value && todo <= threads.Keys == old(threads).Keys
        invariant controller == C.ReloadedController(old(controller), config.sharedEnabled)
        invariant forall t :: t in threads ==>
          threads[t] == if t in todo then old(threads)[t] else Reloaded(old(threads)[t], wall, config)
        decreases todo
      {
        var t :| t in todo;
        todo := todo - {t};
        ReloadThread(t, wall);
      }
      assert threads == C.ReloadThreads(old(threads), config, wall);
    }

    /** A retry that was dispatched but never acknowledged before the process ended is due again. */
    method ReconcileStartup(now: Time)
      modifies `threads
      ensures threads == C.StartThreads(old(threads), now)
    {
      var todo := threads.Keys;
      while todo != {}
        invariant todo <= threads.Keys == old(threads).Keys
        invariant forall t :: t in threads ==>
          threads[t] == if t in todo then old(threads)[t] else RestoredAtStartup(old(threads)[t], now)
        decreases todo
      {
        var t :| t in todo;
        todo := todo - {t};
        var thread := threads[t];
        if thread.awaiting.None? || thread.awaiting.value.retryTurn != "" {
          continue;
        }
        thread := thread.(pending := Some(Pending(thread.awaiting.value.retry, now)));
        threads := threads[t := thread.(awaiting := None)];
      }
    }

    // ---- controller failures ----

    method StopAwaitingForController(t: ThreadId, before: ThreadState, now: Time, reason: Reason)
      requires before.awaiting.Some?
      modifies `threads
      ensures threads == old(threads)[t := StopAwaiting(before, now, reason)]
    {
      var retry := before.awaiting.value.retry;
      var thread := before.(pending := None, awaiting := None, goalStop := None);
      thread := thread.(recoveryAttempts := CompletedCount(retry.attempt),
          consecutiveRetries := CompletedCount(retry.consecutive));
      thread := thread.(stopped := Some(Stopped(retry.fault, now, thread.recoveryAttempts, retry.maxAttempts,
                                                thread.consecutiveRetries, retry.maxConsecutive, reason, false, None)));
      threads := threads[t := thread];
    }

    method StopPendingForController(t: ThreadId, before: ThreadState, now: Time, reason: Reason)
      requires before.pending.Some?
      modifies `threads
      ensures threads == old(threads)[t := StopPending(before, now, reason)]
    {
      var retry := before.pending.value.retry;
      var unsent := reason == SharedDisabled && retry.dispatchFailures == 0 && !retry.parentNotified &&
        !retry.goalLimitRestart && retry.fault.failedAt != 0 && !(before.lastAutoRetryAt > retry.fault.failedAt);
      var thread := before.(pending := None, awaiting := None, goalStop := None, currentTurnProgress := false);
      thread := thread.(recoveryAttempts := CompletedCount(retry.attempt),
          consecutiveRetries := CompletedCount(retry.consecutive));
      thread := thread.(stopped := Some(Stopped(retry.fault, now, thread.recoveryAttempts, retry.maxAttempts,
                                                thread.consecutiveRetries, retry.maxConsecutive, reason, false,
                                                    Some(unsent))));
      threads := threads[t := thread];
    }

    method RescheduleAwaitingRetry(t: ThreadId, before: ThreadState, now: Time, reason: Reason, countFailure: bool)
      requires Valid() && before.awaiting.Some?
      modifies `threads
      ensures threads == old(threads)[t := RescheduleAwaiting(before, now, reason, countFailure, config)]
    {
      var retry := before.awaiting.value.retry;
      var failures := retry.dispatchFailures;
      if countFailure {
        failures := failures + 1;
      }
      if NeedsAction(reason) || (countFailure && failures >= config.controllerFailureLimit) {
        StopAwaitingForController(t, before, now, reason);
        return;
      }
      var index := failures;
      if index < 1 {
        index := 1;
      }
      var delay := RetryDelay(index, config);
      var thread := before.(awaiting := None);
      threads := threads[t := thread.(pending := Some(Pending(retry.(dispatchFailures := failures), now + delay)))];
    }

    // ---- tick stages ----

    method ReopenOne(t: ThreadId, now: Time)
      requires t in threads
      modifies `threads
      ensures threads == old(threads)[t := C.ReopenThread(old(threads)[t], t in active, now, config)]
    {
      var thread := threads[t];
      if !CanReopen(thread, now) || t in active {
        return;
      }
      var s := thread.stopped.value;
      var attempt, consecutive := s.attempts + 1, s.consecutive + 1;
      var limits := LimitsFor(s.fault.kind, config);
      var recoveryLimit, consecutiveLimit := Min(limits.attempts, s.maxAttempts),
          Min(limits.consecutive, s.maxConsecutive);
      if attempt > recoveryLimit || consecutive > consecutiveLimit {
        return;
      }
      thread := thread.(stopped := None);
      if thread.recoveryStartedAt == 0 {
        thread := thread.(recoveryStartedAt := s.fault.failedAt);
      }
      thread := thread.(recoveryAttempts := attempt, consecutiveRetries := consecutive);
      var retry := Retry(s.fault, attempt, recoveryLimit, consecutive, consecutiveLimit, 0, false, false);
      threads := threads[t := thread.(pending := Some(Pending(retry, now)))];
    }

    method ReopenRestartRequired(now: Time)
      modifies `threads
      ensures View() == C.Reopen(old(View()), now)
    {
      if paused {
        return;
      }
      var todo := threads.Keys;
      while todo != {}
        invariant todo <= threads.Keys == old(threads).Keys
        invariant forall t :: t in threads ==>
          threads[t] == if t in todo then old(threads)[t] else C.ReopenThread(old(threads)[t], t in active, now, config)
        decreases todo
      {
        var t :| t in todo;
        todo := todo - {t};
        ReopenOne(t, now);
      }
      assert threads == C.Reopen(old(View()), now).threads;
    }

    method ExpireUnacknowledged(now: Time)
      requires Valid()
      modifies `threads
      ensures View() == C.Expire(old(View()), now)
    {
      var todo := threads.Keys;
      while todo != {}
        invariant todo <= threads.Keys == old(threads).Keys
        invariant forall t :: t in threads ==>
          threads[t] == if t in todo then old(threads)[t] else C.ExpireThread(old(threads)[t], t in active, now, config)
        decreases todo
      {
        var t :| t in todo;
        todo := todo - {t};
        var thread := threads[t];
        if thread.awaiting.None? || thread.awaiting.value.retryTurn != "" || thread.awaiting.value.startDeadline > now {
          continue;
        }
        if t in active {
          continue;
        }
        RescheduleAwaitingRetry(t, thread, now, StartNotAcknowledged, true);
      }
      assert threads == C.Expire(old(View()), now).threads;
    }

    method AskAbout(t: ThreadId, now: Time) returns (due: bool)
      requires t in threads
      modifies `threads
      ensures due == ProbeDue(old(threads)[t], now, config)
      ensures threads == old(threads)[t := if due then ProbeStarted(old(threads)[t], now) else old(threads)[t]]
    {
      var thread := threads[t];
      if thread.awaiting.None? || thread.awaiting.value.retryTurn == "" {
        return false;
      }
      var awaiting := thread.awaiting.value;
      var since := awaiting.startedAt;
      if since == 0 {
        since := awaiting.dispatchStartedAt;
      }
      if since == 0 || now - since < config.startAckTimeoutSeconds * SECOND {
        return false;
      }
      if awaiting.lastLifecycleCheckAt != 0 && now - awaiting.lastLifecycleCheckAt < PROBE_INTERVAL {
        return false;
      }
      threads := threads[t := thread.(awaiting := Some(awaiting.(lastLifecycleCheckAt := now)))];
      return true;
    }

    /** The first half of `reconcileAwaitingLifecycle`: the turns to ask about, each marked as being asked. */
    method CollectProbes(now: Time) returns (probes: map<ThreadId, C.Probe>)
      modifies `threads
      ensures probes == C.ProbesDue(old(View()), now)
      ensures View() == C.StartProbes(old(View()), now)
    {
      probes := map[];
      var todo := threads.Keys;
      ghost var wanted, started := C.ProbesDue(View(), now), C.StartProbes(View(), now).threads;
      while todo != {}
        invariant todo <= threads.Keys == old(threads).Keys
        invariant forall t :: t in threads ==> threads[t] == if t in todo then old(threads)[t] else started[t]
        invariant probes == wanted - todo
        decreases todo
      {
        var t :| t in todo;
        var thread := threads[t];
        var due := AskAbout(t, now);
        if due {
          probes := probes[t := C.Probe(thread.awaiting.value.retry.fault.key, thread.awaiting.value.retryTurn)];
        }
        OneMore(wanted, todo, t);
        todo := todo - {t};
      }
      OneMore(wanted, todo, "");
      assert threads == started;
    }

    /** The branch of `advanceInactiveAwaitingLocked` for a chain over its limits. */
    method StopInactiveRetry(t: ThreadId, before: ThreadState, now: Time, attempt: int, consecutive: int)
      requires before.awaiting.Some?
      requires attempt == before.awaiting.value.retry.attempt + 1
      requires consecutive == if before.currentTurnProgress then 1 else before.awaiting.value.retry.consecutive + 1
      requires attempt > before.awaiting.value.retry.maxAttempts
          || consecutive > before.awaiting.value.retry.maxConsecutive
      modifies `threads
      ensures threads == old(threads)[t := AdvanceInactive(before, now, config)]
    {
      var retry := before.awaiting.value.retry;
      var thread := before.(awaiting := None, currentTurnProgress := false);
      var attempts, completed := CompletedCount(attempt), CompletedCount(consecutive);
      var reason := StopReasonForClass(retry.fault.kind, config, attempt, retry.maxAttempts, consecutive,
          retry.maxConsecutive);
      if retry.fault.kind.EmptyResponse? && thread.goalStatus.Active? {
        reason := GoalEmptyResponseLimit;
      }
      thread := thread.(pending := None, recoveryAttempts := attempts, consecutiveRetries := completed);
      var since := before.awaiting.value.startedAt;
      if since == 0 {
        since := before.awaiting.value.dispatchStartedAt;
      }
      thread := thread.(stopped := Some(Stopped(retry.fault, now, attempts, retry.maxAttempts, completed,
          retry.maxConsecutive, reason, since != 0 && now - since > DISPLAY_WINDOW, None)));
      if reason == GoalEmptyResponseLimit {
        thread := thread.(goalStop := Some(GoalStop(retry.fault.key, reason, now, now, 0)));
      }
      threads := threads[t := thread];
    }

    method AdvanceInactiveRetry(t: ThreadId, before: ThreadState, now: Time)
      requires Valid() && before.awaiting.Some?
      modifies `threads
      ensures threads == old(threads)[t := AdvanceInactive(before, now, config)]
    {
      var retry := before.awaiting.value.retry;
      var attempt, consecutive := retry.attempt + 1, retry.consecutive + 1;
      if before.currentTurnProgress {
        consecutive := 1;
      }
      var thread := before.(awaiting := None, currentTurnProgress := false);
      if attempt > retry.maxAttempts || consecutive > retry.maxConsecutive {
        StopInactiveRetry(t, before, now, attempt, consecutive);
        return;
      }
      var delay := RetryDelay(consecutive, config);
      thread := thread.(recoveryAttempts := attempt, consecutiveRetries := consecutive, stopped := None,
          goalStop := None);
      threads := threads[t := thread.(pending := Some(Pending(retry.(attempt := attempt, consecutive := consecutive),
          now + delay)))];
    }

    method RecordControllerSuccess()
      modifies `controller
      ensures controller == C.SuccessController(old(View()))
    {
      if config.sharedEnabled && controller != OfficialIpcReady {
        controller := Ready;
      }
    }

    /** The second half of `reconcileAwaitingLifecycle`: an answer counts only for the turn it was asked about. */
    method TakeProbeAnswer(t: ThreadId, probe: C.Probe, answer: Answer, now: Time)
      requires Valid()
      modifies `threads, `controller
      ensures Valid() && View() == C.AnswerProbe(old(View()), t, probe, answer, now)
    {
      var thread := C.Lookup(threads, t);
      if t !in threads || thread.awaiting.None? || thread.awaiting.value.retry.fault.key != probe.key ||
         thread.awaiting.value.retryTurn != probe.turn {
        return;
      }
      var awaiting := thread.awaiting.value;
      if answer.ProbeFailed? {
        controller := Failing(answer.reason);
        var failures := awaiting.retry.dispatchFailures + 1;
        if NeedsAction(answer.reason) || failures >= config.controllerFailureLimit {
          StopAwaitingForController(t, thread, now, answer.reason);
          return;
        }
        awaiting := awaiting.(retry := awaiting.retry.(dispatchFailures := failures));
        threads := threads[t := thread.(awaiting := Some(awaiting))];
        return;
      }
      RecordControllerSuccess();
      awaiting := awaiting.(retry := awaiting.retry.(dispatchFailures := 0));
      if answer.active {
        threads := threads[t := thread.(awaiting := Some(awaiting.(lifecycleChecks := 0)))];
        return;
      }
      awaiting := awaiting.(lifecycleChecks := awaiting.lifecycleChecks + 1);
      thread := thread.(awaiting := Some(awaiting));
      if awaiting.lifecycleChecks < CONFIRMATIONS {
        threads := threads[t := thread];
        return;
      }
      AdvanceInactiveRetry(t, thread, now);
    }

    // ---- dispatch ----

    method CollectGoalStops(now: Time) returns (due: map<ThreadId, Time>)
      ensures due.Keys == C.GoalStopsDue(View(), now)
      ensures forall t :: t in due ==> due[t] == C.GoalDueAt(View(), t)
    {
      due := map[];
      var todo := threads.Keys;
      while todo != {}
        invariant todo <= threads.Keys
        invariant forall t :: t in due <==> t !in todo && C.GoalStopDue(View(), t, now)
        invariant forall t :: t in due ==> due[t] == C.GoalDueAt(View(), t)
        decreases todo
      {
        var t :| t in todo;
        todo := todo - {t};
        if threads[t].goalStop.None? || threads[t].goalStop.value.dueAt > now || t in active {
          continue;
        }
        due := due[t := threads[t].goalStop.value.dueAt];
      }
    }

    method TakeGoalSlot(t: ThreadId) returns (job: Job)
      requires t in threads && threads[t].goalStop.Some?
      modifies `active
      ensures job == C.GoalJob(t, threads[t]) && active == old(active)[t := job]
    {
      var thread := threads[t];
      job := GoalBlockJob(t, thread.goalStop.value.key, thread.goalStop.value.dispatchFailures, NoFailure, 0, "", "");
      if thread.stopped.Some? {
        var s := thread.stopped.value;
        job := job.(kind := s.fault.kind, attempts := s.attempts, codexHome := s.fault.codexHome,
            rolloutPath := s.fault.rolloutPath);
      }
      active := active[t := job];
    }

    method TakeGoalSlots(goals: seq<ThreadId>) returns (jobs: seq<Job>)
      requires forall t :: t in goals ==> t in threads && threads[t].goalStop.Some?
      modifies `active
      ensures View() == C.WithGoalJobs(old(View()), goals)
      ensures jobs == GoalJobs(threads, goals) && |jobs| == |goals|
    {
      ghost var before := View();
      jobs := [];
      var i := 0;
      NothingLaunched(before);
      assert goals[..0] == [];
      while i < |goals|
        invariant 0 <= i == |jobs| <= |goals|
        invariant active == C.WithGoalJobs(before, goals[..i]).active
        invariant jobs == GoalJobs(threads, goals[..i])
      {
        GoalSlotsGrow(before, goals, i);
        var job := TakeGoalSlot(goals[i]);
        jobs := jobs + [job];
        i := i + 1;
      }
      assert goals[..i] == goals;
      SlotsOnly(before, goals);
    }

    method StopIfDue(t: ThreadId, now: Time, reason: Reason)
      requires t in threads
      modifies `threads
      ensures threads == old(threads)[t := StoppedIfDue(old(threads)[t], now, reason)]
    {
      var thread := threads[t];
      if thread.pending.None? || thread.pending.value.dueAt > now || thread.awaiting.Some? {
        return;
      }
      StopPendingForController(t, thread, now, reason);
    }

    /** Without a verified transport every due entry stops, so that none looks as if it had been sent. */
    method StopAllDue(now: Time, reason: Reason)
      requires reason == C.BlockedReason(View())
      modifies `threads
      ensures View() == C.StopDue(old(View()), now)
    {
      ghost var before := threads;
      var todo := threads.Keys;
      while todo != {}
        invariant todo <= threads.Keys == before.Keys
        invariant forall t {:trigger threads[t]} :: t in threads ==>
          threads[t] == if t in todo then before[t] else StoppedIfDue(before[t], now, reason)
        decreases todo
      {
        var t :| t in todo;
        todo := todo - {t};
        StopIfDue(t, now, reason);
      }
      AllStopped(old(View()), threads, now);
    }

    method SweepOne(t: ThreadId, now: Time) returns (candidate: bool)
      requires t in threads
      modifies `threads
      ensures threads == old(threads)[t := Swept(old(threads)[t], t in active, now)]
      ensures candidate == Candidate(old(threads)[t], t in active, now)
      ensures candidate ==> threads[t] == old(threads)[t]
    {
      var thread := threads[t];
      if thread.goalHeld && !GoalLimitRestartPending(thread) &&
         !HeldConversationStillAllowed(thread, thread.goalStatus, thread.goalUpdatedAt) {
        if thread.pending.Some? || thread.awaiting.Some? {
          thread := thread.(pending := None, awaiting := None, recoveryAttempts := 0, consecutiveRetries := 0);
          threads := threads[t := thread.(currentTurnProgress := false, stopped := None)];
        }
        return false;
      }
      if thread.pending.None? || thread.pending.value.dueAt > now || thread.awaiting.Some? || t in active {
        return false;
      }
      if thread.recoveryStartedAt != 0 && now - thread.recoveryStartedAt > MAX_RECOVERY_DURATION {
        StopPendingForController(t, thread, now, RecoveryTimeLimit);
        return false;
      }
      return true;
    }

    method SweepCandidates(now: Time) returns (due: map<ThreadId, Time>)
      modifies `threads
      ensures due.Keys == C.Candidates(old(View()), now)
      ensures forall t :: t in due ==> due[t] == C.PendingDueAt(old(View()), t)
      ensures threads.Keys == old(threads).Keys
      ensures forall t :: t in threads ==> threads[t] == Swept(old(threads)[t], t in active, now)
    {
      due := map[];
      var todo := threads.Keys;
      while todo != {}
        invariant todo <= threads.Keys == old(threads).Keys
        invariant forall t :: t in threads ==> threads[t] == if t in todo then old(threads)[t]
            else Swept(old(threads)[t], t in active, now)
        invariant forall t :: t in due <==>
          t in old(threads) && t !in todo && Candidate(old(threads)[t], t in active, now)
        invariant forall t :: t in due ==> due[t] == C.PendingDueAt(old(View()), t)
        decreases todo
      {
        var t :| t in todo;
        todo := todo - {t};
        var candidate := SweepOne(t, now);
        if candidate {
          due := due[t := threads[t].pending.value.dueAt];
        }
      }
    }

    method LaunchPick(t: ThreadId, now: Time) returns (job: Job)
      requires t in threads && threads[t].pending.Some?
      modifies `threads, `active
      ensures threads == old(threads)[t := Dispatched(old(threads)[t], now, config)]
      ensures job == RecoveryJob(t, old(threads)[t].pending.value.retry) && active == old(active)[t := job]
    {
      var thread := threads[t];
      var retry := thread.pending.value.retry;
      thread := thread.(pending := None, lastAutoRetryAt := now);
      thread := thread.(awaiting := Some(Awaiting(retry, "", Dispatching, now,
          now + config.startAckTimeoutSeconds * SECOND, 0, 0, 0)));
      threads := threads[t := thread];
      job := RecoveryJob(t, retry);
      active := active[t := job];
    }

    /** The launch loop: each picked entry starts to await its job. */
    method LaunchPicks(picks: seq<ThreadId>, now: Time) returns (jobs: seq<Job>)
      requires C.NoRepeats(picks)
      requires forall t :: t in picks ==> t in threads && threads[t].pending.Some?
      modifies `threads, `active
      ensures threads.Keys == old(threads).Keys
      ensures forall t :: t in threads ==>
        threads[t] == if t in picks then Dispatched(old(threads)[t], now, config) else old(threads)[t]
      ensures active == WithRecoveryJobs(old(threads), old(active), picks)
      ensures jobs == RecoveryJobs(old(threads), picks)
    {
      jobs := [];
      var i := 0;
      while i < |picks|
        invariant 0 <= i <= |picks| && threads.Keys == old(threads).Keys
        invariant forall t :: t in threads ==>
          threads[t] == if t in picks[..i] then Dispatched(old(threads)[t], now, config) else old(threads)[t]
        invariant active == WithRecoveryJobs(old(threads), old(active), picks[..i])
        invariant jobs == RecoveryJobs(old(threads), picks[..i])
      {
        PicksGrow(old(threads), old(active), picks, i);
        var job := LaunchPick(picks[i], now);
        jobs := jobs + [job];
        i := i + 1;
      }
      assert picks[..|picks|] == picks;
    }

    /** The last part of `dispatchDueLocked`: with a transport, the earliest due retries are sent. */
    method SendDue(now: Time, available: nat) returns (jobs: seq<Job>, ghost picks: seq<ThreadId>)
      modifies `threads, `active
      ensures C.EarliestFirst(picks, C.Candidates(old(View()), now), available, t => C.PendingDueAt(old(View()), t))
      ensures View() == C.Launch(old(View()), picks, now)
      ensures jobs == RecoveryJobs(old(threads), picks)
    {
      var due := SweepCandidates(now);
      var chosen := TakeEarliest(due, available);
      picks := chosen;
      PickChoice(old(View()), now, due, available, picks);
      SweptPicks(old(threads), threads, active, now, picks);
      jobs := LaunchPicks(chosen, now);
      Launching(old(View()), View(), now, picks);
    }

    method SlotsLeft() returns (available: int)
      ensures available == C.Room(View())
    {
      available := config.maxParallelRetries - |active|;
    }

    method NoTransportReason() returns (blocked: bool, reason: Reason)
      ensures blocked == C.TransportBlocked(View()) && reason == C.BlockedReason(View())
    {
      blocked := controller != OfficialIpcReady &&
        (!config.sharedEnabled || controller == Failing(SharedDisabled) || controller == Failing(ConfigInvalid));
      reason := SharedDisabled;
      if controller.Failing? && (NeedsFailOpen(controller.reason) || controller.reason == CodexNotRunning) {
        reason := controller.reason;
      }
    }

    /** `dispatchDueLocked` once the goal-block requests have their slots. */
    method DispatchRest(now: Time, available: nat) returns (jobs: seq<Job>, ghost picks: seq<ThreadId>)
      modifies `threads, `active
      ensures RestChoice(old(View()), now, available, picks)
      ensures View() == RestDispatched(old(View()), now, available, picks)
      ensures jobs == RecoveryJobs(old(threads), picks)
    {
      jobs, picks := [], [];
      if available == 0 || paused {
        return;
      }
      var blocked, reason := NoTransportReason();
      if blocked {
        StopAllDue(now, reason);
        return;
      }
      jobs, picks := SendDue(now, available);
    }

    /** The first part of `dispatchDueLocked`: the earliest due goal-block requests take slots. */
    method DispatchGoals(now: Time, available: nat) returns (jobs: seq<Job>, ghost goals: seq<ThreadId>)
      modifies `active
      ensures GoalsChosen(old(View()), now, available, goals)
      ensures View() == C.WithGoalJobs(old(View()), goals)
      ensures jobs == GoalJobs(threads, goals) && |jobs| == |goals| <= available
    {
      var due := CollectGoalStops(now);
      var chosen := TakeEarliest(due, available);
      goals := chosen;
      GoalChoice(View(), now, due, available, goals);
      jobs := TakeGoalSlots(chosen);
    }

    /** Both parts, when there is a free slot. */
    method DispatchSlots(now: Time, available: nat)
      returns (jobs: seq<Job>, ghost goals: seq<ThreadId>, ghost picks: seq<ThreadId>)
      requires 0 < available == C.Room(View())
      modifies `threads, `active
      ensures C.DispatchChoice(old(View()), now, goals, picks)
      ensures View() == C.Dispatch(old(View()), now, goals, picks)
      ensures jobs == GoalJobs(old(threads), goals) + RecoveryJobs(old(threads), picks)
    {
      ghost var before := View();
      jobs, goals := DispatchGoals(now, available);
      assert threads == before.threads;
      var more;
      more, picks := DispatchRest(now, available - |jobs|);
      Assembled(before, now, goals, picks);
      jobs := jobs + more;
    }

    /** Goal-block requests take their slots first; then, with a transport, the earliest due retries. */
    method DispatchDue(now: Time) returns (jobs: seq<Job>, ghost goals: seq<ThreadId>, ghost picks: seq<ThreadId>)
      requires Valid()
      modifies `threads, `active
      ensures Valid() && C.DispatchChoice(old(View()), now, goals, picks)
      ensures View() == C.Dispatch(old(View()), now, goals, picks)
      ensures jobs == GoalJobs(old(threads), goals) + RecoveryJobs(old(threads), picks)
    {
      var available := SlotsLeft();
      if available <= 0 {
        NoRoom(View(), now);
        return [], [], [];
      }
      jobs, goals, picks := DispatchSlots(now, available);
    }

    // ---- jobs ----

    /** A job looks again before it calls the controller. */
    method BeginJob(job: Job) returns (proceed: bool)
      modifies `active
      ensures proceed == C.MayStart(old(View()), job) && View() == C.StartJob(old(View()), job)
    {
      var thread := C.Lookup(threads, job.thread);
      proceed := true;
      if job.GoalBlockJob? {
        if thread.goalStop.None? || thread.goalStop.value.key != job.key || !GoalLimitStopped(thread) {
          proceed := false;
        }
      } else if thread.awaiting.None? || thread.awaiting.value.retry.fault.key != job.retry.fault.key ||
        thread.awaiting.value.retry.attempt != job.retry.attempt ||
        (thread.goalHeld && !job.retry.goalLimitRestart
            && !HeldConversationStillAllowed(thread, thread.goalStatus, thread.goalUpdatedAt)) {
        proceed := false;
      }
      if !proceed {
        active := active - {job.thread};
      }
    }

    method FinishRecovery(t: ThreadId, before: ThreadState, result: Result, at: Time)
      requires Valid() && before.awaiting.Some?
      modifies `threads, `controller
      ensures threads == old(threads)[t := RecoveryFinished(before, result, at, config)]
      ensures controller == C.RecoveryController(old(View()), result)
    {
      var thread := before;
      if !result.Error? && result.parentNotified {
        var retry := thread.awaiting.value.retry.(parentNotified := true);
        thread := thread.(awaiting := Some(thread.awaiting.value.(retry := retry)));
      }
      match result
      case Error(_) =>
        controller := Failing(FailureReason(result));
        RescheduleAwaitingRetry(t, thread, at, FailureReason(result), true);
      case RetryLater(_, _) =>
        controller := Failing(FailureReason(result));
        RescheduleAwaitingRetry(t, thread, at, FailureReason(result), true);
      case UserActive(_, _) =>
        RecordControllerSuccess();
        var retry := thread.awaiting.value.retry.(dispatchFailures := 0);
        thread := thread.(awaiting := Some(thread.awaiting.value.(retry := retry)));
        RescheduleAwaitingRetry(t, thread, at, FailureReason(result), false);
      case NotApplicable(reason, _) =>
        RecordControllerSuccess();
        thread := thread.(recoveryAttempts := 0, consecutiveRetries := 0, currentTurnProgress := false);
        thread := thread.(pending := None, awaiting := None, stopped := None, goalStop := None);
        var held := HoldStatusForReason(reason);
        if held.Some? {
          thread := thread.(goalHeld := true);
          if held.value != NoGoal {
            thread := thread.(goalStatus := held.value);
          }
        }
        threads := threads[t := thread];
      case Accepted(action, reason, _) =>
        if !action.GoalActive? && (reason.IpcTurnStarted? || reason.IpcGoalTurnStarted?) {
          controller := OfficialIpcReady;
        }
        RecordControllerSuccess();
        var awaiting := thread.awaiting.value;
        awaiting := awaiting.(action := action, retry := awaiting.retry.(dispatchFailures := 0));
        awaiting := awaiting.(startDeadline := at + config.startAckTimeoutSeconds * SECOND);
        threads := threads[t := thread.(awaiting := Some(awaiting))];
    }

    method RescheduleGoalBlockRequest(before: ThreadState, now: Time, reason: Reason) returns (thread: ThreadState)
      requires Valid() && before.goalStop.Some? && before.stopped.Some?
      ensures thread == RescheduleGoalBlock(before, now, reason, config)
    {
      thread := before;
      var failures := thread.goalStop.value.dispatchFailures + 1;
      if NeedsAction(reason) || failures >= config.controllerFailureLimit {
        thread := thread.(goalStop := None, goalHeld := true);
        if NeedsAction(reason) {
          thread := thread.(stopped := Some(thread.stopped.value.(reason := reason)));
        } else {
          thread := thread.(stopped := Some(thread.stopped.value.(reason := GoalEmptyResponseBlockFailed)));
        }
        return;
      }
      var delay := RetryDelay(failures, config);
      thread := thread.(goalStop := Some(thread.goalStop.value.(dispatchFailures := failures, dueAt := now + delay)));
    }

    method FinishGoalBlock(t: ThreadId, before: ThreadState, result: Result, at: Time)
      requires Valid() && before.goalStop.Some? && before.stopped.Some?
      modifies `threads, `controller
      ensures threads == old(threads)[t := GoalBlockFinished(before, result, at, config)]
      ensures controller == C.GoalBlockController(old(View()), result)
    {
      var thread := before;
      if result.Error? || result.RetryLater? || result.UserActive? {
        controller := Failing(FailureReason(result));
        thread := RescheduleGoalBlockRequest(thread, at, FailureReason(result));
      } else if result.Accepted? && result.action == GoalBlock {
        controller := Ready;
        thread := thread.(goalStop := None, stopped := Some(thread.stopped.value.(reason := GoalEmptyResponseLimit)));
        thread := thread.(goalStatus := BlockedStatus(result.reason), goalObservedAt := at, goalHeld := true);
      } else {
        thread := RescheduleGoalBlockRequest(thread, at, ControllerInvalidResult);
      }
      threads := threads[t := thread];
    }

    /** The slot is free in any case; the result counts only for the entry that still waits for it. */
    method FinishJob(job: Job, result: Result, at: Time)
      requires Valid()
      modifies `threads, `active, `controller
      ensures Valid() && View() == C.FinishJob(old(View()), job, result, at)
    {
      active := active - {job.thread};
      var thread := C.Lookup(threads, job.thread);
      if job.GoalBlockJob? {
        if thread.goalStop.None? || thread.goalStop.value.key != job.key || !GoalLimitStopped(thread) {
          return;
        }
        FinishGoalBlock(job.thread, thread, result, at);
      } else {
        if thread.awaiting.None? || thread.awaiting.value.retry.fault.key != job.retry.fault.key ||
           thread.awaiting.value.retry.attempt != job.retry.attempt {
          return;
        }
        FinishRecovery(job.thread, thread, result, at);
      }
    }
  }

  /** One event after the other. */
  function AllHandled(c: C.Core, items: seq<Item>, now: Time): C.Core {
    if items == [] then c
    else C.HandleEvent(AllHandled(c, items[..|items| - 1], now), items[|items| - 1], now)
  }

  /** The goal-block jobs of the given threads, in order. */
  function GoalJobs(threads: C.Threads, ts: seq<ThreadId>): seq<Job> {
    if ts == [] then []
    else
      var t := ts[|ts| - 1];
      GoalJobs(threads, ts[..|ts| - 1]) +
      (if t in threads && threads[t].goalStop.Some? then [C.GoalJob(t, threads[t])] else [])
  }

  /** The recovery jobs of the given threads, in order. */
  function RecoveryJobs(threads: C.Threads, ts: seq<ThreadId>): seq<Job> {
    if ts == [] then []
    else
      var t := ts[|ts| - 1];
      RecoveryJobs(threads, ts[..|ts| - 1]) +
      (if t in threads && threads[t].pending.Some? then [RecoveryJob(t, threads[t].pending.value.retry)] else [])
  }

  function WithRecoveryJobs(threads: C.Threads, active: map<ThreadId, Job>, ts: seq<ThreadId>): map<ThreadId, Job> {
    active + map t | t in ts && t in threads && threads[t].pending.Some? ::
        RecoveryJob(t, threads[t].pending.value.retry)
  }

  lemma OneMore<K, V>(m: map<K, V>, rest: set<K>, k: K)
    ensures m - (rest - {k}) == if k in m && k in rest then (m - rest)[k := m[k]] else m - rest
    ensures m - {} == m
  {
  }

  function StoppedIfDue(th: ThreadState, now: Time, reason: Reason): ThreadState {
    if DuePending(th, now) then StopPending(th, now, reason) else th
  }

  lemma AllStopped(c: C.Core, after: C.Threads, now: Time)
    requires after.Keys == c.threads.Keys
    requires forall t :: t in after ==> after[t] == StoppedIfDue(c.threads[t], now, C.BlockedReason(c))
    ensures after == C.StopDue(c, now).threads && c.(threads := after) == C.StopDue(c, now)
  {
  }

  lemma ActiveGrows(c: C.Core, less: seq<ThreadId>, t: ThreadId)
    requires t in c.threads && c.threads[t].goalStop.Some?
    ensures C.WithGoalJobs(c, less + [t]).active
        == C.WithGoalJobs(c, less).active[t := C.GoalJob(t, c.threads[t])]
  {
  }

  lemma SlotsOnly(c: C.Core, goals: seq<ThreadId>)
    ensures C.WithGoalJobs(c, goals) == c.(active := C.WithGoalJobs(c, goals).active)
  {
  }

  lemma GoalSlotsGrow(c: C.Core, goals: seq<ThreadId>, i: nat)
    requires i < |goals| && goals[i] in c.threads && c.threads[goals[i]].goalStop.Some?
    ensures var job := C.GoalJob(goals[i], c.threads[goals[i]]);
      && C.WithGoalJobs(c, goals[..i + 1]).active == C.WithGoalJobs(c, goals[..i]).active[goals[i] := job]
      && GoalJobs(c.threads, goals[..i + 1]) == GoalJobs(c.threads, goals[..i]) + [job]
  {
    assert goals[..i + 1] == goals[..i] + [goals[i]];
    ActiveGrows(c, goals[..i], goals[i]);
    assert goals[..i + 1][..i] == goals[..i];
  }

  lemma RecoveryActiveGrows(threads: C.Threads, active: map<ThreadId, Job>, less: seq<ThreadId>, t: ThreadId)
    requires t in threads && threads[t].pending.Some?
    ensures WithRecoveryJobs(threads, active, less + [t]) ==
      WithRecoveryJobs(threads, active, less)[t := RecoveryJob(t, threads[t].pending.value.retry)]
  {
  }

  lemma RecoveryJobsGrow(threads: C.Threads, less: seq<ThreadId>, t: ThreadId)
    requires t in threads && threads[t].pending.Some?
    ensures RecoveryJobs(threads, less + [t]) == RecoveryJobs(threads, less)
        + [RecoveryJob(t, threads[t].pending.value.retry)]
  {
    assert (less + [t])[..|less|] == less;
  }

  lemma PicksGrow(threads: C.Threads, active: map<ThreadId, Job>, picks: seq<ThreadId>, i: nat)
    requires C.NoRepeats(picks) && i < |picks| && picks[i] in threads && threads[picks[i]].pending.Some?
    ensures var job := RecoveryJob(picks[i], threads[picks[i]].pending.value.retry);
      && WithRecoveryJobs(threads, active, picks[..i + 1])
          == WithRecoveryJobs(threads, active, picks[..i])[picks[i] := job]
      && RecoveryJobs(threads, picks[..i + 1]) == RecoveryJobs(threads, picks[..i]) + [job]
    ensures picks[i] !in picks[..i]
    ensures forall t :: t in picks[..i + 1] <==> t in picks[..i] || t == picks[i]
  {
    assert picks[..i + 1] == picks[..i] + [picks[i]];
    RecoveryActiveGrows(threads, active, picks[..i], picks[i]);
    RecoveryJobsGrow(threads, picks[..i], picks[i]);
  }

  lemma NothingLaunched(c: C.Core)
    ensures C.WithGoalJobs(c, []).active == c.active
    ensures C.WithGoalJobs(c, []) == c
  {
  }

  /** The goal-block requests that take slots. */
  ghost predicate GoalsChosen(c: C.Core, now: Time, room: nat, goals: seq<ThreadId>) {
    C.EarliestFirst(goals, C.GoalStopsDue(c, now), room, t => C.GoalDueAt(c, t))
  }

  lemma NoRoom(c: C.Core, now: Time)
    requires C.Room(c) <= 0
    ensures C.DispatchChoice(c, now, [], []) && C.Dispatch(c, now, [], []) == c
    ensures GoalJobs(c.threads, []) == [] && RecoveryJobs(c.threads, []) == []
  {
    NothingLaunched(c);
  }

  lemma GoalChoice(c: C.Core, now: Time, due: map<ThreadId, Time>, room: nat, goals: seq<ThreadId>)
    requires due.Keys == C.GoalStopsDue(c, now) && forall t :: t in due ==> due[t] == C.GoalDueAt(c, t)
    requires C.EarliestFirst(goals, due.Keys, room, t => DueTime(due, t))
    ensures GoalsChosen(c, now, room, goals)
    ensures |goals| <= room && forall t :: t in goals ==> t in c.threads && c.threads[t].goalStop.Some?
  {
    SameDueTimes(goals, due.Keys, room, t => DueTime(due, t), t => C.GoalDueAt(c, t));
    forall t | t in goals ensures t in c.threads && c.threads[t].goalStop.Some? {
      assert t in C.Elements(goals);
    }
  }

  lemma PickChoice(c: C.Core, now: Time, due: map<ThreadId, Time>, room: nat, picks: seq<ThreadId>)
    requires due.Keys == C.Candidates(c, now) && forall t :: t in due ==> due[t] == C.PendingDueAt(c, t)
    requires C.EarliestFirst(picks, due.Keys, room, t => DueTime(due, t))
    ensures C.EarliestFirst(picks, C.Candidates(c, now), room, t => C.PendingDueAt(c, t))
    ensures C.NoRepeats(picks)
    ensures forall t :: t in picks ==> t in c.threads && Candidate(c.threads[t], t in c.active, now)
  {
    SameDueTimes(picks, due.Keys, room, t => DueTime(due, t), t => C.PendingDueAt(c, t));
    forall t | t in picks ensures t in c.threads && Candidate(c.threads[t], t in c.active, now) {
      assert t in C.Elements(picks);
    }
  }

  ghost predicate RestChoice(c: C.Core, now: Time, available: nat, picks: seq<ThreadId>) {
    if available == 0 || c.paused || C.TransportBlocked(c) then picks == []
    else C.EarliestFirst(picks, C.Candidates(c, now), available, t => C.PendingDueAt(c, t))
  }

  ghost function RestDispatched(c: C.Core, now: Time, available: nat, picks: seq<ThreadId>): C.Core {
    if available == 0 || c.paused then c
    else if C.TransportBlocked(c) then C.StopDue(c, now)
    else C.Launch(c, picks, now)
  }

  lemma AssembledChoice(c: C.Core, now: Time, goals: seq<ThreadId>, picks: seq<ThreadId>)
    requires C.Room(c) > 0 && |goals| <= C.Room(c)
    requires GoalsChosen(c, now, C.Room(c), goals)
    requires RestChoice(C.WithGoalJobs(c, goals), now, C.Room(c) - |goals|, picks)
    ensures C.DispatchChoice(c, now, goals, picks)
  {
    var d := C.WithGoalJobs(c, goals);
    SameDueTimes(goals, C.GoalStopsDue(c, now), C.Room(c), t => C.GoalDueAt(c, t), t => C.GoalDueAt(c, t));
    if C.ModeAfterGoals(c, goals).Sending? {
      SameDueTimes(picks, C.Candidates(d, now), C.Room(c) - |goals|, t => C.PendingDueAt(d, t),
          t => C.PendingDueAt(d, t));
    }
  }

  lemma AssembledResult(c: C.Core, now: Time, goals: seq<ThreadId>, picks: seq<ThreadId>)
    requires C.Room(c) > 0 && |goals| <= C.Room(c)
    ensures C.Dispatch(c, now, goals, picks)
        == RestDispatched(C.WithGoalJobs(c, goals), now, C.Room(c) - |goals|, picks)
  {
  }

  /** The two halves of a dispatch make a whole one. */
  lemma Assembled(c: C.Core, now: Time, goals: seq<ThreadId>, picks: seq<ThreadId>)
    requires C.Room(c) > 0 && |goals| <= C.Room(c)
    requires GoalsChosen(c, now, C.Room(c), goals)
    requires RestChoice(C.WithGoalJobs(c, goals), now, C.Room(c) - |goals|, picks)
    ensures C.DispatchChoice(c, now, goals, picks)
    ensures C.Dispatch(c, now, goals, picks)
        == RestDispatched(C.WithGoalJobs(c, goals), now, C.Room(c) - |goals|, picks)
  {
    AssembledChoice(c, now, goals, picks);
    AssembledResult(c, now, goals, picks);
  }

  lemma SweptPicks(before: C.Threads, swept: C.Threads, active: map<ThreadId, Job>, now: Time, picks: seq<ThreadId>)
    requires swept.Keys == before.Keys
    requires forall t :: t in swept ==> swept[t] == Swept(before[t], t in active, now)
    requires forall t :: t in picks ==> t in before && Candidate(before[t], t in active, now)
    ensures forall t :: t in picks ==> t in swept && swept[t] == before[t] && swept[t].pending.Some?
    ensures RecoveryJobs(swept, picks) == RecoveryJobs(before, picks)
    ensures WithRecoveryJobs(swept, active, picks) == WithRecoveryJobs(before, active, picks)
  {
    SweptCandidates(before, swept, active, now, picks);
    SameRecoveryJobs(swept, before, picks);
    SameRecoverySlots(swept, before, active, picks);
  }

  lemma SweptCandidates(before: C.Threads, swept: C.Threads, active: map<ThreadId, Job>, now: Time,
      picks: seq<ThreadId>)
    requires swept.Keys == before.Keys
    requires forall t :: t in swept ==> swept[t] == Swept(before[t], t in active, now)
    requires forall t :: t in picks ==> t in before && Candidate(before[t], t in active, now)
    ensures forall t :: t in picks ==> t in swept && swept[t] == before[t] && swept[t].pending.Some?
  {
  }

  lemma SameRecoverySlots(one: C.Threads, other: C.Threads, active: map<ThreadId, Job>, picks: seq<ThreadId>)
    requires forall t :: t in picks ==> t in one && t in other && one[t] == other[t]
    ensures WithRecoveryJobs(one, active, picks) == WithRecoveryJobs(other, active, picks)
  {
  }

  lemma {:induction false} SameRecoveryJobs(one: C.Threads, other: C.Threads, picks: seq<ThreadId>)
    requires forall t :: t in picks ==> t in one && t in other && one[t] == other[t]
    ensures RecoveryJobs(one, picks) == RecoveryJobs(other, picks)
  {
    if picks != [] { SameRecoveryJobs(one, other, picks[..|picks| - 1]); }
  }

  /** The sweep and the launch loop together are `Launch`. */
  lemma Launching(c: C.Core, d: C.Core, now: Time, picks: seq<ThreadId>)
    requires d == c.(threads := d.threads, active := d.active) && d.threads.Keys == c.threads.Keys
    requires forall t :: t in d.threads ==>
      d.threads[t] == C.LaunchThread(c.threads[t], t in c.active, t in picks, now, c.config)
    requires d.active == WithRecoveryJobs(c.threads, c.active, picks)
    ensures d == C.Launch(c, picks, now)
  {
    assert d.threads == C.Launch(c, picks, now).threads;
  }
}
