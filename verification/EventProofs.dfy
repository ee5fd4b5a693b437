/** Every event keeps the invariant of its thread. */
module EventProofs {
  import opened Types
  import opened Policy
  import opened ThreadSteps
  import opened World
  import opened Invariant

  lemma StartedKeepsOk(t: ThreadId, th: ThreadState, tr0: Trace, turn: TurnId, at: Time, now: Time, bound: int)
    requires ThreadOk(t, th, tr0, now, bound)
    ensures var after := Written(th, OnTaskStarted(th, turn, at));
      ThreadOk(t, after, EventTrace(tr0, TaskStarted(turn, at), now, th, after), now, bound)
  {
    var after := Written(th, OnTaskStarted(th, turn, at));
    var tr := Seeing(tr0, TaskStarted(turn, at), now, th, after);
    SeeingKeepsOk(t, th, tr0, TaskStarted(turn, at), now, after, bound);
    if after == th || GoalLimitStopped(th) {
      SameRecordsKeepOk(t, th, tr, after, now, bound);
    } else if Live(after) {
      StartedTurnKeepsOk(t, th, tr, turn, at, now, bound);
    } else {
      EmptiedKeepsOk(t, th, tr, after, now, bound);
    }
  }

  /** The start is acknowledged or adopted. */
  lemma StartedTurnKeepsOk(t: ThreadId, th: ThreadState, tr: Trace, turn: TurnId, at: Time, now: Time, bound: int)
    requires ThreadOk(t, th, tr, now, bound) && !GoalLimitStopped(th)
    requires OnTaskStarted(th, turn, at).Some? && Live(OnTaskStarted(th, turn, at).value)
    requires tr.ack == Some(Ack(turn, at, th)) && Acknowledges(th, turn, at)
    ensures var after := OnTaskStarted(th, turn, at).value;
      ThreadOk(t, after, Noted(tr, th, after), now, bound)
  {
    LiveKeepsOk(t, th, tr, OnTaskStarted(th, turn, at).value, now, bound);
  }

  lemma InputKeepsOk(t: ThreadId, th: ThreadState, tr0: Trace, turn: TurnId, at: Time, now: Time, bound: int)
    requires ThreadOk(t, th, tr0, now, bound)
    ensures var after := Written(th, OnTaskUserInput(th, turn));
      ThreadOk(t, after, EventTrace(tr0, TaskUserInput(turn, at), now, th, after), now, bound)
  {
    var after := Written(th, OnTaskUserInput(th, turn));
    var tr := Seeing(tr0, TaskUserInput(turn, at), now, th, after);
    SeeingKeepsOk(t, th, tr0, TaskUserInput(turn, at), now, after, bound);
    if after == th {
      SameRecordsKeepOk(t, th, tr, after, now, bound);
    } else {
      EmptiedKeepsOk(t, th, tr, after, now, bound);
    }
  }

  lemma ProgressKeepsOk(t: ThreadId, th: ThreadState, tr0: Trace, at: Time, now: Time, bound: int)
    requires ThreadOk(t, th, tr0, now, bound)
    ensures var after := Written(th, OnTaskProgress(th, at));
      ThreadOk(t, after, EventTrace(tr0, TaskProgress(at), now, th, after), now, bound)
  {
    var after := Written(th, OnTaskProgress(th, at));
    SeeingKeepsOk(t, th, tr0, TaskProgress(at), now, after, bound);
    SameRecordsKeepOk(t, th, Seeing(tr0, TaskProgress(at), now, th, after), after, now, bound);
  }

  lemma AbortedKeepsOk(t: ThreadId, th: ThreadState, tr0: Trace, turn: TurnId, at: Time, now: Time, bound: int)
    requires ThreadOk(t, th, tr0, now, bound)
    ensures var after := Written(th, OnTurnAborted(th, turn, at));
      ThreadOk(t, after, EventTrace(tr0, TurnAborted(turn, at), now, th, after), now, bound)
  {
    var after := Written(th, OnTurnAborted(th, turn, at));
    var tr := Seeing(tr0, TurnAborted(turn, at), now, th, after);
    SeeingKeepsOk(t, th, tr0, TurnAborted(turn, at), now, after, bound);
    if GoalLimitStopped(th) {
      SameRecordsKeepOk(t, th, tr, after, now, bound);
    } else {
      EmptiedKeepsOk(t, th, tr, after, now, bound);
    }
  }

  /** A goal update empties the thread or leaves its records alone. */
  predicate GoalUpdateLike(th: ThreadState, after: ThreadState) {
    && after.lastExternalAt == th.lastExternalAt && after.lastExternalTurn == th.lastExternalTurn
        && (after.currentTurnProgress ==> th.currentTurnProgress)
    && ((Record(after).None? && after.goalStop.None?) || SameRecords(th, after))
  }

  lemma GoalUpdateShape(before: ThreadState, at: Time, status: GoalStatus, updatedAt: Time)
    requires OnePhase(before)
    ensures GoalUpdateLike(before, Written(before, OnGoalUpdated(before, at, status, updatedAt)))
  {
    if StaleGoalUpdate(before, at, updatedAt) { return; }
    var th := before.(goalStatus := status, goalUpdatedAt := updatedAt, goalObservedAt := at);
    if GoalLimitRestartPending(th) && status.Blocked? {
    } else if GoalLimitStopped(th) && status.Active? {
      assert GoalUpdateLike(before, ActivatedWhileStopped(th, before.goalStatus));
    } else if GoalLimitStopped(th) && EndsGoalStop(status) {
    } else {
      assert GoalUpdateLike(before, HoldDecided(th));
    }
  }

  lemma GoalKeepsOk(t: ThreadId, th: ThreadState, tr0: Trace, at: Time, status: GoalStatus, updatedAt: Time, now: Time,
      bound: int)
    requires ThreadOk(t, th, tr0, now, bound)
    ensures var after := Written(th, OnGoalUpdated(th, at, status, updatedAt));
      ThreadOk(t, after, EventTrace(tr0, GoalUpdated(at, status, updatedAt), now, th, after), now, bound)
  {
    GoalUpdateShape(th, at, status, updatedAt);
    var after := Written(th, OnGoalUpdated(th, at, status, updatedAt));
    ShapeKeepsOk(t, th, tr0, GoalUpdated(at, status, updatedAt), after, now, bound);
  }

  lemma ShapeKeepsOk(t: ThreadId, th: ThreadState, tr0: Trace, e: Event, after: ThreadState, now: Time, bound: int)
    requires ThreadOk(t, th, tr0, now, bound)
    requires GoalUpdateLike(th, after)
    ensures ThreadOk(t, after, EventTrace(tr0, e, now, th, after), now, bound)
  {
    var tr := Seeing(tr0, e, now, th, after);
    SeeingKeepsOk(t, th, tr0, e, now, after, bound);
    if Record(after).None? && after.goalStop.None? {
      EmptiedKeepsOk(t, th, tr, after, now, bound);
    } else {
      SameRecordsKeepOk(t, th, tr, after, now, bound);
    }
  }

  lemma NoticeKeepsOk(t: ThreadId, th: ThreadState, tr0: Trace, at: Time, child: ThreadId, failure: EventKey,
      now: Time, bound: int)
    requires ThreadOk(t, th, tr0, now, bound)
    ensures var after := Written(th, OnRecoveryNotice(t, th, child, failure));
      ThreadOk(t, after, EventTrace(tr0, RecoveryNotice(at, child, failure), now, th, after), now, bound)
  {
    var after := Written(th, OnRecoveryNotice(t, th, child, failure));
    var tr := Seeing(tr0, RecoveryNotice(at, child, failure), now, th, after);
    SeeingKeepsOk(t, th, tr0, RecoveryNotice(at, child, failure), now, after, bound);
    if after == th {
      SameRecordsKeepOk(t, th, tr, after, now, bound);
    } else {
      LiveKeepsOk(t, th, tr, after, now, bound);
    }
  }

  /** The failure just seen, with the numbers its chain gives it. */
  predicate FailureFits(t: ThreadId, th: ThreadState, tr: Trace, f: Failure, now: Time, attempt: int, consecutive: int,
      origin: Time) {
    && !GoalLimitStopped(th) && th.pending.None? && now > 0
    && 1 <= consecutive <= attempt
    && (!tr.chainProgress ==> attempt == consecutive)
    && (Live(th) || attempt == 1)
    && (origin != 0 ==> (if Live(th) then tr.firstTurn else f.turn, origin) in tr.external)
    && f.key.thread == t && f.key.at == f.at
  }

  /** The thread as `ScheduleFailure` has prepared it for a new record. */
  predicate Prepared(th: ThreadState, base: ThreadState) {
    && base.pending.None? && base.awaiting.None? && base.stopped == th.stopped && base.goalStop == th.goalStop
    && base.lastExternalAt == th.lastExternalAt && base.lastExternalTurn == th.lastExternalTurn
    && base.recoveryStartedAt != 0
  }

  lemma ScheduledKeepsOk(t: ThreadId, th: ThreadState, tr: Trace, base: ThreadState, f: Failure, now: Time,
      attempt: int,
                         consecutive: int, origin: Time, notified: bool, kind: FailureClass, limits: Limits,
                             cfg: Config, bound: int)
    requires ThreadOk(t, th, tr, now, bound) && bound > 0 && Prepared(th, base)
    requires FailureFits(t, th, tr, f, now, attempt, consecutive, origin) && limits.attempts >= 1
        && limits.consecutive >= 1
    ensures var after := Scheduled(base, f, now, attempt, consecutive, origin, notified, kind, limits, cfg);
      ThreadOk(t, after, Noted(tr, th, after), now, bound)
  {
    var after := Scheduled(base, f, now, attempt, consecutive, origin, notified, kind, limits, cfg);
    NewFailureKeepsOk(t, th, tr, after, now, bound);
  }

  lemma StopExhaustedKeepsOk(t: ThreadId, th: ThreadState, tr: Trace, base: ThreadState, f: Failure, now: Time,
      attempt: int,
                             consecutive: int, origin: Time, kind: FailureClass, limits: Limits, cfg: Config,
                                 bound: int)
    requires ThreadOk(t, th, tr, now, bound) && bound > 0 && Prepared(th, base)
    requires FailureFits(t, th, tr, f, now, attempt, consecutive, origin) && limits.attempts >= 1
        && limits.consecutive >= 1
    ensures var after := StopExhausted(base, f, now, attempt, consecutive, origin, kind, limits, cfg);
      ThreadOk(t, after, Noted(tr, th, after), now, bound)
  {
    var after := StopExhausted(base, f, now, attempt, consecutive, origin, kind, limits, cfg);
    NewFailureKeepsOk(t, th, tr, after, now, bound);
  }

  lemma ScheduleKeepsOk(t: ThreadId, th: ThreadState, tr: Trace, f: Failure, now: Time, attempt: int, consecutive: int,
                        origin: Time, notified: bool, cfg: Config, bound: int)
    requires ThreadOk(t, th, tr, now, bound) && ValidConfig(cfg) && bound > 0
    requires FailureFits(t, th, tr, f, now, attempt, consecutive, origin)
    ensures var after := ScheduleFailure(th.(currentTurnProgress := false, awaiting := None), f, now, attempt,
        consecutive, origin, notified, cfg);
      ThreadOk(t, after, Noted(tr, th, after), now, bound)
  {
    var before := th.(currentTurnProgress := false, awaiting := None);
    var after := ScheduleFailure(before, f, now, attempt, consecutive, origin, notified, cfg);
    var started := ChainStart(before, now);
    if started.goalHeld && !BlockAttributed(started, f.at)
        && !HeldConversationAllowed(started.goalStatus, started.goalUpdatedAt, origin) {
      SkippedKeepsOk(t, th, tr, after, now, bound);
    } else {
      var base := if BlockAttributed(started, f.at) then started.(goalHeld := false) else started;
      var decision := ClassifyCompletion(f.completion, cfg);
      var limits := LimitsForDecision(decision, cfg);
      if !decision.retry {
        EmptiedKeepsOk(t, th, tr, after, now, bound);
      } else if now - base.recoveryStartedAt > MAX_RECOVERY_DURATION || attempt > limits.attempts
          || consecutive > limits.consecutive {
        FreshLimitsAgree(f.completion, cfg);
        StopExhaustedKeepsOk(t, th, tr, base, f, now, attempt, consecutive, origin, decision.kind, limits, cfg, bound);
      } else {
        FreshLimitsAgree(f.completion, cfg);
        ScheduledKeepsOk(t, th, tr, base, f, now, attempt, consecutive, origin, notified, decision.kind, limits, cfg,
            bound);
      }
    }
  }

  /** A held goal drops the retry; an earlier stop of the thread stays. */
  lemma SkippedKeepsOk(t: ThreadId, th: ThreadState, tr: Trace, after: ThreadState, now: Time, bound: int)
    requires ThreadOk(t, th, tr, now, bound) && th.goalStop.None? && th.pending.None?
    requires after.pending.None? && after.awaiting.None? && after.stopped == th.stopped && after.goalStop == th.goalStop
    requires after.lastExternalAt == th.lastExternalAt && after.lastExternalTurn == th.lastExternalTurn
    requires !after.currentTurnProgress
    ensures ThreadOk(t, after, Noted(tr, th, after), now, bound)
  {
    if Record(after).None? {
      EmptiedKeepsOk(t, th, tr, after, now, bound);
    } else {
      SameRecordsKeepOk(t, th, tr, after, now, bound);
    }
  }

  /** What a failure of the retry's turn makes of its thread: the next attempt of the chain. */
  function FailedAgain(th: ThreadState, f: Failure, now: Time, cfg: Config): ThreadState
    requires th.awaiting.Some?
  {
    var r := th.awaiting.value.retry;
    ScheduleFailure(th.(currentTurnProgress := false, awaiting := None), f, now, r.attempt + 1,
                    NextConsecutive(th, r), r.fault.originStartedAt, r.parentNotified, cfg)
  }

  /** What a failure makes of a thread without a retry: a first attempt. */
  function FailedFirst(th: ThreadState, f: Failure, now: Time, cfg: Config): ThreadState {
    ScheduleFailure(th.(currentTurnProgress := false), f, now, 1, 1, ExternalTurnOrigin(th, f.turn, f.at), false, cfg)
  }

  function Failed(th: ThreadState, f: Failure, now: Time, cfg: Config): ThreadState {
    if th.awaiting.Some? then FailedAgain(th, f, now, cfg) else FailedFirst(th, f, now, cfg)
  }

  function NextConsecutive(th: ThreadState, r: Retry): int { if th.currentTurnProgress then 1 else r.consecutive + 1 }

  lemma RetryFits(t: ThreadId, th: ThreadState, tr: Trace, f: Failure, now: Time, r: Retry, bound: int)
    requires ThreadOk(t, th, tr, now, bound) && now > 0 && HasTurn(th) && r == th.awaiting.value.retry
    requires f.key.thread == t && f.key.at == f.at
    ensures FailureFits(t, th, tr, f, now, r.attempt + 1, NextConsecutive(th, r), r.fault.originStartedAt)
  {
  }

  lemma FailedAgainIs(th: ThreadState, f: Failure, now: Time, cfg: Config, r: Retry)
    requires th.awaiting.Some? && r == th.awaiting.value.retry
    ensures FailedAgain(th, f, now, cfg) ==
            ScheduleFailure(th.(currentTurnProgress := false, awaiting := None), f, now, r.attempt + 1,
                            NextConsecutive(th, r), r.fault.originStartedAt, r.parentNotified, cfg)
  {
  }

  /** A failed completion of the retry's turn. */
  lemma RetryFailedKeepsOk(t: ThreadId, th: ThreadState, tr: Trace, f: Failure, now: Time, r: Retry,
                           cfg: Config, bound: int)
    requires ThreadOk(t, th, tr, now, bound) && ValidConfig(cfg) && bound > 0 && now > 0
    requires th.awaiting.Some? && r == th.awaiting.value.retry
    requires FailureFits(t, th, tr, f, now, r.attempt + 1, NextConsecutive(th, r), r.fault.originStartedAt)
    ensures var after := FailedAgain(th, f, now, cfg); ThreadOk(t, after, Noted(tr, th, after), now, bound)
  {
    FailedAgainIs(th, f, now, cfg, r);
    ScheduleKeepsOk(t, th, tr, f, now, r.attempt + 1, NextConsecutive(th, r), r.fault.originStartedAt, r.parentNotified,
                    cfg, bound);
  }

  lemma FirstFailureKeepsOk(t: ThreadId, th: ThreadState, tr: Trace, f: Failure, now: Time, cfg: Config, bound: int)
    requires ThreadOk(t, th, tr, now, bound) && ValidConfig(cfg) && bound > 0 && now > 0 && !Live(th)
        && !GoalLimitStopped(th)
    requires f.key.thread == t && f.key.at == f.at
    ensures var after := FailedFirst(th, f, now, cfg); ThreadOk(t, after, Noted(tr, th, after), now, bound)
  {
    assert th.(currentTurnProgress := false) == th.(currentTurnProgress := false, awaiting := None);
    ScheduleKeepsOk(t, th, tr, f, now, 1, 1, ExternalTurnOrigin(th, f.turn, f.at), false, cfg, bound);
  }

  /** A completion that fails the retry's own turn, or the turn of a thread without a retry. */
  predicate Answerable(th: ThreadState, f: Failure) {
    !Succeeded(f.completion) && !GoalLimitStopped(th) && (HasTurn(th) || !Live(th))
  }

  /** A completion does nothing, clears the retry, or is answered as a failure. */
  lemma CompletionShape(th: ThreadState, f: Failure, now: Time, cfg: Config)
    ensures var after := Written(th, OnTaskComplete(th, f, now, cfg));
      after == th || after == Clear(th) || (Answerable(th, f) && after == Failed(th, f, now, cfg))
  {
  }

  lemma FailureKeepsOk(t: ThreadId, th: ThreadState, tr: Trace, f: Failure, now: Time, cfg: Config, bound: int)
    requires ThreadOk(t, th, tr, now, bound) && ValidConfig(cfg) && bound > 0 && now > 0 && Answerable(th, f)
    requires f.key.thread == t && f.key.at == f.at
    ensures var after := Failed(th, f, now, cfg); ThreadOk(t, after, Noted(tr, th, after), now, bound)
  {
    if HasTurn(th) {
      RetryFits(t, th, tr, f, now, th.awaiting.value.retry, bound);
      RetryFailedKeepsOk(t, th, tr, f, now, th.awaiting.value.retry, cfg, bound);
    } else {
      FirstFailureKeepsOk(t, th, tr, f, now, cfg, bound);
    }
  }

  lemma CompleteKeepsOk(t: ThreadId, th: ThreadState, tr0: Trace, item: Item, now: Time, cfg: Config, bound: int)
    requires ThreadOk(t, th, tr0, now, bound) && ValidConfig(cfg) && bound > 0 && now > 0
    requires item.event.TaskComplete? && item.thread == t
    ensures var after := Written(th, OnEvent(th, item, now, cfg));
      ThreadOk(t, after, EventTrace(tr0, item.event, now, th, after), now, bound)
  {
    var f := Failure(KeyOf(item), item.event.turn, item.event.at, item.event.completion, item.codexHome,
        item.rolloutPath);
    var after := Written(th, OnTaskComplete(th, f, now, cfg));
    var tr := Seeing(tr0, item.event, now, th, after);
    SeeingKeepsOk(t, th, tr0, item.event, now, after, bound);
    CompletionShape(th, f, now, cfg);
    if after == th {
      SameRecordsKeepOk(t, th, tr, after, now, bound);
    } else if after == Clear(th) {
      EmptiedKeepsOk(t, th, tr, after, now, bound);
    } else {
      FailureKeepsOk(t, th, tr, f, now, cfg, bound);
    }
  }

  /** `handleEventLocked`, whatever the event. */
  lemma EventKeepsOk(t: ThreadId, th: ThreadState, tr: Trace, item: Item, now: Time, cfg: Config, bound: int)
    requires ThreadOk(t, th, tr, now, bound) && ValidConfig(cfg) && bound > 0 && now > 0 && item.thread == t
    ensures var after := Written(th, OnEvent(th, item, now, cfg));
      ThreadOk(t, after, EventTrace(tr, item.event, now, th, after), now, bound)
  {
    match item.event
    case TaskStarted(turn, at) => StartedKeepsOk(t, th, tr, turn, at, now, bound);
    case TaskUserInput(turn, at) => InputKeepsOk(t, th, tr, turn, at, now, bound);
    case TaskProgress(at) => ProgressKeepsOk(t, th, tr, at, now, bound);
    case TaskComplete(_, _, _) => CompleteKeepsOk(t, th, tr, item, now, cfg, bound);
    case TurnAborted(turn, at) => AbortedKeepsOk(t, th, tr, turn, at, now, bound);
    case GoalUpdated(at, status, updatedAt) => GoalKeepsOk(t, th, tr, at, status, updatedAt, now, bound);
    case RecoveryNotice(at, child, failure) => NoticeKeepsOk(t, th, tr, at, child, failure, now, bound);
  }
}
