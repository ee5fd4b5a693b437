/** Every other step keeps the invariant of a thread: commands, reload, restart, reopening, expiry, probes,
    dispatch and job results. */
module StepProofs {
  import opened Types
  import opened Policy
  import opened ThreadSteps
  import opened Core
  import opened World
  import opened Invariant

  lemma NothingKeepsOk(t: ThreadId, th: ThreadState, tr: Trace, now: Time, bound: int)
    requires ThreadOk(t, th, tr, now, bound)
    ensures ThreadOk(t, th, Noted(tr, th, th), now, bound)
  {
    SameRecordsKeepOk(t, th, tr, th, now, bound);
  }

  lemma LaterKeepsOk(t: ThreadId, th: ThreadState, tr: Trace, now: Time, later: Time, bound: int)
    requires ThreadOk(t, th, tr, now, bound) && now <= later
    ensures ThreadOk(t, th, tr, later, bound)
  {
  }

  // ---- commands ----

  lemma RestartKeepsOk(t: ThreadId, th: ThreadState, tr: Trace, now: Time, cfg: Config, bound: int)
    requires ThreadOk(t, th, tr, now, bound) && ValidConfig(cfg) && now > 0 && th.stopped.Some?
    ensures var after := OnCommand(th, RestartRetry, now, cfg).value;
      ThreadOk(t, after, Noted(WithRestart(tr, th, RestartRetry), th, after), now, bound)
  {
  }

  lemma CommandKeepsOk(t: ThreadId, th: ThreadState, tr: Trace, kind: CommandKind, now: Time, cfg: Config, bound: int)
    requires ThreadOk(t, th, tr, now, bound) && ValidConfig(cfg) && now > 0
    ensures var after := Written(th, OnCommand(th, kind, now, cfg));
      ThreadOk(t, after, Noted(WithRestart(tr, th, kind), th, after), now, bound)
  {
    var after := Written(th, OnCommand(th, kind, now, cfg));
    if after == th {
      NothingKeepsOk(t, th, tr, now, bound);
    } else if kind.RetryNow? {
      LiveKeepsOk(t, th, tr, after, now, bound);
    } else if kind.CancelRetry? {
      EmptiedKeepsOk(t, th, tr, after, now, bound);
    } else {
      RestartKeepsOk(t, th, tr, now, cfg, bound);
    }
  }

  // ---- reload and restart ----

  lemma OverBudgetStopKeepsOk(t: ThreadId, th: ThreadState, tr: Trace, relimited: ThreadState, wall: Time, now: Time,
      cfg: Config, bound: int)
    requires ThreadOk(t, th, tr, now, bound) && ValidConfig(cfg) && bound > 0 && th.pending.Some?
    requires relimited == th.(pending := Some(th.pending.value.(retry := Relimit(th.pending.value.retry, cfg))))
    ensures var after := StopOverBudget(relimited, wall, cfg);
      ThreadOk(t, after, Noted(tr, th, after), now, bound)
  {
    StopKeepsOk(t, th, tr, StopOverBudget(relimited, wall, cfg), now, bound);
  }

  lemma ReloadedKeepsOk(t: ThreadId, th: ThreadState, tr: Trace, wall: Time, now: Time, cfg: Config, bound: int)
    requires ThreadOk(t, th, tr, now, bound) && ValidConfig(cfg) && bound > 0
    ensures var after := Reloaded(th, wall, cfg);
      ThreadOk(t, after, Noted(tr, th, after), now, bound)
  {
    var after := Reloaded(th, wall, cfg);
    if !Live(th) {
      NothingKeepsOk(t, th, tr, now, bound);
    } else if Live(after) {
      LiveKeepsOk(t, th, tr, after, now, bound);
    } else {
      OverBudgetStopKeepsOk(t, th, tr, th.(pending := Some(th.pending.value.(retry := Relimit(th.pending.value.retry,
          cfg)))), wall, now, cfg, bound);
    }
  }

  lemma LoadedKeepsShape(t: ThreadId, th: ThreadState, tr: Trace, now: Time, bound: int)
    requires ThreadOk(t, th, tr, now, bound)
    ensures ShapeOk(Loaded(th), Noted(tr, th, Loaded(th)), bound)
  {
  }

  lemma LoadedKeepsHistory(t: ThreadId, th: ThreadState, tr: Trace, now: Time, bound: int)
    requires ThreadOk(t, th, tr, now, bound)
    ensures HistoryOk(t, Loaded(th), Noted(tr, th, Loaded(th)))
  {
  }

  /** Only a zero no-progress count of a stop is raised; a zero failure time cannot be recorded in order. */
  lemma LoadedKeepsOk(t: ThreadId, th: ThreadState, tr: Trace, now: Time, bound: int)
    requires ThreadOk(t, th, tr, now, bound)
    ensures ThreadOk(t, Loaded(th), Noted(tr, th, Loaded(th)), now, bound)
  {
    LoadedKeepsShape(t, th, tr, now, bound);
    LoadedKeepsHistory(t, th, tr, now, bound);
  }

  lemma RestoredKeepsOk(t: ThreadId, th: ThreadState, tr: Trace, at: Time, now: Time, bound: int)
    requires ThreadOk(t, th, tr, now, bound)
    ensures var after := RestoredAtStartup(th, at);
      ThreadOk(t, after, Noted(tr, th, after), now, bound)
  {
    var after := RestoredAtStartup(th, at);
    if after == th {
      NothingKeepsOk(t, th, tr, now, bound);
    } else {
      LiveKeepsOk(t, th, tr, after, now, bound);
    }
  }

  // ---- reopening and expiry ----

  lemma ReopenedKeepsOk(t: ThreadId, th: ThreadState, tr: Trace, active: bool, at: Time, now: Time, cfg: Config,
      bound: int)
    requires ThreadOk(t, th, tr, now, bound) && ValidConfig(cfg)
    ensures var after := ReopenThread(th, active, at, cfg);
      ThreadOk(t, after, Noted(tr, th, after), now, bound)
  {
    if !Reopenable(th, at, cfg) || active {
      NothingKeepsOk(t, th, tr, now, bound);
    }
  }

  lemma StopAwaitingKeepsOk(t: ThreadId, th: ThreadState, tr: Trace, mid: ThreadState, at: Time, reason: Reason,
      now: Time, bound: int)
    requires ThreadOk(t, th, tr, now, bound) && bound > 0 && SameAwaiting(th, mid)
    ensures var after := StopAwaiting(mid, at, reason);
      ThreadOk(t, after, Noted(tr, th, after), now, bound)
  {
    StopKeepsOk(t, th, tr, StopAwaiting(mid, at, reason), now, bound);
  }

  /** `mid` differs from `th` only in delivery details of its awaiting entry. */
  predicate SameAwaiting(th: ThreadState, mid: ThreadState) {
    && th.awaiting.Some? && mid.awaiting.Some?
    && var aw, am := th.awaiting.value, mid.awaiting.value;
    && mid == th.(awaiting := mid.awaiting)
    && am.retry == aw.retry.(dispatchFailures := am.retry.dispatchFailures, parentNotified := am.retry.parentNotified)
    && am.retryTurn == aw.retryTurn && am.startedAt == aw.startedAt && am.dispatchStartedAt == aw.dispatchStartedAt
    && am.lifecycleChecks == aw.lifecycleChecks && am.lastLifecycleCheckAt == aw.lastLifecycleCheckAt
  }

  lemma SameAwaitingKeepsOk(t: ThreadId, th: ThreadState, tr: Trace, after: ThreadState, now: Time, bound: int)
    requires ThreadOk(t, th, tr, now, bound) && SameAwaiting(th, after)
    ensures ThreadOk(t, after, Noted(tr, th, after), now, bound)
  {
    LiveKeepsOk(t, th, tr, after, now, bound);
  }

  lemma RescheduleKeepsOk(t: ThreadId, th: ThreadState, tr: Trace, mid: ThreadState, at: Time, reason: Reason,
      count: bool,
                          now: Time, cfg: Config, bound: int)
    requires ThreadOk(t, th, tr, now, bound) && bound > 0 && SameAwaiting(th, mid)
    ensures var after := RescheduleAwaiting(mid, at, reason, count, cfg);
      ThreadOk(t, after, Noted(tr, th, after), now, bound)
  {
    var after := RescheduleAwaiting(mid, at, reason, count, cfg);
    if Live(after) {
      LiveKeepsOk(t, th, tr, after, now, bound);
    } else {
      StopAwaitingKeepsOk(t, th, tr, mid, at, reason, now, bound);
    }
  }

  lemma ExpiredKeepsOk(t: ThreadId, th: ThreadState, tr: Trace, active: bool, at: Time, now: Time, cfg: Config,
      bound: int)
    requires ThreadOk(t, th, tr, now, bound) && bound > 0
    ensures var after := ExpireThread(th, active, at, cfg);
      ThreadOk(t, after, Noted(tr, th, after), now, bound)
  {
    if Unacknowledged(th, at) && !active {
      RescheduleKeepsOk(t, th, tr, th, at, StartNotAcknowledged, true, now, cfg, bound);
    } else {
      NothingKeepsOk(t, th, tr, now, bound);
    }
  }

  // ---- job results ----

  lemma RecoveryFinishedKeepsOk(t: ThreadId, th: ThreadState, tr: Trace, result: Result, at: Time, now: Time,
      cfg: Config, bound: int)
    requires ThreadOk(t, th, tr, now, bound) && bound > 0 && th.awaiting.Some?
    ensures var after := RecoveryFinished(th, result, at, cfg);
      ThreadOk(t, after, Noted(tr, th, after), now, bound)
  {
    var mid := Notified(th, result);
    match result
    case Error(_) => RescheduleKeepsOk(t, th, tr, mid, at, FailureReason(result), true, now, cfg, bound);
    case RetryLater(_, _) => RescheduleKeepsOk(t, th, tr, mid, at, FailureReason(result), true, now, cfg, bound);
    case UserActive(_, _) => RescheduleKeepsOk(t, th, tr, WithoutFailures(mid), at, FailureReason(result), false, now,
        cfg, bound);
    case NotApplicable(reason, _) => SkippedJobKeepsOk(t, th, tr, mid, reason, now, bound);
    case Accepted(action, _, _) => SameAwaitingKeepsOk(t, th, tr, Confirmed(mid, action, at, cfg), now, bound);
  }

  lemma SkippedJobKeepsOk(t: ThreadId, th: ThreadState, tr: Trace, mid: ThreadState, reason: Reason, now: Time,
      bound: int)
    requires ThreadOk(t, th, tr, now, bound) && SameAwaiting(th, mid)
    ensures ThreadOk(t, Skipped(mid, reason), Noted(tr, th, Skipped(mid, reason)), now, bound)
  {
    EmptiedKeepsOk(t, th, tr, Skipped(mid, reason), now, bound);
  }

  /** A run that leaves the request open has counted one more failure, still below the limit. */
  lemma GoalBlockFinishedKeepsOk(t: ThreadId, th: ThreadState, tr: Trace, key: EventKey, result: Result, at: Time,
      now: Time, cfg: Config, bound: int)
    requires ThreadOk(t, th, tr, now, bound) && GoalBlockCurrent(th, key) && cfg.controllerFailureLimit <= bound
    ensures var after := GoalBlockFinished(th, result, at, cfg);
      ThreadOk(t, after, Noted(tr.(goalRuns := tr.goalRuns + 1), th, after), now, bound)
  {
    var after := GoalBlockFinished(th, result, at, cfg);
    if after.goalStop.None? {
      SameRecordsKeepOk(t, th, tr, after, now, bound);
    } else {
      RequestDeferredKeepsOk(t, th, tr, after, now, bound);
    }
  }

  lemma RequestDeferredKeepsOk(t: ThreadId, th: ThreadState, tr: Trace, after: ThreadState, now: Time, bound: int)
    requires ThreadOk(t, th, tr, now, bound) && th.goalStop.Some? && after.goalStop.Some?
    requires after == th.(goalStop := after.goalStop) && after.goalStop.value.key == th.goalStop.value.key
    requires after.goalStop.value.dispatchFailures == th.goalStop.value.dispatchFailures + 1 < bound
    ensures ThreadOk(t, after, Noted(tr.(goalRuns := tr.goalRuns + 1), th, after), now, bound)
  {
  }

  // ---- dispatch ----

  lemma StopPendingKeepsOk(t: ThreadId, th: ThreadState, tr: Trace, at: Time, reason: Reason, now: Time, bound: int)
    requires ThreadOk(t, th, tr, now, bound) && bound > 0 && th.pending.Some?
    ensures var after := StopPending(th, at, reason);
      ThreadOk(t, after, Noted(tr, th, after), now, bound)
  {
    StopKeepsOk(t, th, tr, StopPending(th, at, reason), now, bound);
  }

  lemma SweptKeepsOk(t: ThreadId, th: ThreadState, tr: Trace, active: bool, at: Time, now: Time, bound: int)
    requires ThreadOk(t, th, tr, now, bound) && bound > 0
    ensures var after := Swept(th, active, at);
      ThreadOk(t, after, Noted(tr, th, after), now, bound)
  {
    var after := Swept(th, active, at);
    if after == th {
      NothingKeepsOk(t, th, tr, now, bound);
    } else if HoldBlocks(th) {
      EmptiedKeepsOk(t, th, tr, after, now, bound);
    } else {
      StopPendingKeepsOk(t, th, tr, at, RecoveryTimeLimit, now, bound);
    }
  }

  lemma DispatchedKeepsOk(t: ThreadId, th: ThreadState, tr: Trace, now: Time, cfg: Config, bound: int)
    requires ThreadOk(t, th, tr, now, bound) && th.pending.Some?
    ensures var after := Dispatched(th, now, cfg);
      ThreadOk(t, after, Noted(tr, th, after), now, bound)
  {
  }

  // ---- probes ----

  lemma ProbeStartedKeepsOk(t: ThreadId, th: ThreadState, tr: Trace, now: Time, cfg: Config, bound: int)
    requires ThreadOk(t, th, tr, now, bound) && ProbeDue(th, now, cfg)
    ensures ThreadOk(t, ProbeStarted(th, now), tr, now, bound)
  {
  }

  function WithAnswer(tr: Trace, th: ThreadState, now: Time, active: bool): Trace
    requires th.awaiting.Some?
  {
    tr.(answers := tr.answers + [Seen(th.awaiting.value.retry.fault.key, th.awaiting.value.retryTurn, now, active)])
  }

  lemma AdvanceKeepsOk(t: ThreadId, th: ThreadState, tr: Trace, mid: ThreadState, now: Time, cfg: Config, bound: int)
    requires ThreadOk(t, th, tr, now, bound) && bound > 0 && HasTurn(th)
    requires mid.awaiting.Some? && mid == th.(awaiting := mid.awaiting)
    requires mid.awaiting.value.retry == th.awaiting.value.retry.(dispatchFailures := 0)
    ensures var after := AdvanceInactive(mid, now, cfg);
      ThreadOk(t, after, Noted(tr, th, after), now, bound)
  {
    var after := AdvanceInactive(mid, now, cfg);
    if Live(after) {
      LiveKeepsOk(t, th, tr, after, now, bound);
    } else {
      StopKeepsOk(t, th, tr, after, now, bound);
    }
  }

  /** A first inactive answer, or an active one. */
  lemma KeptWaitingKeepsOk(t: ThreadId, th: ThreadState, tr: Trace, active: bool, now: Time, bound: int)
    requires ThreadOk(t, th, tr, now, bound) && HasTurn(th) && now > 0
    requires th.awaiting.value.lastLifecycleCheckAt == now
    requires active || th.awaiting.value.lifecycleChecks == 0
    ensures var aw := th.awaiting.value;
      var after := th.(awaiting := Some(aw.(retry := aw.retry.(dispatchFailures := 0), lifecycleChecks := if active
          then 0 else 1)));
      ThreadOk(t, after, Noted(WithAnswer(tr, th, now, active), th, after), now, bound)
  {
  }

  /** The trace once the answer has been recorded. */
  function AnsweredTrace(tr: Trace, th: ThreadState, answer: Answer, now: Time): Trace
    requires th.awaiting.Some?
  {
    if answer.ProbeStatus? then WithAnswer(tr, th, now, answer.active) else tr
  }

  lemma ProbeFailedKeepsOk(t: ThreadId, th: ThreadState, tr: Trace, reason: Reason, now: Time, cfg: Config, bound: int)
    requires ThreadOk(t, th, tr, now, bound) && bound > 0 && HasTurn(th)
    ensures var after := Answered(th, ProbeFailed(reason), now, cfg);
      ThreadOk(t, after, Noted(tr, th, after), now, bound)
  {
    var after := Answered(th, ProbeFailed(reason), now, cfg);
    if Live(after) {
      SameAwaitingKeepsOk(t, th, tr, after, now, bound);
    } else {
      StopAwaitingKeepsOk(t, th, tr, th, now, reason, now, bound);
    }
  }

  lemma ConfirmedInactiveKeepsOk(t: ThreadId, th: ThreadState, tr: Trace, now: Time, cfg: Config, bound: int)
    requires ThreadOk(t, th, tr, now, bound) && bound > 0 && HasTurn(th) && th.awaiting.value.lifecycleChecks != 0
    ensures var after := Answered(th, ProbeStatus(false), now, cfg);
      ThreadOk(t, after, Noted(WithAnswer(tr, th, now, false), th, after), now, bound)
  {
    var aw := th.awaiting.value;
    var after := Answered(th, ProbeStatus(false), now, cfg);
    var mid := th.(awaiting := Some(aw.(retry := aw.retry.(dispatchFailures := 0),
        lifecycleChecks := aw.lifecycleChecks + 1)));
    AdvanceKeepsOk(t, th, tr, mid, now, cfg, bound);
    MoreAnswersKeepOk(t, after, Noted(tr, th, after), WithAnswer(tr, th, now, false).answers, now, bound);
  }

  lemma AnsweredKeepsOk(t: ThreadId, th: ThreadState, tr: Trace, answer: Answer, now: Time, cfg: Config, bound: int)
    requires ThreadOk(t, th, tr, now, bound) && bound > 0 && HasTurn(th) && now > 0
    requires th.awaiting.value.lastLifecycleCheckAt == now
    ensures var after := Answered(th, answer, now, cfg);
      ThreadOk(t, after, Noted(AnsweredTrace(tr, th, answer, now), th, after), now, bound)
  {
    match answer
    case ProbeFailed(reason) => ProbeFailedKeepsOk(t, th, tr, reason, now, cfg, bound);
    case ProbeStatus(active) =>
      if active || th.awaiting.value.lifecycleChecks == 0 {
        KeptWaitingKeepsOk(t, th, tr, active, now, bound);
      } else {
        ConfirmedInactiveKeepsOk(t, th, tr, now, cfg, bound);
      }
  }

  lemma MoreAnswersKeepOk(t: ThreadId, th: ThreadState, tr: Trace, answers: seq<Seen>, now: Time, bound: int)
    requires ThreadOk(t, th, tr, now, bound) && th.awaiting.None?
    ensures ThreadOk(t, th, tr.(answers := answers), now, bound)
  {
  }
}
