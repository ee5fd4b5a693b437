/** What commands, reloads, restarts, reopenings, deadlines, probes and dispatch must do to a thread, in terms of the
    fields they find. */
module TickOutcomes {
  import opened Types
  import opened Policy
  import opened Backoff
  import opened ThreadSteps
  import opened Core
  import opened World
  import opened Invariant
  import opened Chains
  import opened Outcomes

  // ---- commands ----

  function Ordered(th: ThreadState, kind: CommandKind, now: Time, cfg: Config): ThreadState {
    Written(th, OnCommand(th, kind, now, cfg))
  }

  /** A cancel ends a pending retry and touches nothing else. */
  lemma CancelOutcome(th: ThreadState, now: Time, cfg: Config)
    requires ChainOk(th)
    ensures var after := Ordered(th, CancelRetry, now, cfg);
      if th.pending.Some? then Reset(after) && SameGoal(th, after) else after == th
  {
  }

  /** An expedited retry is due now, with the same payload. */
  lemma ExpediteOutcome(th: ThreadState, now: Time, cfg: Config)
    requires ChainOk(th)
    ensures var after := Ordered(th, RetryNow, now, cfg);
      if th.pending.Some? then
        && after.pending == Some(Pending(th.pending.value.retry, now)) && after.pending.value.dueAt == now
        && SameRetryState(th.(pending := after.pending), after) && SameGoal(th, after)
      else after == th
  {
  }

  /** A restarted stop is retried from the first attempt, at once, under no hold. */
  lemma RestartOutcome(th: ThreadState, now: Time, cfg: Config)
    requires ChainOk(th) && ValidConfig(cfg)
    ensures var after := Ordered(th, RestartRetry, now, cfg);
      if th.stopped.None? then after == th
      else
        && after.stopped.None? && after.awaiting.None? && after.goalStop.None? && !after.goalHeld && after.pending.Some?
        && after.recoveryAttempts == 1 && after.consecutiveRetries == 1 && after.recoveryStartedAt == now
        && var p := after.pending.value;
        && p.dueAt == now && p.retry.fault == th.stopped.value.fault && p.retry.attempt == 1 && p.retry.consecutive == 1
        && p.retry.maxAttempts == MostAttempts(p.retry.fault.kind, cfg)
        && p.retry.maxConsecutive == MostWithoutProgress(p.retry.fault.kind, cfg)
        && p.retry.dispatchFailures == 0 && !p.retry.parentNotified && p.retry.goalLimitRestart == GoalGivenUp(th)
  {
    if th.stopped.Some? { LimitsMean(th.stopped.value.fault.kind, 1, 1, cfg); }
  }

  // ---- reload and restart ----

  /** The same retry with the limits of this configuration. */
  predicate Relimited(r: Retry, s: Retry, cfg: Config) {
    s == r.(maxAttempts := MostAttempts(r.fault.kind, cfg), maxConsecutive := MostWithoutProgress(r.fault.kind, cfg))
  }

  /** A reload gives a live retry the new limits, and stops a pending one exactly if it exceeds them. */
  lemma ReloadOutcome(th: ThreadState, wall: Time, cfg: Config)
    requires ChainOk(th) && ValidConfig(cfg)
    ensures var after := Reloaded(th, wall, cfg);
      && SameGoal(th, after)
      && (!Live(th) ==> after == th)
      && (th.awaiting.Some? ==>
            && after.awaiting.Some? && Relimited(th.awaiting.value.retry, after.awaiting.value.retry, cfg)
            && after == th.(awaiting := Some(th.awaiting.value.(retry := after.awaiting.value.retry))))
      && (th.pending.Some? ==>
            var r := th.pending.value.retry;
            if Exceeds(r.fault.kind, r.attempt, r.consecutive, cfg) then
              && !Live(after) && after.stopped.Some? && after.stopped.value.fault == r.fault
              && after.stopped.value.attempts == r.attempt - 1 == after.recoveryAttempts
              && after.stopped.value.consecutive == r.consecutive - 1 == after.consecutiveRetries
              && after.stopped.value.maxAttempts == MostAttempts(r.fault.kind, cfg)
              && after.stopped.value.maxConsecutive == MostWithoutProgress(r.fault.kind, cfg)
              && after.stopped.value.stoppedAt == wall && !after.stopped.value.historical
              && after.stopped.value.transportBlocked.None? && after.recoveryStartedAt == th.recoveryStartedAt
              && after.stopped.value.reason ==
                 GiveUpReason(r.fault.kind, th.goalStatus.Active?, false, r.attempt, r.consecutive, cfg)
              && (after.stopped.value.reason.GoalEmptyResponseLimit? ==>
                    after.goalStop == Some(GoalStop(r.fault.key, GoalEmptyResponseLimit, wall, wall, 0)))
            else
              && after.pending.Some? && Relimited(r, after.pending.value.retry, cfg)
              && after == th.(pending := after.pending) && after.pending.value.dueAt == th.pending.value.dueAt)
  {
    if Live(th) {
      var r := LiveRetry(th).value;
      LimitsMean(r.fault.kind, r.attempt, r.consecutive, cfg);
    }
  }

  /** The same retry, its failure dated if it had no date. */
  predicate Dated(r: Retry, s: Retry, lastFailureAt: Time) {
    s == r.(fault := r.fault.(failedAt := if r.fault.failedAt == 0 then lastFailureAt else r.fault.failedAt))
  }

  /** A restart of the process makes a dispatched retry without a turn due at once, and keeps every other entry. */
  lemma StartupOutcome(th: ThreadState, at: Time)
    requires ChainOk(th)
    ensures var after := RestoredAtStartup(Loaded(th), at);
      && SameGoal(th, after) && after.goalStop == th.goalStop
      && after.stopped == (if th.stopped.None? then None
                           else Some(th.stopped.value.(consecutive :=
                             if th.stopped.value.consecutive == 0 then th.stopped.value.attempts
                             else th.stopped.value.consecutive)))
      && after.recoveryStartedAt == th.recoveryStartedAt && after.recoveryAttempts == th.recoveryAttempts
      && (Live(after) <==> Live(th))
      && (Live(th) ==> Dated(LiveRetry(th).value, LiveRetry(after).value, th.lastFailureAt))
      && (th.pending.Some? ==> after.pending.Some? && after.pending.value.dueAt == th.pending.value.dueAt)
      && (th.awaiting.Some? ==>
            if th.awaiting.value.retryTurn == "" then after.pending.Some? && after.pending.value.dueAt == at
            else after.awaiting.Some? && after.awaiting.value.(retry := th.awaiting.value.retry) == th.awaiting.value)
  {
  }

  /** Loading a saved record fills in what is missing and keeps what is there. */
  lemma LoadRepairs(th: ThreadState)
    ensures var after := Loaded(th);
      && (th.pending.Some? ==>
            var r, s := th.pending.value.retry, after.pending.value.retry;
            && s.attempt >= 1 && s.consecutive >= 1 && after.pending.value.dueAt == th.pending.value.dueAt
            && (r.attempt >= 1 ==> s.attempt == r.attempt) && (r.consecutive >= 1 ==> s.consecutive == r.consecutive)
            && (r.attempt < 1 <= th.recoveryAttempts ==> s.attempt == th.recoveryAttempts)
            && (r.consecutive < 1 ==>
                  s.consecutive == if th.consecutiveRetries >= 1 then th.consecutiveRetries else s.attempt))
      && (th.awaiting.Some? ==>
            var r, s := th.awaiting.value.retry, after.awaiting.value.retry;
            && s.attempt == r.attempt
            && s.consecutive == if r.consecutive >= 1 then r.consecutive
                                else if th.consecutiveRetries >= 1 then th.consecutiveRetries else r.attempt)
      && (after.goalStop.Some? <==>
            th.goalStop.Some? && th.stopped.Some? && th.goalStop.value.key == th.stopped.value.fault.key)
  {
  }

  /** Loading what was loaded changes nothing more. */
  lemma LoadingTwice(th: ThreadState)
    ensures Loaded(Loaded(th)) == Loaded(th)
  {
  }

  // ---- reopening ----

  /** Nothing has been started, aborted or run outside since the failure. */
  predicate Untouched(th: ThreadState, f: Fault) {
    && th.lastStartedAt <= f.failedAt && th.lastExternalAt <= f.failedAt
    && (th.lastAbortedAt != 0 ==> th.lastAbortedAt < f.failedAt)
    && (f.failedTurn != "" ==> f.failedTurn != th.lastAbortedTurn)
  }

  predicate Recent(since: Time, now: Time) { since != 0 && 0 <= now - since <= 30 * 60 * SECOND }

  /** The stop is marked as never sent, or is an unmarked one from before its first retry. */
  predicate NeverSent(th: ThreadState, s: Stopped) {
    s.transportBlocked == Some(true) ||
    (s.transportBlocked == None && s.attempts == 0 && s.consecutive == 0 && th.lastAutoRetryAt <= s.fault.failedAt)
  }

  /** A stop that a transport reopens: a recent failure of a goal that may go on, within the limits of its stop and of
      the configuration, after which nothing else happened. */
  predicate MayReopen(th: ThreadState, now: Time, cfg: Config) {
    && th.stopped.Some? && th.goalStop.None? && !th.goalHeld && th.goalStatus in {NoGoal, Active}
    && var s := th.stopped.value;
    && !s.historical && Untouched(th, s.fault) && Recent(s.fault.failedAt, now)
    && Recent(if th.recoveryStartedAt == 0 then s.fault.failedAt else th.recoveryStartedAt, now)
    && (s.reason.CodexRestartRequired? ||
        (s.reason.SharedDisabled? && NeverSent(th, s) && s.fault.failedTurn != ""
            && th.lastStartedTurn == s.fault.failedTurn))
    && s.attempts < s.maxAttempts && s.consecutive < s.maxConsecutive
    && !Exceeds(s.fault.kind, s.attempts + 1, s.consecutive + 1, cfg)
  }

  /** Exactly such a stop is reopened, unless a job of the thread is still out: due at once, one attempt further. */
  lemma ReopenOutcome(th: ThreadState, active: bool, now: Time, cfg: Config)
    requires ChainOk(th) && ValidConfig(cfg)
    ensures var after := ReopenThread(th, active, now, cfg);
      if active || !MayReopen(th, now, cfg) then after == th
      else
        var s := th.stopped.value;
        && after.stopped.None? && after.awaiting.None? && after.pending.Some? && after.pending.value.dueAt == now
        && after.recoveryAttempts == s.attempts + 1 && after.consecutiveRetries == s.consecutive + 1
        && after.recoveryStartedAt == (if th.recoveryStartedAt == 0 then s.fault.failedAt else th.recoveryStartedAt)
        && var r := after.pending.value.retry;
        && r.fault == s.fault && r.attempt == s.attempts + 1 && r.consecutive == s.consecutive + 1
        && r.maxAttempts == Min(MostAttempts(s.fault.kind, cfg), s.maxAttempts)
        && r.maxConsecutive == Min(MostWithoutProgress(s.fault.kind, cfg), s.maxConsecutive)
        && r.dispatchFailures == 0 && !r.parentNotified && !r.goalLimitRestart
  {
    if th.stopped.Some? {
      LimitsMean(th.stopped.value.fault.kind, th.stopped.value.attempts + 1, th.stopped.value.consecutive + 1, cfg);
    }
  }

  // ---- dispatches without an effect ----

  /** The stop of an entry that was sent: the attempts before it, and the given reason. */
  predicate StoppedFor(th: ThreadState, r: Retry, after: ThreadState, now: Time, reason: Reason) {
    && !Live(after) && after.goalStop.None? && after.stopped.Some?
    && var s := after.stopped.value;
    && s.fault == r.fault && s.stoppedAt == now && s.reason == reason && !s.historical
    && s.attempts == r.attempt - 1 == after.recoveryAttempts
    && s.consecutive == r.consecutive - 1 == after.consecutiveRetries
    && s.maxAttempts == r.maxAttempts && s.maxConsecutive == r.maxConsecutive
    && after.recoveryStartedAt == th.recoveryStartedAt && SameGoal(th, after)
  }

  /** The retry goes back to waiting, with its failures in a row counted and the delay for them. */
  predicate PutBack(th: ThreadState, r: Retry, failures: int, after: ThreadState, now: Time, cfg: Config) {
    && after.awaiting.None?
    && after.pending == Some(Pending(r.(dispatchFailures := failures), now + Delay(failures, cfg)))
    && SameRetryState(th.(pending := after.pending, awaiting := None), after) && SameGoal(th, after)
  }

  /** Codes after which only the user can go on. */
  const ACTION_CODES: set<Reason> := {
    CodexNotRunning, CodexRestartRequired, CodexHomeNotShared, PortReserved, PortConflict, EnvironmentConflict,
    OwnershipUnknown, SharedDisabled, ConfigInvalid, MigrationDeferred, IpcGoalControlUnsupported}

  lemma RescheduleOutcome(th: ThreadState, now: Time, reason: Reason, countFailure: bool, cfg: Config)
    requires ChainOk(th) && th.awaiting.Some?
    ensures var r, after := th.awaiting.value.retry, RescheduleAwaiting(th, now, reason, countFailure, cfg);
      var failures := if countFailure then r.dispatchFailures + 1 else r.dispatchFailures;
      if reason in ACTION_CODES || (countFailure && failures >= cfg.controllerFailureLimit)
      then StoppedFor(th, r, after, now, reason) && after.stopped.value.transportBlocked.None?
      else PutBack(th, r, failures, after, now, cfg)
  {
    NeedsActionExactly(reason);
    AwaitingStops(th, now, reason);
    AwaitingGoesBack(th, if countFailure then th.awaiting.value.retry.dispatchFailures + 1
        else th.awaiting.value.retry.dispatchFailures, now, cfg);
  }

  lemma AwaitingStops(th: ThreadState, now: Time, reason: Reason)
    requires ChainOk(th) && th.awaiting.Some?
    ensures StoppedFor(th, th.awaiting.value.retry, StopAwaiting(th, now, reason), now, reason)
    ensures StopAwaiting(th, now, reason).stopped.value.transportBlocked.None?
  {
  }

  lemma AwaitingGoesBack(th: ThreadState, failures: int, now: Time, cfg: Config)
    requires ChainOk(th) && th.awaiting.Some?
    ensures var r := th.awaiting.value.retry;
      PutBack(th, r, failures, th.(awaiting := None, pending := Some(Pending(r.(dispatchFailures := failures),
          now + Delay(failures, cfg)))), now, cfg)
  {
  }

  lemma NeedsActionExactly(reason: Reason)
    ensures NeedsAction(reason) <==> reason in ACTION_CODES
  {
  }

  /** A dispatch that nobody acknowledged by its deadline counts as failed, once its job is over. */
  lemma ExpiryOutcome(th: ThreadState, active: bool, now: Time, cfg: Config)
    requires ChainOk(th)
    ensures var after := ExpireThread(th, active, now, cfg);
      if active || th.awaiting.None? || th.awaiting.value.retryTurn != "" || th.awaiting.value.startDeadline > now
      then after == th
      else
        var r := th.awaiting.value.retry;
        if r.dispatchFailures + 1 >= cfg.controllerFailureLimit
        then StoppedFor(th, r, after, now, StartNotAcknowledged)
        else PutBack(th, r, r.dispatchFailures + 1, after, now, cfg)
  {
    if th.awaiting.Some? { RescheduleOutcome(th, now, StartNotAcknowledged, true, cfg); }
  }

  // ---- probes ----

  /** A turn is asked about once it has run for the acknowledgement timeout, and then every five seconds. */
  lemma ProbesExactly(c: Core, t: ThreadId, now: Time)
    ensures t in ProbesDue(c, now) <==>
      && t in c.threads && c.threads[t].awaiting.Some?
      && var aw := c.threads[t].awaiting.value;
      var since := if aw.startedAt != 0 then aw.startedAt else aw.dispatchStartedAt;
      && aw.retryTurn != "" && since != 0 && now >= since + c.config.startAckTimeoutSeconds * SECOND
      && (aw.lastLifecycleCheckAt != 0 ==> now >= aw.lastLifecycleCheckAt + 5 * SECOND)
    ensures t in ProbesDue(c, now) ==>
      ProbesDue(c, now)[t] == Probe(c.threads[t].awaiting.value.retry.fault.key, c.threads[t].awaiting.value.retryTurn)
    ensures Lookup(StartProbes(c, now).threads, t) ==
            if t in ProbesDue(c, now)
            then c.threads[t].(awaiting := Some(c.threads[t].awaiting.value.(lastLifecycleCheckAt := now)))
            else Lookup(c.threads, t)
  {
  }

  /** How long the turn has run, as far as that is known. */
  function RunFor(aw: Awaiting, now: Time): int {
    if aw.startedAt != 0 then now - aw.startedAt
    else if aw.dispatchStartedAt != 0 then now - aw.dispatchStartedAt
    else 0
  }

  /** Why the limits that a retry carries stop it. */
  function CarriedReason(r: Retry, goalActive: bool, attempt: int, consecutive: int, cfg: Config): Reason {
    var auth := cfg.authMaxAttempts;
    if r.fault.kind.EmptyResponse? && goalActive then GoalEmptyResponseLimit
    else if r.fault.kind.AuthLimited? && r.maxAttempts == auth < cfg.maxRecoveryAttempts && attempt > auth
    then AuthAttemptLimit
    else if r.fault.kind.AuthLimited? && r.maxConsecutive == auth < cfg.maxConsecutiveRetries && consecutive > auth
    then AuthAttemptLimit
    else if attempt > r.maxAttempts then RecoveryAttemptLimit
    else ConsecutiveRetryLimit
  }

  /** The turn is given up as inactive: the next attempt waits, or the chain is stopped over the limits it carries. */
  predicate MovesOn(th: ThreadState, after: ThreadState, now: Time, cfg: Config)
    requires th.awaiting.Some?
  {
    var r := th.awaiting.value.retry;
    var attempt, consecutive := r.attempt + 1, if th.currentTurnProgress then 1 else r.consecutive + 1;
    && after.awaiting.None? && !after.currentTurnProgress && SameGoal(th, after)
    && after.recoveryStartedAt == th.recoveryStartedAt
    && if attempt > r.maxAttempts || consecutive > r.maxConsecutive then
         && after.pending.None? && after.stopped.Some? && after.stopped.value.fault == r.fault
         && after.stopped.value.attempts == r.attempt == after.recoveryAttempts
         && after.stopped.value.consecutive == consecutive - 1 == after.consecutiveRetries
         && after.stopped.value.stoppedAt == now && after.stopped.value.transportBlocked.None?
         && after.stopped.value.maxAttempts == r.maxAttempts && after.stopped.value.maxConsecutive == r.maxConsecutive
         && after.stopped.value.reason == CarriedReason(r, th.goalStatus.Active?, attempt, consecutive, cfg)
         && (after.stopped.value.historical <==> RunFor(th.awaiting.value, now) > 3600 * SECOND)
         && (after.stopped.value.reason.GoalEmptyResponseLimit? ==>
               after.goalStop == Some(GoalStop(r.fault.key, GoalEmptyResponseLimit, now, now, 0)))
       else
         && after.stopped.None? && after.goalStop.None?
         && after.recoveryAttempts == attempt && after.consecutiveRetries == consecutive
         && after.pending == Some(Pending(r.(dispatchFailures := 0, attempt := attempt, consecutive := consecutive),
                                          now + Delay(consecutive, cfg)))
  }

  lemma FailedProbe(th: ThreadState, reason: Reason, now: Time, cfg: Config)
    requires ChainOk(th) && th.awaiting.Some?
    ensures var r, after := th.awaiting.value.retry, Answered(th, ProbeFailed(reason), now, cfg);
      if reason in ACTION_CODES || r.dispatchFailures + 1 >= cfg.controllerFailureLimit
      then StoppedFor(th, r, after, now, reason) && after.stopped.value.transportBlocked.None?
      else after == th.(awaiting :=
             Some(th.awaiting.value.(retry := r.(dispatchFailures := r.dispatchFailures + 1))))
  {
    NeedsActionExactly(reason);
  }

  /** An active answer starts the count anew, the first inactive one is counted, and the second one moves on. */
  lemma ProbeOutcome(th: ThreadState, active: bool, now: Time, cfg: Config)
    requires ChainOk(th) && th.awaiting.Some? && th.awaiting.value.lifecycleChecks in {0, 1}
    ensures var aw, after := th.awaiting.value, Answered(th, ProbeStatus(active), now, cfg);
      if !active && aw.lifecycleChecks == 1 then MovesOn(th, after, now, cfg)
      else after == th.(awaiting := Some(aw.(retry := aw.retry.(dispatchFailures := 0),
                                            lifecycleChecks := if active then 0 else 1)))
  {
  }
}
