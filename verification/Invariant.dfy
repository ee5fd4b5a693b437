/** The invariant of one thread and its trace. */
module Invariant {
  import opened Types
  import opened ThreadSteps
  import opened World

  /** One phase at a time, and a goal-stop request only beside its stop. */
  predicate OnePhase(th: ThreadState) {
    && !(th.pending.Some? && th.awaiting.Some?)
    && !(th.pending.Some? && th.stopped.Some?)
    && !(th.awaiting.Some? && th.stopped.Some?)
    && (th.goalStop.Some? ==>
          && th.stopped.Some? && th.stopped.value.fault.key == th.goalStop.value.key
          && th.stopped.value.reason.GoalEmptyResponseLimit?)
  }

  predicate RetryMatches(th: ThreadState, r: Retry) {
    && 1 <= r.consecutive <= r.attempt && r.maxAttempts >= 1 && r.maxConsecutive >= 1
    && th.recoveryAttempts == r.attempt && th.consecutiveRetries == r.consecutive
    && th.recoveryStartedAt != 0
  }

  /** The thread's counters are those of its live retry; a stop counts completed retries. */
  predicate CountersOk(th: ThreadState) {
    && (LiveRetry(th).Some? ==> RetryMatches(th, LiveRetry(th).value))
    && (th.stopped.Some? ==>
          && 0 <= th.stopped.value.consecutive <= th.stopped.value.attempts
          && th.stopped.value.maxAttempts >= 1 && th.stopped.value.maxConsecutive >= 1)
  }

  /** A failure event of the thread, with its own date. */
  predicate FaultOk(t: ThreadId, f: Fault) {
    f.key.thread == t && (f.key.at == f.failedAt || f.key.at == 0)
  }

  predicate SourceOk(t: ThreadId, th: ThreadState) {
    Record(th).Some? ==> FaultOk(t, Record(th).value)
  }

  /** `a` is the acknowledgement of the retry that awaits in `th`. */
  predicate AckOf(th: ThreadState, a: Ack)
    requires th.awaiting.Some?
  {
    var aw := th.awaiting.value;
    && Acknowledges(a.before, a.turn, a.at) && a.turn == aw.retryTurn && a.at == aw.startedAt
    && LiveRetry(a.before).Some?
    && LiveRetry(a.before).value.fault.key == aw.retry.fault.key
        && LiveRetry(a.before).value.attempt == aw.retry.attempt
  }

  /** The turn of a retry is the newest start that was acknowledged, and it was acknowledged for this retry. */
  predicate TurnOk(th: ThreadState, tr: Trace) {
    HasTurn(th) ==> tr.ack.Some? && AckOf(th, tr.ack.value)
  }

  /** A retry that passes a hold as a user restart is one. */
  predicate RestartOk(th: ThreadState, tr: Trace) {
    LiveRetry(th).Some? && LiveRetry(th).value.goalLimitRestart ==> LiveRetry(th).value.fault.key in tr.restarted
  }

  predicate ExternalKnown(th: ThreadState, tr: Trace) {
    th.lastExternalAt != 0 ==> (th.lastExternalTurn, th.lastExternalAt) in tr.external
  }

  /** A recorded origin is the handled external start of the turn whose failure began the chain. */
  predicate OriginOk(th: ThreadState, tr: Trace) {
    && ExternalKnown(th, tr)
    && (Record(th).Some? && Record(th).value.originStartedAt != 0 ==>
          (tr.firstTurn, Record(th).value.originStartedAt) in tr.external)
  }

  /** Without reported progress the two counters are equal. */
  predicate ProgressOk(th: ThreadState, tr: Trace) {
    && (HasTurn(th) && th.currentTurnProgress ==> tr.turnProgress && tr.chainProgress)
    && (LiveRetry(th).Some? && !tr.chainProgress ==> LiveRetry(th).value.attempt == LiveRetry(th).value.consecutive)
    && (th.stopped.Some? && !tr.chainProgress ==> th.stopped.value.attempts == th.stopped.value.consecutive)
  }

  predicate LastAnswerInactive(tr: Trace, key: EventKey, turn: TurnId, latest: Time) {
    && |tr.answers| > 0
    && var last := tr.answers[|tr.answers| - 1];
    && last.key == key && last.turn == turn && !last.active && 0 < last.at <= latest
  }

  /** One confirmation is one inactive answer, the newest one. */
  predicate ConfirmationOk(th: ThreadState, tr: Trace) {
    th.awaiting.Some? ==>
      var aw := th.awaiting.value;
      && 0 <= aw.lifecycleChecks < CONFIRMATIONS
      && (aw.lifecycleChecks > 0 ==>
            aw.retryTurn != "" && LastAnswerInactive(tr, aw.retry.fault.key, aw.retryTurn, aw.lastLifecycleCheckAt))
  }

  predicate GoalRunsOk(th: ThreadState, tr: Trace, bound: int) {
    if th.goalStop.None? then tr.goalRuns == 0
    else th.goalStop.value.dispatchFailures == tr.goalRuns < bound
  }

  predicate ShapeOk(th: ThreadState, tr: Trace, bound: int) {
    && OnePhase(th) && CountersOk(th) && ProgressOk(th, tr) && ConfirmationOk(th, tr) && GoalRunsOk(th, tr, bound)
  }

  predicate HistoryOk(t: ThreadId, th: ThreadState, tr: Trace) {
    SourceOk(t, th) && TurnOk(th, tr) && OriginOk(th, tr) && RestartOk(th, tr)
  }

  predicate ThreadOk(t: ThreadId, th: ThreadState, tr: Trace, now: Time, bound: int) {
    ShapeOk(th, tr, bound) && HistoryOk(t, th, tr)
  }

  function Written(th: ThreadState, o: Option<ThreadState>): ThreadState {
    if o.Some? then o.value else th
  }

  // ---- shapes of a change ----

  /** The newest event is on the trace before its handler runs. */
  lemma SeeingKeepsOk(t: ThreadId, th: ThreadState, tr: Trace, e: Event, now: Time, after: ThreadState, bound: int)
    requires ThreadOk(t, th, tr, now, bound)
    ensures ThreadOk(t, th, Seeing(tr, e, now, th, after), now, bound)
  {
  }

  lemma EmptiedKeepsOk(t: ThreadId, th: ThreadState, tr: Trace, after: ThreadState, now: Time, bound: int)
    requires ThreadOk(t, th, tr, now, bound) && ExternalKnown(after, tr)
    requires Record(after).None? && after.goalStop.None?
    ensures ThreadOk(t, after, Noted(tr, th, after), now, bound)
  {
  }

  predicate SameStop(s: Option<Stopped>, u: Option<Stopped>) {
    (s.None? && u.None?) || (s.Some? && u.Some? && s.value.(reason := u.value.reason) == u.value)
  }

  /** Only flags and marks around the records change. */
  predicate SameRecords(th: ThreadState, after: ThreadState) {
    && after.pending == th.pending && after.awaiting == th.awaiting && SameStop(th.stopped, after.stopped)
    && (Live(th) ==>
          && after.recoveryAttempts == th.recoveryAttempts && after.consecutiveRetries == th.consecutiveRetries
          && after.recoveryStartedAt == th.recoveryStartedAt)
    && (after.goalStop == th.goalStop || after.goalStop.None?)
    && (after.goalStop.Some? ==> after.stopped == th.stopped)
  }

  lemma SameRecordsKeepOk(t: ThreadId, th: ThreadState, tr: Trace, after: ThreadState, now: Time, bound: int)
    requires ThreadOk(t, th, tr, now, bound) && SameRecords(th, after) && ExternalKnown(after, tr)
    requires after.currentTurnProgress ==> th.currentTurnProgress || (tr.turnProgress && tr.chainProgress)
    ensures ThreadOk(t, after, Noted(tr, th, after), now, bound)
  {
  }

  /** A live retry stays live with the same failure. */
  lemma LiveKeepsOk(t: ThreadId, th: ThreadState, tr: Trace, after: ThreadState, now: Time, bound: int)
    requires ThreadOk(t, th, tr, now, bound) && ExternalKnown(after, tr) && Live(th) && Live(after)
    requires OnePhase(after) && after.goalStop.None? && CountersOk(after)
    requires LiveRetry(after).value.fault == LiveRetry(th).value.fault
    requires LiveRetry(after).value.goalLimitRestart == LiveRetry(th).value.goalLimitRestart
    requires TurnOk(after, tr) && ConfirmationOk(after, tr) && ProgressOk(after, tr)
    ensures ThreadOk(t, after, Noted(tr, th, after), now, bound)
  {
  }

  predicate FreshGoalStop(th: ThreadState) {
    th.goalStop.Some? ==>
      && th.goalStop.value.dispatchFailures == 0 && th.stopped.Some?
      && th.goalStop.value.key == th.stopped.value.fault.key && th.stopped.value.reason.GoalEmptyResponseLimit?
  }

  /** A live retry is stopped. */
  lemma StopKeepsOk(t: ThreadId, th: ThreadState, tr: Trace, after: ThreadState, now: Time, bound: int)
    requires ThreadOk(t, th, tr, now, bound) && bound > 0 && ExternalKnown(after, tr)
    requires Live(th) && !Live(after) && after.stopped.Some? && FreshGoalStop(after) && CountersOk(after)
    requires after.stopped.value.fault == LiveRetry(th).value.fault
    requires !tr.chainProgress ==> after.stopped.value.attempts == after.stopped.value.consecutive
    ensures ThreadOk(t, after, Noted(tr, th, after), now, bound)
  {
  }

  /** The newest event is a failure: live with it. */
  lemma NewFailureKeepsOk(t: ThreadId, th: ThreadState, tr: Trace, after: ThreadState, now: Time, bound: int)
    requires ThreadOk(t, th, tr, now, bound) && bound > 0 && ExternalKnown(after, tr)
    requires th.goalStop.None? && OnePhase(after) && FreshGoalStop(after) && CountersOk(after) && after.awaiting.None?
        && Record(after).Some?
    requires after.pending.Some? ==> !after.pending.value.retry.goalLimitRestart
    requires FaultOk(t, Record(after).value) && OriginOk(after, Noted(tr, th, after))
    requires ProgressOk(after, Noted(tr, th, after))
    ensures ThreadOk(t, after, Noted(tr, th, after), now, bound)
  {
  }
}
