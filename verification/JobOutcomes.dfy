/** What dispatch, the start of a job and its result must do, in terms of the fields they find. */
module JobOutcomes {
  import opened Types
  import opened Policy
  import opened Backoff
  import opened ThreadSteps
  import opened Core
  import opened World
  import opened Invariant
  import opened Safety
  import opened Preservation
  import opened Chains
  import opened Histories
  import opened Outcomes
  import opened TickOutcomes

  // ---- dispatch ----

  /** The goal is held, and neither a user restart nor a later external turn lets the retry pass. */
  predicate Barred(th: ThreadState) {
    th.goalHeld && !RestartedGoal(th) && !BegunSince(th, th.goalStatus, th.goalUpdatedAt)
  }

  predicate Due(th: ThreadState, now: Time) { th.pending.Some? && th.pending.value.dueAt <= now }

  predicate Late(th: ThreadState, now: Time) {
    th.recoveryStartedAt != 0 && now > th.recoveryStartedAt + 30 * 60 * SECOND
  }

  /** The retry may be sent if there is a slot. */
  predicate MayBeSent(th: ThreadState, now: Time) { Due(th, now) && !Barred(th) && !Late(th, now) }

  /** No transport is verified: the shared server is off, or its configuration is invalid, and there is no other. */
  predicate NoWay(c: Core) {
    && c.controller != OfficialIpcReady
    && (c.config.sharedEnabled ==> c.controller in {Failing(SharedDisabled), Failing(ConfigInvalid)})
  }

  const OWN_CODES: set<Reason> := {
    PortReserved, PortConflict, EnvironmentConflict, OwnershipUnknown, ConfigInvalid, ChannelUnavailable,
    BackgroundDispatchFailed, ControllerTimeout, ControllerInvalidResult, ControllerUnavailable, CodexNotRunning}

  /** The code of a stop without a transport. */
  function WhyNot(c: Core): Reason {
    if c.controller.Failing? && c.controller.reason in OWN_CODES then c.controller.reason else SharedDisabled
  }

  /** The stop of an entry that was not sent this time, with its marker. */
  predicate StoppedUnsentFor(th: ThreadState, after: ThreadState, now: Time, reason: Reason) {
    && th.pending.Some? && StoppedFor(th, th.pending.value.retry, after, now, reason) && !after.currentTurnProgress
    && var r := th.pending.value.retry;
    after.stopped.value.transportBlocked ==
      Some(reason.SharedDisabled? && r.dispatchFailures == 0 && !r.parentNotified && !r.goalLimitRestart
           && r.fault.failedAt != 0 && th.lastAutoRetryAt <= r.fault.failedAt)
  }

  /** A sent retry awaits its turn until the acknowledgement timeout. */
  predicate SentOut(th: ThreadState, after: ThreadState, now: Time, cfg: Config) {
    && th.pending.Some? && after.pending.None? && after.lastAutoRetryAt == now
    && after.awaiting == Some(Awaiting(th.pending.value.retry, "", Dispatching, now,
                                       now + cfg.startAckTimeoutSeconds * SECOND, 0, 0, 0))
    && SameRetryState(th.(pending := None, awaiting := after.awaiting), after) && SameGoal(th, after)
  }

  lemma DeferredOutcome(th: ThreadState, c: Core, active: bool, picked: bool, now: Time, mode: DispatchMode)
    requires ChainOk(th) && !mode.Sending?
    ensures var after := AfterDispatch(c, now, mode, th, active, picked);
      if mode.NoTransport? && Due(th, now) then StoppedUnsentFor(th, after, now, WhyNot(c)) else after == th
  {
  }

  lemma SendingOutcome(th: ThreadState, c: Core, active: bool, picked: bool, now: Time)
    requires ChainOk(th) && (picked ==> MayBeSent(th, now))
    ensures var after := AfterDispatch(c, now, Sending, th, active, picked);
      if picked then SentOut(th, after, now, c.config)
      else if Live(th) && Barred(th) then Reset(after) && SameGoal(th, after)
      else if Due(th, now) && !active && Late(th, now) then StoppedUnsentFor(th, after, now, RecoveryTimeLimit)
      else after == th
  {
  }

  lemma CandidateExactly(th: ThreadState, active: bool, now: Time)
    requires ChainOk(th)
    ensures Candidate(th, active, now) <==> MayBeSent(th, now) && !active
  {
  }

  /** Which way a dispatch goes: nothing is sent in a pause, without a transport, or without a free slot. */
  lemma ModeExactly(c: Core, goals: seq<ThreadId>)
    ensures var room := c.config.maxParallelRetries - |c.active|;
      ModeAfterGoals(c, goals) ==
        if room <= 0 || room == |goals| then Full else if c.paused then Resting
        else if NoWay(c) then NoTransport else Sending
  {
  }

  /** The slots that a dispatch leaves for retries. */
  function FreeSlots(w: World, goals: seq<ThreadId>): int {
    w.core.config.maxParallelRetries - |w.core.active| - |goals|
  }

  /** Nothing is sent in a pause, without a free slot or without a transport; in the last case every due retry stops.
      Otherwise a picked retry is sent, a barred one is dropped and a late one stops. */
  ghost predicate DispatchLaw(c: Core, now: Time, goals: seq<ThreadId>, picks: seq<ThreadId>, t: ThreadId,
      th: ThreadState, after: ThreadState) {
    if c.config.maxParallelRetries - |c.active| - |goals| <= 0 || c.paused then picks == [] && after == th
    else if NoWay(c) then
      picks == [] && if Due(th, now) then StoppedUnsentFor(th, after, now, WhyNot(c)) else after == th
    else if t in picks then MayBeSent(th, now) && t !in c.active && t !in goals && SentOut(th, after, now, c.config)
    else if Live(th) && Barred(th) then Reset(after) && SameGoal(th, after)
    else if Due(th, now) && Late(th, now) && t !in c.active && t !in goals
    then StoppedUnsentFor(th, after, now, RecoveryTimeLimit)
    else after == th
  }

  lemma ChoiceFacts(c: Core, now: Time, goals: seq<ThreadId>, picks: seq<ThreadId>, t: ThreadId)
    requires DispatchChoice(c, now, goals, picks) && ChainOk(Lookup(c.threads, t))
    ensures !ModeAfterGoals(c, goals).Sending? ==> picks == []
    ensures |goals| <= c.config.maxParallelRetries - |c.active| || (goals == [] && picks == [])
    ensures t in WithGoalJobs(c, goals).active <==> t in c.active || t in goals
    ensures t in picks ==> MayBeSent(Lookup(c.threads, t), now) && t !in c.active && t !in goals
  {
    GoalsDue(c, now, goals, picks);
    PicksDue(c, now, goals, picks);
    GoalJobsTake(c, now, goals, t);
    CandidateExactly(Lookup(c.threads, t), false, now);
  }

  lemma DispatchObeys(c: Core, now: Time, goals: seq<ThreadId>, picks: seq<ThreadId>, t: ThreadId)
    requires DispatchChoice(c, now, goals, picks) && ChainOk(Lookup(c.threads, t))
    ensures DispatchLaw(c, now, goals, picks, t, Lookup(c.threads, t),
                        Lookup(Dispatch(c, now, goals, picks).threads, t))
  {
    ChoiceFacts(c, now, goals, picks, t);
    ModeExactly(c, goals);
    DispatchOfThread(c, now, goals, picks, t);
    var mode, active := ModeAfterGoals(c, goals), t in WithGoalJobs(c, goals).active;
    if mode.Sending? {
      SendingOutcome(Lookup(c.threads, t), c, active, t in picks, now);
    } else {
      DeferredOutcome(Lookup(c.threads, t), c, active, t in picks, now, mode);
    }
  }

  /** What a dispatch does to a thread. */
  lemma DispatchDoes(w: World, goals: seq<ThreadId>, picks: seq<ThreadId>, t: ThreadId)
    requires WorldOk(w) && Enabled(w, DispatchDue(goals, picks))
    ensures DispatchLaw(w.core, w.now, goals, picks, t, ThreadOf(w, t),
                        ThreadOf(Apply(w, DispatchDue(goals, picks)), t))
  {
    ThreadChain(w, t);
    DispatchedThread(w, goals, picks, t);
    DispatchObeys(w.core, w.now, goals, picks, t);
  }

  lemma GoalJobsTake(c: Core, now: Time, goals: seq<ThreadId>, t: ThreadId)
    requires forall u :: u in goals ==> GoalStopDue(c, u, now)
    ensures t in WithGoalJobs(c, goals).active <==> t in c.active || t in goals
  {
  }

  /** A retry that may be sent is left out only in a pause, without a transport, or because every slot is taken; and a
      retry that got one is not due later. */
  lemma LeftOutOnlyIfFull(w: World, goals: seq<ThreadId>, picks: seq<ThreadId>, t: ThreadId)
    requires WorldOk(w) && Enabled(w, DispatchDue(goals, picks)) && !w.core.paused && !NoWay(w.core)
    requires MayBeSent(ThreadOf(w, t), w.now) && t !in w.core.active && t !in goals && t !in picks
    ensures |picks| >= FreeSlots(w, goals)
    ensures forall u :: u in picks && ThreadOf(w, u).pending.Some? ==>
      ThreadOf(w, u).pending.value.dueAt <= ThreadOf(w, t).pending.value.dueAt
  {
    ThreadChain(w, t);
    ModeExactly(w.core, goals);
    GoalsDue(w.core, w.now, goals, picks);
    PicksDue(w.core, w.now, goals, picks);
    GoalJobsTake(w.core, w.now, goals, t);
    CandidateExactly(ThreadOf(w, t), false, w.now);
    if ModeAfterGoals(w.core, goals).Sending? {
      var d := WithGoalJobs(w.core, goals);
      assert t in Candidates(d, w.now);
      SomeAreLeft(picks, Candidates(d, w.now), FreeSlots(w, goals), u => PendingDueAt(d, u), t);
    }
  }

  /** The retries are sent in the order of their due times. */
  lemma SentInOrder(w: World, goals: seq<ThreadId>, picks: seq<ThreadId>, i: nat, j: nat)
    requires Enabled(w, DispatchDue(goals, picks)) && i < j < |picks|
    ensures var one, other := ThreadOf(w, picks[i]).pending, ThreadOf(w, picks[j]).pending;
      picks[i] != picks[j] && one.Some? && other.Some? && one.value.dueAt <= other.value.dueAt
  {
    PicksDue(w.core, w.now, goals, picks);
    assert picks[i] in picks && picks[j] in picks;
    var d := WithGoalJobs(w.core, goals);
    assert PendingDueAt(d, picks[i]) <= PendingDueAt(d, picks[j]);
  }

  lemma SomeAreLeft(taken: seq<ThreadId>, due: set<ThreadId>, room: int, dueAt: ThreadId -> Time, t: ThreadId)
    requires EarliestFirst(taken, due, room, dueAt) && t in due && t !in taken
    ensures |taken| >= room && forall u :: u in taken ==> dueAt(u) <= dueAt(t)
  {
    if |taken| < room {
      NoRepeatsCount(taken);
      assert Elements(taken) <= due - {t};
      FewerElements(Elements(taken), due - {t});
      assert false;
    }
  }

  lemma FewerElements(a: set<ThreadId>, b: set<ThreadId>)
    requires a <= b
    ensures |a| <= |b|
  {
    if a != {} {
      var x :| x in a;
      FewerElements(a - {x}, b - {x});
    }
  }

  lemma {:induction false} NoRepeatsCount(ts: seq<ThreadId>)
    requires NoRepeats(ts)
    ensures |Elements(ts)| == |ts|
  {
    if ts == [] {
      assert Elements(ts) == {};
    } else {
      var first, last := ts[..|ts| - 1], ts[|ts| - 1];
      NoRepeatsCount(first);
      assert Elements(ts) == Elements(first) + {last};
      assert last !in first;
    }
  }

  /** A goal-stop request takes a slot only when it is due and its thread has no job, and is left out only if every slot
      is taken. */
  lemma GoalRequestsFirst(w: World, goals: seq<ThreadId>, picks: seq<ThreadId>, t: ThreadId)
    requires Enabled(w, DispatchDue(goals, picks)) && w.core.config.maxParallelRetries > |w.core.active|
    ensures var g := ThreadOf(w, t).goalStop;
      var due := g.Some? && g.value.dueAt <= w.now && t !in w.core.active;
      (t in goals ==> due) && (due && t !in goals ==> FreeSlots(w, goals) <= 0)
  {
    GoalsDue(w.core, w.now, goals, picks);
    if GoalStopDue(w.core, t, w.now) && t !in goals {
      SomeAreLeft(goals, GoalStopsDue(w.core, w.now), Room(w.core), u => GoalDueAt(w.core, u), t);
    }
  }

  // ---- the jobs of a dispatch ----

  /** A retry job carries the payload that waited, a goal-block job what the request and its stop say. */
  predicate JobFor(job: Job, t: ThreadId, th: ThreadState) {
    match job
    case RecoveryJob(u, retry) => u == t && th.pending.Some? && retry == th.pending.value.retry
    case GoalBlockJob(u, key, failures, kind, attempts, home, path) =>
      && u == t && th.goalStop.Some? && th.stopped.Some?
      && key == th.goalStop.value.key && failures == th.goalStop.value.dispatchFailures
      && kind == th.stopped.value.fault.kind && attempts == th.stopped.value.attempts
      && home == th.stopped.value.fault.codexHome && path == th.stopped.value.fault.rolloutPath
  }

  lemma GoalSlot(c: Core, goals: seq<ThreadId>, t: ThreadId)
    requires t in goals && t in c.threads && c.threads[t].goalStop.Some? && OnePhase(c.threads[t])
    ensures var active := WithGoalJobs(c, goals).active;
      t in active && JobFor(active[t], t, c.threads[t]) && active[t].GoalBlockJob?
  {
  }

  lemma PickSlot(c: Core, now: Time, picks: seq<ThreadId>, t: ThreadId)
    requires t in picks && t in c.threads && c.threads[t].pending.Some?
    ensures var active := Launch(c, picks, now).active;
      t in active && JobFor(active[t], t, c.threads[t]) && active[t].RecoveryJob?
  {
  }

  lemma LaunchKeepsSlots(c: Core, now: Time, picks: seq<ThreadId>, t: ThreadId)
    requires t in c.active && t !in picks
    ensures var active := Launch(c, picks, now).active; t in active && active[t] == c.active[t]
  {
  }

  lemma SlotJob(c: Core, now: Time, goals: seq<ThreadId>, picks: seq<ThreadId>, t: ThreadId)
    requires DispatchChoice(c, now, goals, picks) && t in goals + picks && ChainOk(Lookup(c.threads, t))
    ensures var active := Dispatch(c, now, goals, picks).active;
      t in active && JobFor(active[t], t, Lookup(c.threads, t)) && (active[t].RecoveryJob? <==> t in picks)
  {
    if t in picks { PickedJob(c, now, goals, picks, t); } else { GoalJobStays(c, now, goals, picks, t); }
  }

  lemma PickedJob(c: Core, now: Time, goals: seq<ThreadId>, picks: seq<ThreadId>, t: ThreadId)
    requires DispatchChoice(c, now, goals, picks) && t in picks
    ensures var active := Dispatch(c, now, goals, picks).active;
      t in active && JobFor(active[t], t, Lookup(c.threads, t)) && active[t].RecoveryJob?
  {
    PicksDue(c, now, goals, picks);
    PickSlot(WithGoalJobs(c, goals), now, picks, t);
  }

  lemma GoalJobStays(c: Core, now: Time, goals: seq<ThreadId>, picks: seq<ThreadId>, t: ThreadId)
    requires DispatchChoice(c, now, goals, picks) && t in goals && t !in picks && ChainOk(Lookup(c.threads, t))
    ensures var active := Dispatch(c, now, goals, picks).active;
      t in active && JobFor(active[t], t, Lookup(c.threads, t)) && active[t].GoalBlockJob?
  {
    GoalsDue(c, now, goals, picks);
    GoalSlot(c, goals, t);
    if picks == [] {
      RestingActive(c, now, goals);
    } else {
      PicksDue(c, now, goals, picks);
      LaunchKeepsSlots(WithGoalJobs(c, goals), now, picks, t);
    }
  }

  /** Every dispatch adds one job for each slot that it fills, in order, none of them begun. */
  lemma DispatchedJobs(w: World, goals: seq<ThreadId>, picks: seq<ThreadId>, i: nat)
    requires WorldOk(w) && Enabled(w, DispatchDue(goals, picks)) && i < |goals + picks|
    ensures var slots, tasks := goals + picks, Apply(w, DispatchDue(goals, picks)).tasks;
      && |tasks| == |w.tasks| + |slots| && tasks[..|w.tasks|] == w.tasks
      && JobFor(tasks[|w.tasks| + i].job, slots[i], ThreadOf(w, slots[i])) && !tasks[|w.tasks| + i].running
      && (tasks[|w.tasks| + i].job.RecoveryJob? <==> slots[i] in picks)
  {
    var c := w.core;
    var active := Dispatch(c, w.now, goals, picks).active;
    SlotsTaken(c, w.now, goals, picks);
    LaunchedJobs(active, goals + picks);
    ThreadChain(w, (goals + picks)[i]);
    SlotJob(c, w.now, goals, picks, (goals + picks)[i]);
  }

  // ---- the start of a job ----

  /** The thread still waits for the very attempt of this retry, or for this goal to be stopped. */
  predicate Wanted(th: ThreadState, job: Job) {
    match job
    case RecoveryJob(_, r) =>
      && th.awaiting.Some? && th.awaiting.value.retry.fault.key == r.fault.key
      && th.awaiting.value.retry.attempt == r.attempt
    case GoalBlockJob(_, key, _, _, _, _, _) => GoalGivenUp(th) && th.goalStop.Some? && th.goalStop.value.key == key
  }

  /** A hold lets a recovery job begin only for a restarted goal or a turn that began later. */
  predicate LetBegin(th: ThreadState, job: Job) {
    job.RecoveryJob? && th.goalHeld ==> job.retry.goalLimitRestart || BegunSince(th, th.goalStatus, th.goalUpdatedAt)
  }

  /** A job begins exactly if it is still wanted and no hold forbids it; otherwise it is dropped and frees its slot. */
  lemma StartOfJob(w: World, i: nat)
    requires WorldOk(w) && i < |w.tasks|
    ensures var job, v := w.tasks[i].job, Apply(w, StartTask(i));
      var th := ThreadOf(w, job.thread);
      && v.core.threads == w.core.threads && v.core.controller == w.core.controller
      && if Wanted(th, job) && LetBegin(th, job) then
           v.tasks == w.tasks[i := Task(job, true)] && v.core.active == w.core.active
         else v.tasks == w.tasks[..i] + w.tasks[i + 1..] && v.core.active == w.core.active - {job.thread}
  {
    ThreadChain(w, w.tasks[i].job.thread);
    StartsExactly(w.core, w.tasks[i].job);
  }

  lemma StartsExactly(c: Core, job: Job)
    requires ChainOk(Lookup(c.threads, job.thread))
    ensures var th := Lookup(c.threads, job.thread); MayStart(c, job) <==> Wanted(th, job) && LetBegin(th, job)
  {
  }

  // ---- results ----

  /** The code that a failed call is recorded under. */
  function Code(result: Result): Reason {
    match result
    case Error(reason) => reason
    case RetryLater(reason, _) => if reason == NoReason then ControllerUnavailable else reason
    case UserActive(reason, _) => if reason == NoReason then ControllerUnavailable else reason
    case _ => ControllerInvalidResult
  }

  /** The retry once the result has said whether the parent was told. */
  function Told(r: Retry, result: Result): Retry {
    r.(parentNotified := r.parentNotified || (!result.Error? && result.parentNotified))
  }

  lemma ToldOutcome(th: ThreadState, result: Result)
    requires ChainOk(th) && th.awaiting.Some?
    ensures var aw := th.awaiting.value;
      Notified(th, result) == th.(awaiting := Some(aw.(retry := Told(aw.retry, result))))
    ensures ChainOk(Notified(th, result)) && ChainOk(WithoutFailures(Notified(th, result)))
  {
  }

  /** A failed call is counted and put back, or stops the retry; a busy user is not counted. */
  lemma FailedCall(th: ThreadState, result: Result, at: Time, cfg: Config)
    requires ChainOk(th) && th.awaiting.Some? && (result.Error? || result.RetryLater? || result.UserActive?)
    ensures var r, after := Told(th.awaiting.value.retry, result), RecoveryFinished(th, result, at, cfg);
      var failures := if result.UserActive? then 0 else r.dispatchFailures + 1;
      if Code(result) in ACTION_CODES || (!result.UserActive? && failures >= cfg.controllerFailureLimit)
      then StoppedFor(th, r, after, at, Code(result)) && after.stopped.value.transportBlocked.None?
      else PutBack(th, r, failures, after, at, cfg)
  {
    ToldOutcome(th, result);
    if result.UserActive? {
      RescheduleOutcome(WithoutFailures(Notified(th, result)), at, FailureReason(result), false, cfg);
    } else {
      RescheduleOutcome(Notified(th, result), at, FailureReason(result), true, cfg);
    }
  }

  /** An accepted call waits for its turn until the timeout after it; its failures in a row are over. */
  lemma AcceptedCall(th: ThreadState, result: Result, at: Time, cfg: Config)
    requires ChainOk(th) && th.awaiting.Some? && result.Accepted?
    ensures var aw := th.awaiting.value;
      RecoveryFinished(th, result, at, cfg) == th.(awaiting := Some(aw.(
        retry := Told(aw.retry, result).(dispatchFailures := 0), action := result.action,
        startDeadline := at + cfg.startAckTimeoutSeconds * SECOND)))
  {
  }

  /** What a result that does not apply says about the goal: its status, if it names one. */
  const REPORTED: map<Reason, GoalStatus> := map[
    GoalPaused := Paused, GoalCompleted := Completed, GoalUsageLimited := UsageLimited,
    GoalBudgetLimited := BudgetLimited, GoalBlockedBeforeFailure := Blocked]

  predicate ReportsHold(reason: Reason) { reason in REPORTED.Keys + {GoalStatusChanged, GoalStatusUnsupported} }

  lemma HoldReported(reason: Reason)
    ensures var held := HoldStatusForReason(reason);
      && (held.Some? <==> ReportsHold(reason))
      && (held.Some? ==> held.value == if reason in REPORTED then REPORTED[reason] else NoGoal)
      && (reason in REPORTED ==> !REPORTED[reason].NoGoal?)
  {
  }

  /** A result that does not apply ends the retry and takes over the hold it reports. */
  lemma RefusedCall(th: ThreadState, result: Result, at: Time, cfg: Config)
    requires ChainOk(th) && th.awaiting.Some? && result.NotApplicable?
    ensures var after := RecoveryFinished(th, result, at, cfg);
      && Reset(after) && after.goalHeld == (th.goalHeld || ReportsHold(result.reason))
      && after.goalStatus == (if result.reason in REPORTED then REPORTED[result.reason] else th.goalStatus)
      && after.goalUpdatedAt == th.goalUpdatedAt && after.goalObservedAt == th.goalObservedAt
  {
    HoldReported(result.reason);
  }

  /** What a stopped goal turned out to be. */
  const FOUND: map<Reason, GoalStatus> := map[
    GoalAlreadyPaused := Paused, GoalAlreadyCompleted := Completed, GoalAlreadyUsageLimited := UsageLimited,
    GoalAlreadyBudgetLimited := BudgetLimited]

  /** The stop stays, under this code. */
  predicate OnlyRenamed(th: ThreadState, after: ThreadState, reason: Reason) {
    && th.stopped.Some? && after.stopped == Some(th.stopped.value.(reason := reason))
    && after.pending == th.pending && after.awaiting == th.awaiting
    && after.recoveryAttempts == th.recoveryAttempts && after.consecutiveRetries == th.consecutiveRetries
  }

  /** A goal that was stopped is held under the status found; a failed call is counted, until the request is given
      up. */
  lemma GoalBlockCall(th: ThreadState, result: Result, at: Time, cfg: Config)
    requires ChainOk(th) && th.goalStop.Some?
    ensures var g, after := th.goalStop.value, GoalBlockFinished(th, result, at, cfg);
      if result.Accepted? && result.action.GoalBlock? then
        && OnlyRenamed(th, after, GoalEmptyResponseLimit) && after.goalStop.None? && after.goalHeld
        && after.goalObservedAt == at && after.goalUpdatedAt == th.goalUpdatedAt
        && after.goalStatus == (if result.reason in FOUND then FOUND[result.reason] else Blocked)
      else if Code(result) in ACTION_CODES || g.dispatchFailures + 1 >= cfg.controllerFailureLimit then
        && OnlyRenamed(th, after, if Code(result) in ACTION_CODES then Code(result) else GoalEmptyResponseBlockFailed)
        && after.goalStop.None? && after.goalHeld && after.goalStatus == th.goalStatus
      else
        && SameGoal(th, after) && SameRetryState(th.(goalStop := after.goalStop), after)
        && after.goalStop == Some(g.(dispatchFailures := g.dispatchFailures + 1,
                                     dueAt := at + Delay(g.dispatchFailures + 1, cfg)))
  {
    NeedsActionExactly(FailureReason(result));
    NeedsActionExactly(Code(result));
    if result.Accepted? { StatusFound(result.reason); }
  }

  lemma StatusFound(reason: Reason)
    ensures BlockedStatus(reason) == if reason in FOUND then FOUND[reason] else Blocked
  {
  }

  // ---- the controller state ----

  /** A call that went through makes the controller ready, unless the official channel is in use or the shared server
      is off. */
  function WentThrough(c: Core): Controller {
    if c.controller == OfficialIpcReady || !c.config.sharedEnabled then c.controller else Ready
  }

  /** The controller state after a job; a result that nobody waits for changes nothing but the slot. */
  lemma ControllerAfterJob(c: Core, job: Job, result: Result, at: Time)
    requires ChainOk(Lookup(c.threads, job.thread))
    ensures var d := FinishJob(c, job, result, at);
      && d.active == c.active - {job.thread}
      && if !Wanted(Lookup(c.threads, job.thread), job) then d.controller == c.controller && d.threads == c.threads
         else if result.Error? || result.RetryLater? || (job.GoalBlockJob? && result.UserActive?) then
           d.controller == Failing(Code(result))
         else if job.GoalBlockJob? then
           d.controller == if result.Accepted? && result.action.GoalBlock? then Ready else c.controller
         else if result.Accepted? && !result.action.GoalActive? && result.reason in {IpcTurnStarted, IpcGoalTurnStarted}
         then d.controller == OfficialIpcReady
         else d.controller == WentThrough(c)
  {
  }

  lemma ControllerAfterAnswer(c: Core, t: ThreadId, p: Probe, answer: Answer, now: Time)
    ensures var aw := Lookup(c.threads, t).awaiting;
      var d := AnswerProbe(c, t, p, answer, now);
      if aw.None? || aw.value.retry.fault.key != p.key || aw.value.retryTurn != p.turn then d == c
      else d.controller == if answer.ProbeFailed? then Failing(answer.reason) else WentThrough(c)
  {
  }

  /** A reload follows the switch of the shared server. */
  lemma ControllerAfterReload(c: Core, cfg: Config, wall: Time)
    ensures var d := Reload(c, cfg, wall);
      && d.config == cfg && d.active == c.active && d.paused == c.paused && d.processed == c.processed
      && d.controller ==
         if !cfg.sharedEnabled && c.controller in {Starting, Ready} then Failing(SharedDisabled)
         else if cfg.sharedEnabled && c.controller == Failing(SharedDisabled) then Starting
         else c.controller
  {
  }
}
