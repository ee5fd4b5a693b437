/** Where the guarantees end: concrete runs that leave their conditions, and what then happens. */
module Boundaries {
  import opened Types
  import opened Policy
  import opened ThreadSteps
  import opened Core
  import opened World
  import opened Theorems
  import opened Preservation

  const ROOMY: Config := Config(1, 60, 1, Fixed, 5, 5, 1, 10, 1, 3, 3, true)
  const TIGHT: Config := ROOMY.(maxConsecutiveRetries := 1, maxRecoveryAttempts := 1)
  const T: ThreadId := "t"

  // ---- runs, step by step ----

  /** The world before the first tick. */
  const FRESH: World := World(Core(map[], map[], ROOMY, Starting, false, map[]), [], Idle, 1, false, map[], map[], [],
      3)

  /** Some run leads from `base` to `w`. */
  ghost predicate Reached(base: World, w: World) {
    exists steps :: ValidRun(base, steps) && Run(base, steps) == w
  }

  lemma Start(base: World)
    ensures Reached(base, base) && Init(FRESH, ROOMY, 3)
  {
    assert ValidRun(base, []) && Run(base, []) == base;
  }

  lemma Go(base: World, w: World, step: Step)
    requires Reached(base, w) && Enabled(w, step)
    ensures Reached(base, Apply(w, step))
  {
    var steps :| ValidRun(base, steps) && Run(base, steps) == w;
    OneMore(base, steps, step);
    assert ValidRun(base, steps + [step]);
  }

  /** A start may carry the time of the event handled before it. */
  function Stamp(item: Item): Time { item.event.at + if item.event.TaskStarted? then 1 else 0 }

  /** Every handled event is older than one with a later stamp. */
  predicate HandledUpTo(processed: map<EventKey, Time>, newest: Time) {
    forall k :: k in processed ==> k.at < newest || (k.at == newest && !k.kind.StartedKind?)
  }

  /** A world with at most one thread and no job. */
  ghost predicate Quiet(base: World, w: World, phase: Phase, now: Time, th: ThreadState, cfg: Config, newest: Time) {
    && Reached(base, w) && w.phase == phase && w.now == now && w.failureBound == 3 && w.probes == map[] && w.tasks == []
    && w.core.threads.Keys <= {T} && ThreadOf(w, T) == th
    && w.core.active == map[] && !w.core.paused && w.core.config == cfg && ValidConfig(cfg)
    && HandledUpTo(w.core.processed, newest)
  }

  lemma Observed(base: World, w: World, now: Time, th: ThreadState, cfg: Config, newest: Time, item: Item,
      after: ThreadState)
    requires Quiet(base, w, Scanning, now, th, cfg, newest) && item.thread == T && newest < Stamp(item)
    requires OnEvent(th, item, now, cfg) == Some(after)
    ensures Quiet(base, Apply(w, Observe(item)), Scanning, now, after, cfg, Stamp(item))
    ensures Apply(w, Observe(item)).core.controller == w.core.controller
    ensures Apply(w, Observe(item)).reloaded == w.reloaded
    ensures Apply(w, Observe(item)).log == w.log
  {
    Go(base, w, Observe(item));
  }

  lemma Begun(base: World, w: World, now: Time, th: ThreadState, cfg: Config, newest: Time, at: Time,
      reload: Option<Config>)
    requires Quiet(base, w, Idle, now, th, cfg, newest) && at >= now
    requires reload.Some? ==> ValidConfig(reload.value) && reload.value.controllerFailureLimit <= 3
    ensures var v := Apply(w, TickStart(at, reload, at));
      && Quiet(base, v, Scanning, at, if reload.Some? then Reloaded(th, at, reload.value) else th,
               if reload.Some? then reload.value else cfg, newest)
      && v.log == w.log && v.reloaded == reload.Some?
      && v.core.controller == if reload.Some? then ReloadedController(w.core.controller, reload.value.sharedEnabled)
          else w.core.controller
  {
    Go(base, w, TickStart(at, reload, at));
    assert Reloaded(EmptyThread, at, cfg) == EmptyThread;
  }

  lemma Scanned(base: World, w: World, now: Time, th: ThreadState, cfg: Config, newest: Time)
    requires Quiet(base, w, Scanning, now, th, cfg, newest)
    ensures var v := Apply(w, EndScan(false));
      Quiet(base, v, Controlling, now, th, cfg, newest) && v.log == w.log && v.reloaded == w.reloaded
          && v.core.controller == w.core.controller
  {
    Go(base, w, EndScan(false));
  }

  lemma Expired(base: World, w: World, now: Time, th: ThreadState, cfg: Config, newest: Time)
    requires Quiet(base, w, Controlling, now, th, cfg, newest) && !Unacknowledged(th, now)
    ensures var v := Apply(w, ExpireStarts);
      Quiet(base, v, Waiting, now, th, cfg, newest) && v.log == w.log && v.reloaded == w.reloaded
          && v.core.controller == w.core.controller
  {
    Go(base, w, ExpireStarts);
    assert Expire(w.core, now).threads == w.core.threads;
  }

  lemma Probed(base: World, w: World, now: Time, th: ThreadState, cfg: Config, newest: Time)
    requires Quiet(base, w, Waiting, now, th, cfg, newest)
    ensures var v := Apply(w, BeginProbes(false));
      Quiet(base, v, Probing, now, th, cfg, newest) && v.log == w.log && v.reloaded == w.reloaded
          && v.core.controller == w.core.controller
  {
    Go(base, w, BeginProbes(false));
  }

  /** From the end of a scan to the dispatch of the tick. */
  function ToDispatch(w: World): World {
    Apply(Apply(Apply(w, EndScan(false)), ExpireStarts), BeginProbes(false))
  }

  lemma ReadyToDispatch(base: World, w: World, now: Time, th: ThreadState, cfg: Config, newest: Time)
    requires Quiet(base, w, Scanning, now, th, cfg, newest) && !Unacknowledged(th, now)
    ensures var v := ToDispatch(w);
      Quiet(base, v, Probing, now, th, cfg, newest) && v.log == w.log && v.reloaded == w.reloaded
          && v.core.controller == w.core.controller
  {
    Scanned(base, w, now, th, cfg, newest);
    Expired(base, Apply(w, EndScan(false)), now, th, cfg, newest);
    Probed(base, Apply(Apply(w, EndScan(false)), ExpireStarts), now, th, cfg, newest);
  }

  lemma OneCandidate(c: Core, now: Time)
    requires c.threads.Keys <= {T} && c.active == map[] && Candidate(Lookup(c.threads, T), false, now)
    ensures Candidates(c, now) == {T}
  {
    assert !Candidate(EmptyThread, false, now);
  }

  lemma OnlyChoice(c: Core, now: Time)
    requires c.threads.Keys <= {T} && c.active == map[] && Candidate(Lookup(c.threads, T), false, now)
    requires Lookup(c.threads, T).goalStop.None? && ValidConfig(c.config) && !c.paused && !TransportBlocked(c)
    ensures DispatchChoice(c, now, [], [T]) && WithGoalJobs(c, []) == c && ModeAfterGoals(c, []).Sending?
  {
    assert WithGoalJobs(c, []).active == c.active;
    assert GoalStopsDue(c, now) == {};
    OneCandidate(c, now);
    assert Elements([T]) == {T} && Elements([]) == {};
  }

  lemma OneEntry(w: World)
    requires ThreadOf(w, T).pending.Some?
    ensures Entries(w, [T]) ==
      [Entry(T, ThreadOf(w, T).pending.value.retry, w.now, w.core.config, w.reloaded, ThreadOf(w, T), TraceOf(w, T))]
  {
    assert [T][1..] == [];
    assert Entries(w, []) == [];
  }

  lemma SendingDispatch(c: Core, now: Time)
    requires WithGoalJobs(c, []) == c && ModeAfterGoals(c, []).Sending?
    ensures Dispatch(c, now, [], [T]) == Launch(c, [T], now)
  {
  }

  lemma DispatchedFields(w: World)
    ensures var v := DispatchWorld(w, [], [T]);
      v.core == Dispatch(w.core, w.now, [], [T]) && v.phase.Idle? && v.log == w.log + Entries(w, [T])
      && v.now == w.now && v.failureBound == w.failureBound && v.probes == w.probes
  {
  }

  lemma SentCore(w: World)
    requires WithGoalJobs(w.core, []) == w.core && ModeAfterGoals(w.core, []).Sending?
    ensures var v := Apply(w, DispatchDue([], [T]));
      v.core == Launch(w.core, [T], w.now) && v.phase.Idle? && v.log == w.log + Entries(w, [T])
      && v.now == w.now && v.failureBound == w.failureBound && v.probes == w.probes
  {
    SendingDispatch(w.core, w.now);
    DispatchedFields(w);
  }

  /** The one due retry is sent. */
  lemma Sent(base: World, w: World, now: Time, th: ThreadState, cfg: Config, newest: Time)
    requires Quiet(base, w, Probing, now, th, cfg, newest) && Candidate(th, false, now) && th.goalStop.None?
        && !TransportBlocked(w.core)
    ensures var v := Apply(w, DispatchDue([], [T]));
      && Reached(base, v) && v.core == Launch(w.core, [T], now) && v.phase.Idle?
      && v.log == w.log + [Entry(T, th.pending.value.retry, now, cfg, w.reloaded, th, TraceOf(w, T))]
  {
    OnlyChoice(w.core, now);
    Go(base, w, DispatchDue([], [T]));
    SentCore(w);
    OneEntry(w);
  }

  lemma FirstScan() returns (w: World)
    ensures Quiet(FRESH, w, Scanning, At(100), EmptyThread, ROOMY, 0) && w.core.controller == Starting
  {
    Start(FRESH);
    Begun(FRESH, FRESH, 1, EmptyThread, ROOMY, 0, At(100), None);
    w := Apply(FRESH, TickStart(At(100), None, At(100)));
  }

  /** The first tick with two events of the thread. */
  lemma TwoEvents(first: Item, between: ThreadState, second: Item, after: ThreadState) returns (w: World)
    requires first.thread == T == second.thread && 0 < Stamp(first) < Stamp(second)
    requires OnEvent(EmptyThread, first, At(100), ROOMY) == Some(between)
    requires OnEvent(between, second, At(100), ROOMY) == Some(after)
    ensures Quiet(FRESH, w, Scanning, At(100), after, ROOMY, Stamp(second)) && w.core.controller == Starting
  {
    var w1 := FirstScan();
    Observed(FRESH, w1, At(100), EmptyThread, ROOMY, 0, first, between);
    var w2 := Apply(w1, Observe(first));
    Observed(FRESH, w2, At(100), between, ROOMY, Stamp(first), second, after);
    w := Apply(w2, Observe(second));
  }

  // ---- a configuration that could not be reloaded ----

  /** An empty final answer. */
  const EMPTY_ANSWER: Completion := Completion(ErrorText(true, false, false, false, 0, false, false, false, false),
      true, false)

  function At(seconds: int): Time { seconds * SECOND }

  function ItemOf(event: Event): Item { Item(T, event, "", "home", "path") }

  const ACTIVATED: Item := ItemOf(GoalUpdated(At(10), Active, At(10)))
  const FAILED_A: Item := ItemOf(TaskComplete("a", At(20), EMPTY_ANSWER))
  const STARTED_B: Item := ItemOf(TaskStarted("b", At(22)))
  const FAILED_B: Item := ItemOf(TaskComplete("b", At(30), EMPTY_ANSWER))

  const GOAL_THREAD: ThreadState := EmptyThread.(goalStatus := Active, goalUpdatedAt := At(10),
      goalObservedAt := At(10))

  function FirstRetry(item: Item, origin: Time): Retry {
    Retry(Fault(KeyOf(item), "a", item.event.at, origin, EmptyResponse, "home", "path"), 1, 5, 1, 5, 0, false, false)
  }

  const PENDING_ONE: ThreadState := GOAL_THREAD.(
    recoveryAttempts := 1, consecutiveRetries := 1, recoveryStartedAt := At(100), lastFailureAt := At(20),
    pending := Some(Pending(FirstRetry(FAILED_A, 0), At(101))))

  const ADOPTED: ThreadState := PENDING_ONE.(
    lastStartedTurn := "b", lastStartedAt := At(22), lastAutoRetryAt := At(22), pending := None,
    awaiting := Some(Awaiting(FirstRetry(FAILED_A, 0), "b", GoalActive, At(22), 0, At(22), 0, 0)))

  const PENDING_TWO: ThreadState := ADOPTED.(
    recoveryAttempts := 2, consecutiveRetries := 2, lastFailureAt := At(30), awaiting := None,
    pending := Some(Pending(
      Retry(Fault(KeyOf(FAILED_B), "b", At(30), 0, EmptyResponse, "home", "path"), 2, 5, 2, 5, 0, false, false),
          At(101))))

  lemma EventsLeadToAttemptTwo()
    ensures OnEvent(EmptyThread, ACTIVATED, At(100), ROOMY) == Some(GOAL_THREAD)
    ensures OnEvent(GOAL_THREAD, FAILED_A, At(100), ROOMY) == Some(PENDING_ONE)
    ensures OnEvent(PENDING_ONE, STARTED_B, At(100), ROOMY) == Some(ADOPTED)
    ensures OnEvent(ADOPTED, FAILED_B, At(100), ROOMY) == Some(PENDING_TWO)
  {
  }

  /** The world in which the second attempt waits for its time. */
  lemma SecondAttemptWaits() returns (w: World)
    ensures Quiet(FRESH, w, Scanning, At(100), PENDING_TWO, ROOMY, At(30)) && w.core.controller == Starting
  {
    EventsLeadToAttemptTwo();
    var w3 := TwoEvents(ACTIVATED, GOAL_THREAD, FAILED_A, PENDING_ONE);
    Observed(FRESH, w3, At(100), PENDING_ONE, ROOMY, At(20), STARTED_B, ADOPTED);
    var w4 := Apply(w3, Observe(STARTED_B));
    Observed(FRESH, w4, At(100), ADOPTED, ROOMY, Stamp(STARTED_B), FAILED_B, PENDING_TWO);
    w := Apply(w4, Observe(FAILED_B));
  }

  lemma Restarted(base: World, w: World)
    requires Quiet(base, w, Scanning, At(100), PENDING_TWO, ROOMY, At(30))
    ensures var v := Apply(w, Restart(At(102), TIGHT, false));
      Quiet(base, v, Idle, At(102), PENDING_TWO, TIGHT, At(30)) && v.core.controller == Starting
  {
    Go(base, w, Restart(At(102), TIGHT, false));
    assert RestoredAtStartup(Loaded(PENDING_TWO), At(102)) == PENDING_TWO;
  }

  predicate Over(e: Entry) {
    !e.reloaded && e.retry.attempt > e.config.maxRecoveryAttempts
  }

  lemma SecondAttemptIsOver()
    ensures Candidate(PENDING_TWO, false, At(102)) && !Unacknowledged(PENDING_TWO, At(102))
        && PENDING_TWO.goalStop.None?
    ensures PENDING_TWO.pending.value.retry.attempt > TIGHT.maxRecoveryAttempts
  {
  }

  lemma SendsTooMuch(base: World, w: World) returns (v: World, e: Entry)
    requires Quiet(base, w, Scanning, At(102), PENDING_TWO, TIGHT, At(30)) && w.core.controller == Starting
        && !w.reloaded
    ensures Reached(base, v) && e in v.log && Over(e)
  {
    SecondAttemptIsOver();
    ReadyToDispatch(base, w, At(102), PENDING_TWO, TIGHT, At(30));
    var ready := ToDispatch(w);
    Sent(base, ready, At(102), PENDING_TWO, TIGHT, At(30));
    v := Apply(ready, DispatchDue([], [T]));
    e := Entry(T, PENDING_TWO.pending.value.retry, At(102), TIGHT, false, PENDING_TWO, TraceOf(ready, T));
    assert v.log[|ready.log|] == e;
  }

  /** A process that restarts with a smaller budget and whose first reload then fails sends a retry that is over
      that budget: the budget is kept for certain only in ticks that could reload. */
  lemma FailedReloadBreaksBudget() returns (steps: seq<Step>, e: Entry)
    ensures IsRun(FRESH, ROOMY, 3, steps) && e in Run(FRESH, steps).log && Over(e)
  {
    var w := SecondAttemptWaits();
    Restarted(FRESH, w);
    var w1 := Apply(w, Restart(At(102), TIGHT, false));
    Begun(FRESH, w1, At(102), PENDING_TWO, TIGHT, At(30), At(102), None);
    var v;
    v, e := SendsTooMuch(FRESH, Apply(w1, TickStart(At(102), None, At(102))));
    steps :| ValidRun(FRESH, steps) && Run(FRESH, steps) == v;
    Start(FRESH);
  }

  // ---- events dated ahead of the clock ----

  const NO_SHARED: Config := ROOMY.(sharedEnabled := false)
  const STARTED_A: Item := ItemOf(TaskStarted("a", At(150)))
  const FAILED_AHEAD: Item := ItemOf(TaskComplete("a", At(200), EMPTY_ANSWER))

  const RUNNING: ThreadState := EmptyThread.(
    lastStartedTurn := "a", lastStartedAt := At(150), lastExternalTurn := "a", lastExternalAt := At(150))

  function AheadPending(due: Time): ThreadState {
    RUNNING.(recoveryAttempts := 1, consecutiveRetries := 1, recoveryStartedAt := At(100), lastFailureAt := At(200),
             pending := Some(Pending(FirstRetry(FAILED_AHEAD, At(150)), due)))
  }

  const AHEAD_RETRY: Retry := FirstRetry(FAILED_AHEAD, At(150))

  const AHEAD_WAITING: ThreadState := AheadPending(At(100)).(
    pending := None, lastAutoRetryAt := At(100),
    awaiting := Some(Awaiting(AHEAD_RETRY, "", Dispatching, At(100), At(110), 0, 0, 0)))

  const AHEAD_AGAIN: ThreadState := AheadPending(At(101)).(lastAutoRetryAt := At(100))

  const AHEAD_STOPPED: ThreadState := StopPending(AHEAD_AGAIN, At(300), SharedDisabled)

  const BUSY: Result := UserActive(NoReason, false)

  lemma AheadSteps()
    ensures OnEvent(EmptyThread, STARTED_A, At(100), ROOMY) == Some(RUNNING)
    ensures OnEvent(RUNNING, FAILED_AHEAD, At(100), ROOMY) == Some(AheadPending(At(101)))
    ensures SentByHand(AheadPending(At(101)), AheadPending(At(100)), AHEAD_WAITING, AHEAD_RETRY, BUSY, AHEAD_AGAIN,
                       At(100), ROOMY)
  {
  }

  lemma AheadReopens()
    ensures Reloaded(AHEAD_AGAIN, At(300), NO_SHARED) == AHEAD_AGAIN && DuePending(AHEAD_AGAIN, At(300))
    ensures CanReopen(AHEAD_STOPPED, At(300)) && AHEAD_STOPPED.stopped.value.reason.SharedDisabled?
    ensures AHEAD_STOPPED.stopped.value.fault.key == AHEAD_RETRY.fault.key
  {
  }

  lemma RetriedNow(base: World, w: World, now: Time, th: ThreadState, cfg: Config, newest: Time, after: ThreadState)
    requires Quiet(base, w, Controlling, now, th, cfg, newest) && OnCommand(th, RetryNow, now, cfg) == Some(after)
        && T in w.core.threads
    ensures var v := Apply(w, Control(Command(RetryNow, T)));
      Quiet(base, v, Controlling, now, after, cfg, newest) && v.core.controller == w.core.controller && v.log == w.log
  {
    Go(base, w, Control(Command(RetryNow, T)));
  }

  /** Between ticks, with one outstanding job. */
  ghost predicate InFlight(base: World, w: World, now: Time, th: ThreadState, cfg: Config, newest: Time, job: Job,
      running: bool) {
    && Reached(base, w) && w.phase.Idle? && w.now == now && w.failureBound == 3 && w.probes == map[]
    && w.tasks == [Task(job, running)] && w.core.active == map[T := job] && job.thread == T
    && w.core.threads.Keys == {T} && ThreadOf(w, T) == th
    && !w.core.paused && w.core.config == cfg && ValidConfig(cfg)
    && HandledUpTo(w.core.processed, newest)
  }

  lemma LaunchOne(c: Core, th: ThreadState, now: Time)
    requires c.threads.Keys <= {T} && Lookup(c.threads, T) == th && th.pending.Some? && c.active == map[]
    ensures var d := Launch(c, [T], now);
      && d.threads == map[T := Dispatched(th, now, c.config)]
          && d.active == map[T := RecoveryJob(T, th.pending.value.retry)]
      && d == c.(threads := d.threads, active := d.active)
  {
    assert c.threads.Keys == {T};
  }

  lemma OneTask(active: map<ThreadId, Job>)
    requires T in active
    ensures Launched(active, [] + [T]) == [Task(active[T], false)]
  {
    assert [] + [T] == [T] && [T][1..] == [];
    assert Launched(active, []) == [];
  }

  lemma SentTasks(w: World)
    ensures var v := Apply(w, DispatchDue([], [T]));
      v.tasks == w.tasks + Launched(v.core.active, [] + [T])
  {
  }

  lemma SentInFlight(base: World, w: World, now: Time, th: ThreadState, cfg: Config, newest: Time, after: ThreadState)
    requires Quiet(base, w, Probing, now, th, cfg, newest) && Candidate(th, false, now) && th.goalStop.None?
        && !TransportBlocked(w.core)
    requires Dispatched(th, now, cfg) == after
    ensures var v := Apply(w, DispatchDue([], [T]));
      && InFlight(base, v, now, after, cfg, newest, RecoveryJob(T, th.pending.value.retry), false)
      && Newest(v, th.pending.value.retry, now)
      && v.core.controller == w.core.controller
  {
    var v := Apply(w, DispatchDue([], [T]));
    Sent(base, w, now, th, cfg, newest);
    assert v.now == w.now && v.failureBound == w.failureBound && v.probes == w.probes by {
      OnlyChoice(w.core, now);
      SentCore(w);
    }
    LaunchOne(w.core, th, now);
    assert v.tasks == [Task(RecoveryJob(T, th.pending.value.retry), false)] by {
      SentTasks(w);
      OneTask(v.core.active);
    }
  }

  lemma Started(base: World, w: World, now: Time, th: ThreadState, cfg: Config, newest: Time, retry: Retry)
    requires InFlight(base, w, now, th, cfg, newest, RecoveryJob(T, retry), false) && RecoveryMayStart(th, retry)
    ensures var v := Apply(w, StartTask(0));
      InFlight(base, v, now, th, cfg, newest, RecoveryJob(T, retry), true) && v.log == w.log && v.core == w.core
  {
    Go(base, w, StartTask(0));
  }

  lemma Finished(base: World, w: World, now: Time, th: ThreadState, cfg: Config, newest: Time, retry: Retry,
      result: Result, after: ThreadState)
    requires InFlight(base, w, now, th, cfg, newest, RecoveryJob(T, retry), true) && RecoveryMayStart(th, retry)
    requires RecoveryFinished(th, result, now, cfg) == after
    ensures var v := Apply(w, FinishTask(0, result, now));
      && Quiet(base, v, Idle, now, after, cfg, newest) && v.log == w.log
          && v.core.controller == RecoveryController(w.core, result)
  {
    Go(base, w, FinishTask(0, result, now));
  }

  lemma NoSlotTaken(c: Core, now: Time)
    requires c.threads.Keys <= {T} && c.active == map[] && ValidConfig(c.config) && !c.paused && TransportBlocked(c)
    requires Lookup(c.threads, T).goalStop.None?
    ensures DispatchChoice(c, now, [], []) && Dispatch(c, now, [], []) == StopDue(c, now)
  {
    assert WithGoalJobs(c, []).active == c.active;
    assert GoalStopsDue(c, now) == {};
    assert Elements([]) == {};
  }

  lemma NoTask(active: map<ThreadId, Job>)
    ensures Launched(active, [] + []) == []
  {
  }

  lemma NothingSent(w: World)
    ensures var v := Apply(w, DispatchDue([], []));
      && v.core == Dispatch(w.core, w.now, [], []) && v.phase.Idle? && v.log == w.log && v.now == w.now
      && v.failureBound == w.failureBound && v.probes == w.probes
      && v.tasks == w.tasks + Launched(v.core.active, [] + [])
  {
  }

  /** Without a transport the due retry is stopped. */
  lemma StoppedUnsent(base: World, w: World, now: Time, th: ThreadState, cfg: Config, newest: Time)
    requires Quiet(base, w, Probing, now, th, cfg, newest) && th.goalStop.None? && TransportBlocked(w.core)
        && DuePending(th, now)
    ensures var v := Apply(w, DispatchDue([], []));
      && Quiet(base, v, Idle, now, StopPending(th, now, BlockedReason(w.core)), cfg, newest)
      && v.log == w.log && v.core.controller == w.core.controller
  {
    NoSlotTaken(w.core, now);
    Go(base, w, DispatchDue([], []));
    NoTask(w.core.active);
    StopDueOfThread(w.core, now, T);
    NothingSent(w);
  }

  /** The user makes a retry due, it is sent, and its job finishes with this result. */
  ghost predicate SentByHand(th: ThreadState, due: ThreadState, sent: ThreadState, retry: Retry, result: Result,
      after: ThreadState, now: Time, cfg: Config) {
    && th.pending.Some? && OnCommand(th, RetryNow, now, cfg) == Some(due)
    && Candidate(due, false, now) && due.goalStop.None? && due.pending.value.retry == retry
    && Dispatched(due, now, cfg) == sent && RecoveryMayStart(sent, retry)
    && RecoveryFinished(sent, result, now, cfg) == after
  }

  lemma RetriedInTick(base: World, w: World, now: Time, th: ThreadState, cfg: Config, newest: Time, due: ThreadState)
    returns (v: World)
    requires Quiet(base, w, Scanning, now, th, cfg, newest) && th.pending.Some? && th.awaiting.None?
    requires OnCommand(th, RetryNow, now, cfg) == Some(due)
    ensures Quiet(base, v, Probing, now, due, cfg, newest) && v.core.controller == w.core.controller && v.log == w.log
  {
    Scanned(base, w, now, th, cfg, newest);
    var w1 := Apply(w, EndScan(false));
    RetriedNow(base, w1, now, th, cfg, newest, due);
    var w2 := Apply(w1, Control(Command(RetryNow, T)));
    Expired(base, w2, now, due, cfg, newest);
    var w3 := Apply(w2, ExpireStarts);
    Probed(base, w3, now, due, cfg, newest);
    v := Apply(w3, BeginProbes(false));
  }

  /** The newest job of the log. */
  ghost predicate Newest(w: World, retry: Retry, at: Time) {
    w.log != [] && w.log[|w.log| - 1].thread == T && w.log[|w.log| - 1].retry == retry && w.log[|w.log| - 1].at == at
  }

  lemma SentInTick(base: World, w: World, now: Time, th: ThreadState, cfg: Config, newest: Time, due: ThreadState,
      sent: ThreadState, retry: Retry, result: Result, after: ThreadState)
    returns (v: World)
    requires Quiet(base, w, Scanning, now, th, cfg, newest) && !TransportBlocked(w.core) && th.awaiting.None?
    requires SentByHand(th, due, sent, retry, result, after, now, cfg)
    ensures Quiet(base, v, Idle, now, after, cfg, newest) && Newest(v, retry, now)
    ensures v.core.controller == RecoveryController(w.core, result)
  {
    var w1 := RetriedInTick(base, w, now, th, cfg, newest, due);
    SentInFlight(base, w1, now, due, cfg, newest, sent);
    var w2 := Apply(w1, DispatchDue([], [T]));
    Started(base, w2, now, sent, cfg, newest, retry);
    var w3 := Apply(w2, StartTask(0));
    Finished(base, w3, now, sent, cfg, newest, retry, result, after);
    v := Apply(w3, FinishTask(0, result, now));
  }

  /** A failure dated after its own dispatch: user activity puts the retry back, and it is waiting again. */
  lemma SentAndWaitingAgain() returns (w: World)
    ensures Quiet(FRESH, w, Idle, At(100), AHEAD_AGAIN, ROOMY, At(200)) && w.core.controller == Ready
    ensures Newest(w, AHEAD_RETRY, At(100))
  {
    AheadSteps();
    var w3 := TwoEvents(STARTED_A, RUNNING, FAILED_AHEAD, AheadPending(At(101)));
    w := SentInTick(FRESH, w3, At(100), AheadPending(At(101)), ROOMY, At(200), AheadPending(At(100)), AHEAD_WAITING,
                    AHEAD_RETRY, BUSY, AHEAD_AGAIN);
  }

  /** The tick without a transport. */
  lemma StoppedLater(base: World, w: World) returns (v: World)
    requires Quiet(base, w, Idle, At(100), AHEAD_AGAIN, ROOMY, At(200)) && w.core.controller == Ready
    ensures Reached(base, v) && ThreadOf(v, T) == AHEAD_STOPPED && v.log == w.log
  {
    AheadReopens();
    Begun(base, w, At(100), AHEAD_AGAIN, ROOMY, At(200), At(300), Some(NO_SHARED));
    var w1 := Apply(w, TickStart(At(300), Some(NO_SHARED), At(300)));
    ReadyToDispatch(base, w1, At(300), AHEAD_AGAIN, NO_SHARED, At(200));
    var w2 := ToDispatch(w1);
    StoppedUnsent(base, w2, At(300), AHEAD_AGAIN, NO_SHARED, At(200));
    v := Apply(w2, DispatchDue([], []));
  }

  /** A failure dated after its own dispatch may look unsent: transport reopening would send it again. */
  lemma DatedAheadResends() returns (steps: seq<Step>, e: Entry)
    ensures IsRun(FRESH, ROOMY, 3, steps) && e in Run(FRESH, steps).log && e.thread == T
    ensures e.at < e.retry.fault.key.at
    ensures var th := ThreadOf(Run(FRESH, steps), T);
      CanReopen(th, At(300)) && th.stopped.value.reason.SharedDisabled?
          && th.stopped.value.fault.key == e.retry.fault.key
  {
    var w := SentAndWaitingAgain();
    AheadReopens();
    var v := StoppedLater(FRESH, w);
    e := w.log[|w.log| - 1];
    steps :| ValidRun(FRESH, steps) && Run(FRESH, steps) == v;
    Start(FRESH);
  }

  // ---- a failure that a held goal skips ----

  const PAUSED: Item := ItemOf(GoalUpdated(At(10), Paused, At(10)))
  const STARTED_HELD: Item := ItemOf(TaskStarted("a", At(20)))
  const FAILED_HELD: Item := ItemOf(TaskComplete("a", At(30), EMPTY_ANSWER))
  const FAILED_OLD: Item := ItemOf(TaskComplete("old", At(1500), EMPTY_ANSWER))
  const RESUMED: Item := ItemOf(GoalUpdated(At(1550), Active, At(1550)))

  const HELD: ThreadState := EmptyThread.(goalStatus := Paused, goalUpdatedAt := At(10), goalObservedAt := At(10),
      goalHeld := true)

  const HELD_RUNNING: ThreadState := HELD.(
    lastStartedTurn := "a", lastStartedAt := At(20), lastExternalTurn := "a", lastExternalAt := At(20))

  const HELD_RETRY: Retry := FirstRetry(FAILED_HELD, At(20))

  function HeldPending(due: Time): ThreadState {
    HELD_RUNNING.(recoveryAttempts := 1, consecutiveRetries := 1, recoveryStartedAt := At(100), lastFailureAt := At(30),
                  pending := Some(Pending(HELD_RETRY, due)))
  }

  const HELD_STOPPED: ThreadState := StopPending(HeldPending(At(100)), At(100), SharedDisabled)
  const CLOCK_RESTARTED: ThreadState := HELD_STOPPED.(recoveryStartedAt := At(1600), lastFailureAt := At(1500))

  const HOLD_LIFTED: ThreadState := CLOCK_RESTARTED.(
    goalStatus := Active, goalUpdatedAt := At(1550), goalObservedAt := At(1550), goalHeld := false)

  function RevivedPending(due: Time): ThreadState {
    HOLD_LIFTED.(recoveryAttempts := 1, consecutiveRetries := 1, stopped := None,
        pending := Some(Pending(HELD_RETRY, due)))
  }

  const REVIVED_WAITING: ThreadState := RevivedPending(At(1600)).(
    pending := None, lastAutoRetryAt := At(1600),
    awaiting := Some(Awaiting(HELD_RETRY, "", Dispatching, At(1600), At(1610), 0, 0, 0)))

  const REVIVED_AGAIN: ThreadState := RevivedPending(At(1601)).(lastAutoRetryAt := At(1600))

  lemma HeldSteps()
    ensures OnEvent(EmptyThread, PAUSED, At(100), NO_SHARED) == Some(HELD)
    ensures OnEvent(HELD, STARTED_HELD, At(100), NO_SHARED) == Some(HELD_RUNNING)
    ensures OnEvent(HELD_RUNNING, FAILED_HELD, At(100), NO_SHARED) == Some(HeldPending(At(101)))
    ensures OnCommand(HeldPending(At(101)), RetryNow, At(100), NO_SHARED) == Some(HeldPending(At(100)))
    ensures DuePending(HeldPending(At(100)), At(100)) && !Unacknowledged(HeldPending(At(100)), At(100))
  {
  }

  lemma SkippedSteps()
    ensures Reloaded(HELD_STOPPED, At(1600), ROOMY) == HELD_STOPPED
    ensures OnEvent(HELD_STOPPED, FAILED_OLD, At(1600), ROOMY) == Some(CLOCK_RESTARTED)
    ensures OnEvent(CLOCK_RESTARTED, RESUMED, At(1600), ROOMY) == Some(HOLD_LIFTED)
  {
  }

  lemma RevivedSteps()
    ensures Reopenable(HOLD_LIFTED, At(1600), ROOMY) && Reopened(HOLD_LIFTED, At(1600), ROOMY)
        == RevivedPending(At(1600))
    ensures Candidate(RevivedPending(At(1600)), false, At(1600))
    ensures Dispatched(RevivedPending(At(1600)), At(1600), ROOMY) == REVIVED_WAITING
    ensures RecoveryMayStart(REVIVED_WAITING, HELD_RETRY)
    ensures RecoveryFinished(REVIVED_WAITING, BUSY, At(1600), ROOMY) == REVIVED_AGAIN
  {
  }

  lemma RevivedAgain()
    ensures Candidate(REVIVED_AGAIN, false, At(3300)) && !Unacknowledged(REVIVED_AGAIN, At(3300))
    ensures REVIVED_AGAIN.goalStop.None? && REVIVED_AGAIN.pending.value.retry == HELD_RETRY
  {
  }

  lemma ReopenedInScan(base: World, w: World, now: Time, th: ThreadState, cfg: Config, newest: Time, after: ThreadState)
    requires Quiet(base, w, Scanning, now, th, cfg, newest) && T in w.core.threads
    requires Reopenable(th, now, cfg) && Reopened(th, now, cfg) == after
    ensures var v := Apply(w, EndScan(true));
      Quiet(base, v, Controlling, now, after, cfg, newest) && v.log == w.log && v.core.controller == w.core.controller
  {
    Go(base, w, EndScan(true));
  }

  /** A retry of a later turn under a pause, before it is due. */
  lemma PendingUnderPause() returns (w: World)
    ensures Quiet(FRESH, w, Scanning, At(100), HeldPending(At(101)), NO_SHARED, At(30)) && T in w.core.threads
    ensures w.core.controller == Failing(SharedDisabled)
  {
    Start(FRESH);
    HeldSteps();
    Begun(FRESH, FRESH, 1, EmptyThread, ROOMY, 0, At(100), Some(NO_SHARED));
    var w1 := Apply(FRESH, TickStart(At(100), Some(NO_SHARED), At(100)));
    Observed(FRESH, w1, At(100), EmptyThread, NO_SHARED, 0, PAUSED, HELD);
    var w2 := Apply(w1, Observe(PAUSED));
    Observed(FRESH, w2, At(100), HELD, NO_SHARED, At(10), STARTED_HELD, HELD_RUNNING);
    var w3 := Apply(w2, Observe(STARTED_HELD));
    Observed(FRESH, w3, At(100), HELD_RUNNING, NO_SHARED, Stamp(STARTED_HELD), FAILED_HELD, HeldPending(At(101)));
    w := Apply(w3, Observe(FAILED_HELD));
  }

  /** It is stopped for want of a transport. */
  lemma StoppedUnderPause(base: World, w: World) returns (v: World)
    requires Quiet(base, w, Scanning, At(100), HeldPending(At(101)), NO_SHARED, At(30)) && T in w.core.threads
    requires w.core.controller == Failing(SharedDisabled)
    ensures Quiet(base, v, Idle, At(100), HELD_STOPPED, NO_SHARED, At(30))
        && v.core.controller == Failing(SharedDisabled)
  {
    HeldSteps();
    var w1 := RetriedInTick(base, w, At(100), HeldPending(At(101)), NO_SHARED, At(30), HeldPending(At(100)));
    StoppedUnsent(base, w1, At(100), HeldPending(At(100)), NO_SHARED, At(30));
    v := Apply(w1, DispatchDue([], []));
  }

  /** A late failure of another turn is skipped, the goal becomes active and the retry is reopened. */
  lemma RevivedLate(base: World, w: World) returns (v: World)
    requires Quiet(base, w, Idle, At(100), HELD_STOPPED, NO_SHARED, At(30))
        && w.core.controller == Failing(SharedDisabled)
    ensures Quiet(base, v, Probing, At(1600), RevivedPending(At(1600)), ROOMY, At(1550))
        && v.core.controller == Starting
  {
    SkippedSteps();
    RevivedSteps();
    Begun(base, w, At(100), HELD_STOPPED, NO_SHARED, At(30), At(1600), Some(ROOMY));
    var w1 := Apply(w, TickStart(At(1600), Some(ROOMY), At(1600)));
    Observed(base, w1, At(1600), HELD_STOPPED, ROOMY, At(30), FAILED_OLD, CLOCK_RESTARTED);
    var w2 := Apply(w1, Observe(FAILED_OLD));
    Observed(base, w2, At(1600), CLOCK_RESTARTED, ROOMY, At(1500), RESUMED, HOLD_LIFTED);
    var w3 := Apply(w2, Observe(RESUMED));
    ReopenedInScan(base, w3, At(1600), HOLD_LIFTED, ROOMY, At(1550), RevivedPending(At(1600)));
    var w4 := Apply(w3, EndScan(true));
    Expired(base, w4, At(1600), RevivedPending(At(1600)), ROOMY, At(1550));
    var w5 := Apply(w4, ExpireStarts);
    Probed(base, w5, At(1600), RevivedPending(At(1600)), ROOMY, At(1550));
    v := Apply(w5, BeginProbes(false));
  }

  /** It is sent and put back by user activity. */
  lemma SentAndBack(base: World, w: World) returns (v: World)
    requires Quiet(base, w, Probing, At(1600), RevivedPending(At(1600)), ROOMY, At(1550))
        && w.core.controller == Starting
    ensures Quiet(base, v, Idle, At(1600), REVIVED_AGAIN, ROOMY, At(1550)) && v.core.controller == Ready
  {
    RevivedSteps();
    SentInFlight(base, w, At(1600), RevivedPending(At(1600)), ROOMY, At(1550), REVIVED_WAITING);
    var w1 := Apply(w, DispatchDue([], [T]));
    Started(base, w1, At(1600), REVIVED_WAITING, ROOMY, At(1550), HELD_RETRY);
    var w2 := Apply(w1, StartTask(0));
    Finished(base, w2, At(1600), REVIVED_WAITING, ROOMY, At(1550), HELD_RETRY, BUSY, REVIVED_AGAIN);
    v := Apply(w2, FinishTask(0, BUSY, At(1600)));
  }

  lemma ReadyLate(base: World, w: World) returns (v: World)
    requires Quiet(base, w, Idle, At(1600), REVIVED_AGAIN, ROOMY, At(1550)) && w.core.controller == Ready
    ensures Quiet(base, v, Probing, At(3300), REVIVED_AGAIN, ROOMY, At(1550)) && v.core.controller == Ready
  {
    RevivedAgain();
    Begun(base, w, At(1600), REVIVED_AGAIN, ROOMY, At(1550), At(3300), None);
    var w1 := Apply(w, TickStart(At(3300), None, At(3300)));
    ReadyToDispatch(base, w1, At(3300), REVIVED_AGAIN, ROOMY, At(1550));
    v := ToDispatch(w1);
  }

  /** It is sent again. */
  lemma SentLate(base: World, w: World) returns (v: World, e: Entry)
    requires Quiet(base, w, Idle, At(1600), REVIVED_AGAIN, ROOMY, At(1550)) && w.core.controller == Ready
    ensures Reached(base, v) && e in v.log && e.thread == T && e.retry == HELD_RETRY && e.at == At(3300)
  {
    RevivedAgain();
    var w2 := ReadyLate(base, w);
    Sent(base, w2, At(3300), REVIVED_AGAIN, ROOMY, At(1550));
    v := Apply(w2, DispatchDue([], [T]));
    e := Entry(T, HELD_RETRY, At(3300), ROOMY, w2.reloaded, REVIVED_AGAIN, TraceOf(w2, T));
    assert v.log[|w2.log|] == e;
  }

  /** A failed completion that a held goal skips while a stop rests restarts the clock: the chain that began at 100 s
      is reopened with the same failure and sent at 3300 s, far more than thirty minutes after it began. */
  lemma SkippedFailureMovesDeadline() returns (before: seq<Step>, steps: seq<Step>, e: Entry)
    ensures IsRun(FRESH, ROOMY, 3, before) && ValidRun(Run(FRESH, before), steps)
    ensures var th := ThreadOf(Run(FRESH, before), T);
      th.pending.Some? && th.pending.value.retry == e.retry && e.at - th.recoveryStartedAt > MAX_RECOVERY_DURATION
    ensures e in Run(Run(FRESH, before), steps).log && e.thread == T
  {
    var w := PendingUnderPause();
    Start(w);
    var w1 := StoppedUnderPause(w, w);
    var w2 := RevivedLate(w, w1);
    var w3 := SentAndBack(w, w2);
    var v;
    v, e := SentLate(w, w3);
    steps :| ValidRun(w, steps) && Run(w, steps) == v;
    before :| ValidRun(FRESH, before) && Run(FRESH, before) == w;
  }

  // ---- what lifts a hold besides an activation ----

  const BLOCKED_BEFORE: Item := ItemOf(GoalUpdated(At(29), Blocked, At(28)))
  const BLOCKED_AFTER: Item := ItemOf(GoalUpdated(At(33), Blocked, At(32)))
  const HELD_BLOCKED: ThreadState := EmptyThread.(goalStatus := Blocked, goalUpdatedAt := At(28),
      goalObservedAt := At(29), goalHeld := true)

  const HELD_FAILED: ThreadState := HELD.(recoveryStartedAt := At(100), lastFailureAt := At(30))

  lemma HeldThreads()
    ensures OnEvent(EmptyThread, BLOCKED_BEFORE, At(100), ROOMY) == Some(HELD_BLOCKED)
    ensures OnEvent(EmptyThread, PAUSED, At(100), ROOMY) == Some(HELD)
    ensures OnEvent(HELD, FAILED_HELD, At(100), ROOMY) == Some(HELD_FAILED)
    ensures var after := OnEvent(HELD_BLOCKED, FAILED_HELD, At(100), ROOMY);
      after.Some? && !after.value.goalHeld && after.value.goalStatus.Blocked?
    ensures var after := OnEvent(HELD_FAILED, BLOCKED_AFTER, At(100), ROOMY);
      after.Some? && !after.value.goalHeld && after.value.goalStatus.Blocked?
  {
  }

  /** The hold of a reached world ends with this step, and the goal is not active after it. */
  ghost predicate LiftsWithoutActivation(w: World, step: Step) {
    && Reached(FRESH, w) && Enabled(w, step)
    && ThreadOf(w, T).goalHeld && !ThreadOf(Apply(w, step), T).goalHeld
        && !ThreadOf(Apply(w, step), T).goalStatus.Active?
  }

  lemma EventLifts(w: World, now: Time, th: ThreadState, cfg: Config, newest: Time, item: Item)
    requires Quiet(FRESH, w, Scanning, now, th, cfg, newest) && item.thread == T && newest < Stamp(item)
        && th.goalHeld
    requires OnEvent(th, item, now, cfg).Some?
    requires var after := OnEvent(th, item, now, cfg).value; !after.goalHeld && !after.goalStatus.Active?
    ensures LiftsWithoutActivation(w, Observe(item))
  {
    Observed(FRESH, w, now, th, cfg, newest, item, OnEvent(th, item, now, cfg).value);
  }

  lemma RestartLifts(w: World, now: Time, th: ThreadState, cfg: Config, newest: Time)
    requires Quiet(FRESH, w, Controlling, now, th, cfg, newest) && T in w.core.threads
    requires th.goalHeld && th.stopped.Some? && !th.goalStatus.Active?
    ensures LiftsWithoutActivation(w, Control(Command(RestartRetry, T)))
  {
  }

  /** A failure that an earlier goal block is attributed to. */
  lemma FailureLiftsBlock() returns (w: World)
    ensures LiftsWithoutActivation(w, Observe(FAILED_HELD))
  {
    var w1 := FirstScan();
    HeldThreads();
    Observed(FRESH, w1, At(100), EmptyThread, ROOMY, 0, BLOCKED_BEFORE, HELD_BLOCKED);
    w := Apply(w1, Observe(BLOCKED_BEFORE));
    EventLifts(w, At(100), HELD_BLOCKED, ROOMY, At(29), FAILED_HELD);
  }

  /** A goal block that follows the last failure closely replaces a pause. */
  lemma BlockLiftsPause() returns (w: World)
    ensures LiftsWithoutActivation(w, Observe(BLOCKED_AFTER))
  {
    HeldThreads();
    w := TwoEvents(PAUSED, HELD, FAILED_HELD, HELD_FAILED);
    EventLifts(w, At(100), HELD_FAILED, ROOMY, At(30), BLOCKED_AFTER);
  }

  /** A user restart of a stop under a pause. */
  lemma RestartLiftsPause() returns (w: World)
    ensures LiftsWithoutActivation(w, Control(Command(RestartRetry, T)))
  {
    var w1 := PendingUnderPause();
    var w2 := StoppedUnderPause(FRESH, w1);
    Begun(FRESH, w2, At(100), HELD_STOPPED, NO_SHARED, At(30), At(102), None);
    var w3 := Apply(w2, TickStart(At(102), None, At(102)));
    Scanned(FRESH, w3, At(102), HELD_STOPPED, NO_SHARED, At(30));
    w := Apply(w3, EndScan(false));
    RestartLifts(w, At(102), HELD_STOPPED, NO_SHARED, At(30));
  }
}
