/** The daemon's state and what each of its operations does to it. */
module Core {
  import opened Types
  import opened Policy
  import opened ThreadSteps

  type Threads = map<ThreadId, ThreadState>

  datatype Core = Core(
    threads: Threads, active: map<ThreadId, Job>, config: Config, controller: Controller, paused: bool,
    processed: map<EventKey, Time>)

  /** A Go map lookup: the zero value for an unknown thread. */
  function Lookup(threads: Threads, t: ThreadId): ThreadState {
    if t in threads then threads[t] else EmptyThread
  }

  function Store(threads: Threads, t: ThreadId, written: Option<ThreadState>): Threads {
    match written
    case None => threads
    case Some(th) => threads[t := th]
  }

  function HandleEvent(c: Core, item: Item, now: Time): Core {
    if KeyOf(item) in c.processed then c
    else c.(processed := c.processed[KeyOf(item) := now],
            threads := Store(c.threads, item.thread, OnEvent(Lookup(c.threads, item.thread), item, now, c.config)))
  }

  function ApplyCommand(c: Core, command: Command, now: Time): Core {
    if command.thread !in c.threads then c
    else c.(threads := Store(c.threads, command.thread,
        OnCommand(c.threads[command.thread], command.kind, now, c.config)))
  }

  function ReloadedController(controller: Controller, sharedEnabled: bool): Controller {
    if !sharedEnabled then if controller.Ready? || controller.Starting? then Failing(SharedDisabled) else controller
    else if controller == Failing(SharedDisabled) then Starting
    else controller
  }

  function ReloadThreads(threads: Threads, cfg: Config, wall: Time): Threads {
    map t | t in threads :: Reloaded(threads[t], wall, cfg)
  }

  function Reload(c: Core, cfg: Config, wall: Time): Core {
    c.(config := cfg, controller := ReloadedController(c.controller, cfg.sharedEnabled),
       threads := ReloadThreads(c.threads, cfg, wall))
  }

  function StartThreads(threads: Threads, now: Time): Threads {
    map t | t in threads :: RestoredAtStartup(threads[t], now)
  }

  function LoadThreads(threads: Threads): Threads {
    map t | t in threads :: Loaded(threads[t])
  }

  function ReopenThread(th: ThreadState, active: bool, now: Time, cfg: Config): ThreadState {
    if Reopenable(th, now, cfg) && !active then Reopened(th, now, cfg) else th
  }

  function Reopen(c: Core, now: Time): Core {
    if c.paused then c
    else c.(threads := map t | t in c.threads :: ReopenThread(c.threads[t], t in c.active, now, c.config))
  }

  function ExpireThread(th: ThreadState, active: bool, now: Time, cfg: Config): ThreadState {
    if Unacknowledged(th, now) && !active then RescheduleAwaiting(th, now, StartNotAcknowledged, true, cfg) else th
  }

  function Expire(c: Core, now: Time): Core {
    c.(threads := map t | t in c.threads :: ExpireThread(c.threads[t], t in c.active, now, c.config))
  }

  datatype Probe = Probe(key: EventKey, turn: TurnId)

  function ProbesDue(c: Core, now: Time): map<ThreadId, Probe> {
    map t | t in c.threads && ProbeDue(c.threads[t], now, c.config) ::
      Probe(c.threads[t].awaiting.value.retry.fault.key, c.threads[t].awaiting.value.retryTurn)
  }

  function StartProbes(c: Core, now: Time): Core {
    c.(threads := map t | t in c.threads ::
         if ProbeDue(c.threads[t], now, c.config) then ProbeStarted(c.threads[t], now) else c.threads[t])
  }

  predicate ProbeCurrent(th: ThreadState, p: Probe) {
    th.awaiting.Some? && th.awaiting.value.retry.fault.key == p.key && th.awaiting.value.retryTurn == p.turn
  }

  function SuccessController(c: Core): Controller {
    if c.config.sharedEnabled && !c.controller.OfficialIpcReady? then Ready else c.controller
  }

  function AnswerProbe(c: Core, t: ThreadId, p: Probe, answer: Answer, now: Time): Core {
    if t !in c.threads || !ProbeCurrent(c.threads[t], p) then c
    else c.(threads := c.threads[t := Answered(c.threads[t], answer, now, c.config)],
            controller := if answer.ProbeFailed? then Failing(answer.reason) else SuccessController(c))
  }

  // ---- dispatch ----

  predicate GoalStopDue(c: Core, t: ThreadId, now: Time) {
    t in c.threads && c.threads[t].goalStop.Some? && c.threads[t].goalStop.value.dueAt <= now && t !in c.active
  }

  function GoalStopsDue(c: Core, now: Time): set<ThreadId> {
    set t | t in c.threads && GoalStopDue(c, t, now)
  }

  function GoalDueAt(c: Core, t: ThreadId): Time {
    if t in c.threads && c.threads[t].goalStop.Some? then c.threads[t].goalStop.value.dueAt else 0
  }

  function PendingDueAt(c: Core, t: ThreadId): Time {
    if t in c.threads && c.threads[t].pending.Some? then c.threads[t].pending.value.dueAt else 0
  }

  function GoalJob(t: ThreadId, th: ThreadState): Job
    requires th.goalStop.Some?
  {
    var g := th.goalStop.value;
    if th.stopped.Some? then
      var s := th.stopped.value;
      GoalBlockJob(t, g.key, g.dispatchFailures, s.fault.kind, s.attempts, s.fault.codexHome, s.fault.rolloutPath)
    else GoalBlockJob(t, g.key, g.dispatchFailures, NoFailure, 0, "", "")
  }

  predicate NoRepeats(ts: seq<ThreadId>) {
    forall i, j :: 0 <= i < j < |ts| ==> ts[i] != ts[j]
  }

  function Elements(ts: seq<ThreadId>): set<ThreadId> {
    set t | t in ts
  }

  /** `taken` are `min(room, |due|)` of the due threads, in the order of their due times, none later than one left out.
      */
  ghost predicate EarliestFirst(taken: seq<ThreadId>, due: set<ThreadId>, room: int, dueAt: ThreadId -> Time) {
    && NoRepeats(taken) && Elements(taken) <= due
    && |taken| == Min(room, |due|)
    && (forall i, j :: 0 <= i < j < |taken| ==> dueAt(taken[i]) <= dueAt(taken[j]))
    && (forall t, u :: t in taken && u in due && u !in taken ==> dueAt(t) <= dueAt(u))
  }

  function Room(c: Core): int { c.config.maxParallelRetries - |c.active| }

  function WithGoalJobs(c: Core, goals: seq<ThreadId>): Core {
    c.(active := c.active + map t | t in goals && t in c.threads && c.threads[t].goalStop.Some? ::
        GoalJob(t, c.threads[t]))
  }

  /** No verified recovery transport is available. */
  predicate TransportBlocked(c: Core) {
    && !c.controller.OfficialIpcReady?
    && (!c.config.sharedEnabled || c.controller == Failing(SharedDisabled) || c.controller == Failing(ConfigInvalid))
  }

  function BlockedReason(c: Core): Reason {
    if c.controller.Failing? && (NeedsFailOpen(c.controller.reason) || c.controller.reason.CodexNotRunning?)
    then c.controller.reason else SharedDisabled
  }

  function StopDue(c: Core, now: Time): Core {
    c.(threads := map t | t in c.threads ::
         if DuePending(c.threads[t], now) then StopPending(c.threads[t], now, BlockedReason(c)) else c.threads[t])
  }

  function Candidates(c: Core, now: Time): set<ThreadId> {
    set t | t in c.threads && Candidate(c.threads[t], t in c.active, now)
  }

  function LaunchThread(th: ThreadState, active: bool, picked: bool, now: Time, cfg: Config): ThreadState {
    if picked && th.pending.Some? then Dispatched(th, now, cfg) else Swept(th, active, now)
  }

  function Launch(c: Core, picks: seq<ThreadId>, now: Time): Core {
    c.(threads := map t | t in c.threads :: LaunchThread(c.threads[t], t in c.active, t in picks, now, c.config),
       active := c.active + map t | t in picks && t in c.threads && c.threads[t].pending.Some? ::
                   RecoveryJob(t, c.threads[t].pending.value.retry))
  }

  /** Which branch of `dispatchDueLocked` runs once the goal-block jobs have taken their slots. */
  datatype DispatchMode = Full | Resting | NoTransport | Sending

  function ModeAfterGoals(c: Core, goals: seq<ThreadId>): DispatchMode {
    if Room(c) <= 0 || Room(c) == |goals| then Full
    else if c.paused then Resting
    else if TransportBlocked(c) then NoTransport
    else Sending
  }

  ghost predicate DispatchChoice(c: Core, now: Time, goals: seq<ThreadId>, picks: seq<ThreadId>) {
    if Room(c) <= 0 then goals == [] && picks == []
    else
      && EarliestFirst(goals, GoalStopsDue(c, now), Room(c), t => GoalDueAt(c, t))
      && (if ModeAfterGoals(c, goals).Sending? then
            var d := WithGoalJobs(c, goals);
            EarliestFirst(picks, Candidates(d, now), Room(c) - |goals|, t => PendingDueAt(d, t))
          else picks == [])
  }

  /** `dispatchDueLocked`, given which threads got the free slots. */
  function Dispatch(c: Core, now: Time, goals: seq<ThreadId>, picks: seq<ThreadId>): Core {
    var d := WithGoalJobs(c, goals);
    match ModeAfterGoals(c, goals)
    case Full => d
    case Resting => d
    case NoTransport => StopDue(d, now)
    case Sending => Launch(d, picks, now)
  }

  // ---- jobs ----

  predicate MayStart(c: Core, job: Job) {
    match job
    case RecoveryJob(t, retry) => RecoveryMayStart(Lookup(c.threads, t), retry)
    case GoalBlockJob(t, key, _, _, _, _, _) => GoalBlockCurrent(Lookup(c.threads, t), key)
  }

  predicate StillCurrent(c: Core, job: Job) {
    match job
    case RecoveryJob(t, retry) => RecoveryCurrent(Lookup(c.threads, t), retry)
    case GoalBlockJob(t, key, _, _, _, _, _) => GoalBlockCurrent(Lookup(c.threads, t), key)
  }

  /** A job that finds its entry gone or held ends at once. */
  function StartJob(c: Core, job: Job): Core {
    if MayStart(c, job) then c else c.(active := c.active - {job.thread})
  }

  function RecoveryController(c: Core, result: Result): Controller {
    match result
    case Error(_) => Failing(FailureReason(result))
    case RetryLater(_, _) => Failing(FailureReason(result))
    case UserActive(_, _) => SuccessController(c)
    case NotApplicable(_, _) => SuccessController(c)
    case Accepted(action, reason, _) =>
      if !action.GoalActive? && (reason.IpcTurnStarted? || reason.IpcGoalTurnStarted?) then OfficialIpcReady
      else SuccessController(c)
  }

  function GoalBlockController(c: Core, result: Result): Controller {
    match result
    case Accepted(action, _, _) => if action.GoalBlock? then Ready else c.controller
    case NotApplicable(_, _) => c.controller
    case _ => Failing(FailureReason(result))
  }

  function FinishJob(c: Core, job: Job, result: Result, at: Time): Core {
    var d := c.(active := c.active - {job.thread});
    if !StillCurrent(c, job) then d
    else
      var th := Lookup(c.threads, job.thread);
      match job
      case RecoveryJob(t, _) =>
        d.(threads := d.threads[t := RecoveryFinished(th, result, at, c.config)],
            controller := RecoveryController(c, result))
      case GoalBlockJob(t, _, _, _, _, _, _) =>
        d.(threads := d.threads[t := GoalBlockFinished(th, result, at, c.config)],
            controller := GoalBlockController(c, result))
  }
}
