/** Runs of the watchdog: ticks, events, commands, probes, jobs and restarts as steps of one transition
    system. Monitors record, from the outside, what the steps did; nothing in the watchdog reads them. */
module World {
  import opened Types
  import opened Policy
  import opened ThreadSteps
  import opened Core

  /** The stages of a tick. Jobs start and finish only while the mutex is free: in `Idle`, `Waiting`, `Probing`. */
  datatype Phase = Idle | Scanning | Controlling | Waiting | Probing

  datatype Task = Task(job: Job, running: bool)

  /** One answer of a lifecycle probe about an acknowledged turn. */
  datatype Seen = Seen(key: EventKey, turn: TurnId, at: Time, active: bool)

  /** A handled task_started event that a retry took as its own, and the thread it found. */
  datatype Ack = Ack(turn: TurnId, at: Time, before: ThreadState)

  /** What was observed about one thread. */
  datatype Trace = Trace(
    restarted: set<EventKey>,        // failures that the user restarted from a goal-limit stop
    ack: Option<Ack>,                // the newest start that a retry took as its own
    external: set<(TurnId, Time)>,   // starts that did not become the turn of the current retry
    firstTurn: TurnId,               // the turn whose failure began the current chain
    turnProgress: bool,              // progress was reported since the current retry got its turn
    chainProgress: bool,             // progress was reported since the current chain began
    answers: seq<Seen>,              // probe answers
    goalRuns: nat)                   // finished goal-block runs for the current request

  const NewTrace: Trace := Trace({}, None, {}, "", false, false, [], 0)

  /** A dispatched recovery job with its circumstances. */
  datatype Entry = Entry(
    thread: ThreadId, retry: Retry, at: Time, config: Config, reloaded: bool, before: ThreadState, trace: Trace)

  datatype World = World(
    core: Core, tasks: seq<Task>, phase: Phase, now: Time, reloaded: bool, probes: map<ThreadId, Probe>,
    traces: map<ThreadId, Trace>, log: seq<Entry>, failureBound: int)

  datatype Step =
    | ControllerChange(controller: Controller, failOpen: bool)
    | SharedReload(config: Config, wall: Time)
    | TickStart(at: Time, reload: Option<Config>, wall: Time)
    | Observe(item: Item)
    | EndScan(reopen: bool)
    | SetPaused(paused: bool)
    | Control(command: Command)
    | ExpireStarts
    | BeginProbes(supported: bool)
    | TakeAnswer(thread: ThreadId, answer: Answer)
    | DispatchDue(goals: seq<ThreadId>, picks: seq<ThreadId>)
    | Prune(threads: set<ThreadId>, keys: set<EventKey>)
    | StartTask(index: nat)
    | FinishTask(index: nat, result: Result, at: Time)
    | Restart(at: Time, config: Config, paused: bool)

  function ThreadOf(w: World, t: ThreadId): ThreadState { Lookup(w.core.threads, t) }

  function TraceOf(w: World, t: ThreadId): Trace {
    if t in w.traces then w.traces[t] else NewTrace
  }

  predicate Live(th: ThreadState) { th.pending.Some? || th.awaiting.Some? }

  /** The retry of a live thread. */
  function LiveRetry(th: ThreadState): Option<Retry> {
    if th.awaiting.Some? then Some(th.awaiting.value.retry)
    else if th.pending.Some? then Some(th.pending.value.retry)
    else None
  }

  predicate OverBudget(s: Stopped) {
    s.attempts + 1 > s.maxAttempts || s.consecutive + 1 > s.maxConsecutive
  }

  predicate HasTurn(th: ThreadState) { th.awaiting.Some? && th.awaiting.value.retryTurn != "" }

  // ---- monitors ----

  /** The failure a thread is about, if any. */
  function Record(th: ThreadState): Option<Fault> {
    if th.stopped.Some? then Some(th.stopped.value.fault)
    else if LiveRetry(th).Some? then Some(LiveRetry(th).value.fault)
    else None
  }

  /** A chain begins with a new failure of a thread without a retry. */
  predicate Begins(before: ThreadState, after: ThreadState) {
    !Live(before) && Record(after).Some? && Record(after) != Record(before)
  }

  /** A chain that begins is remembered with its turn and resets its progress flag. */
  function Noted(tr: Trace, before: ThreadState, after: ThreadState): Trace {
    tr.(firstTurn := if Begins(before, after) then Record(after).value.failedTurn else tr.firstTurn,
        chainProgress := if !Live(before) && Live(after) && after.recoveryAttempts == 1 then false
            else tr.chainProgress,
        goalRuns := if after.goalStop.None? then 0 else tr.goalRuns)
  }

  /** What the handling of an event adds to the trace. */
  function Seeing(tr: Trace, e: Event, now: Time, before: ThreadState, after: ThreadState): Trace {
    tr.(
      ack := if e.TaskStarted? && Acknowledges(before, e.turn, e.at) then Some(Ack(e.turn, e.at, before)) else tr.ack,
      external := if e.TaskStarted? && !(after.awaiting.Some? && after.awaiting.value.retryTurn == e.turn)
                  then tr.external + {(e.turn, e.at)} else tr.external,
      turnProgress := e.TaskProgress? || (tr.turnProgress && !(HasTurn(after) && !HasTurn(before))),
      chainProgress := tr.chainProgress || e.TaskProgress?)
  }

  function EventTrace(tr: Trace, e: Event, now: Time, before: ThreadState, after: ThreadState): Trace {
    Noted(Seeing(tr, e, now, before, after), before, after)
  }

  /** `Noted` for every thread. */
  function NotedAll(w: World, after: Threads): map<ThreadId, Trace> {
    map t | t in w.traces.Keys + w.core.threads.Keys + after.Keys ::
      Noted(TraceOf(w, t), ThreadOf(w, t), Lookup(after, t))
  }

  function WithThreads(w: World, c: Core): World {
    w.(core := c, traces := NotedAll(w, c.threads))
  }

  // ---- steps ----

  ghost predicate Init(w: World, cfg: Config, bound: int) {
    && ValidConfig(cfg) && cfg.controllerFailureLimit <= bound
    && w.core == Core(map[], map[], cfg, Starting, false, map[])
    && w.tasks == [] && w.phase.Idle? && w.now > 0 && !w.reloaded && w.probes == map[]
    && w.traces == map[] && w.log == [] && w.failureBound == bound
  }

  predicate MutexFree(w: World) { w.phase.Idle? || w.phase.Waiting? || w.phase.Probing? }

  predicate LoadableConfig(w: World, cfg: Config) {
    ValidConfig(cfg) && cfg.controllerFailureLimit <= w.failureBound
  }

  ghost predicate Enabled(w: World, step: Step) {
    match step
    case ControllerChange(_, _) => MutexFree(w)
    case SharedReload(cfg, wall) => w.phase.Idle? && LoadableConfig(w, cfg) && wall >= w.now
    case TickStart(at, reload, wall) =>
      w.phase.Idle? && at >= w.now && wall >= at && (reload.Some? ==> LoadableConfig(w, reload.value))
    case Observe(_) => w.phase.Scanning?
    case EndScan(_) => w.phase.Scanning?
    case SetPaused(_) => w.phase.Controlling?
    case Control(_) => w.phase.Controlling?
    case ExpireStarts => w.phase.Controlling?
    case BeginProbes(_) => w.phase.Waiting?
    case TakeAnswer(t, _) => w.phase.Probing? && t in w.probes
    case DispatchDue(goals, picks) => w.phase.Probing? && w.probes == map[]
        && DispatchChoice(w.core, w.now, goals, picks)
    case Prune(ts, _) => w.phase.Idle? && forall t :: t in ts ==> !Live(ThreadOf(w, t))
    case StartTask(i) => MutexFree(w) && i < |w.tasks| && !w.tasks[i].running
    case FinishTask(i, _, at) => MutexFree(w) && i < |w.tasks| && w.tasks[i].running && at >= w.now
    case Restart(at, cfg, _) => LoadableConfig(w, cfg) && at >= w.now
  }

  function Without(tasks: seq<Task>, i: nat): seq<Task>
    requires i < |tasks|
  {
    tasks[..i] + tasks[i + 1..]
  }

  function ObserveWorld(w: World, item: Item): World {
    var c := HandleEvent(w.core, item, w.now);
    if KeyOf(item) in w.core.processed then w
    else
      w.(core := c,
         traces := w.traces[item.thread := EventTrace(TraceOf(w, item.thread), item.event, w.now,
                                                      ThreadOf(w, item.thread), Lookup(c.threads, item.thread))])
  }

  /** A user restart of a goal-limit stop is remembered. */
  function WithRestart(tr: Trace, th: ThreadState, kind: CommandKind): Trace {
    if kind.RestartRetry? && GoalLimitStopped(th) then
      tr.(restarted := tr.restarted + {th.stopped.value.fault.key})
    else tr
  }

  function ControlWorld(w: World, command: Command): World {
    var t := command.thread;
    var th := ThreadOf(w, t);
    var c := ApplyCommand(w.core, command, w.now);
    var tr := WithRestart(TraceOf(w, t), th, command.kind);
    w.(core := c, traces := w.traces[t := Noted(tr, th, Lookup(c.threads, t))])
  }

  function AnswerWorld(w: World, t: ThreadId, answer: Answer): World {
    if t !in w.probes then w else
    var p := w.probes[t];
    var th := ThreadOf(w, t);
    var c := AnswerProbe(w.core, t, p, answer, w.now);
    var tr := if answer.ProbeStatus? && ProbeCurrent(th, p)
      then TraceOf(w, t).(answers := TraceOf(w, t).answers + [Seen(p.key, p.turn, w.now, answer.active)])
          else TraceOf(w, t);
    w.(core := c, probes := w.probes - {t}, traces := w.traces[t := Noted(tr, th, Lookup(c.threads, t))])
  }

  /** The launched jobs, in slot order. */
  function Launched(active: map<ThreadId, Job>, slots: seq<ThreadId>): seq<Task> {
    if slots == [] then []
    else if slots[0] in active then [Task(active[slots[0]], false)] + Launched(active, slots[1..])
    else Launched(active, slots[1..])
  }

  function Entries(w: World, picks: seq<ThreadId>): seq<Entry> {
    if picks == [] then []
    else if ThreadOf(w, picks[0]).pending.Some? then
      [Entry(picks[0], ThreadOf(w, picks[0]).pending.value.retry, w.now, w.core.config, w.reloaded,
             ThreadOf(w, picks[0]), TraceOf(w, picks[0]))] + Entries(w, picks[1..])
    else Entries(w, picks[1..])
  }

  function DispatchWorld(w: World, goals: seq<ThreadId>, picks: seq<ThreadId>): World {
    var c := Dispatch(w.core, w.now, goals, picks);
    w.(core := c, phase := Idle,
       tasks := w.tasks + Launched(c.active, goals + picks),
       log := w.log + Entries(w, picks),
       traces := NotedAll(w, c.threads))
  }

  function PruneWorld(w: World, ts: set<ThreadId>, keys: set<EventKey>): World {
    WithThreads(w, w.core.(threads := w.core.threads - ts, processed := w.core.processed - keys))
  }

  /** A finished goal-block run that was still current counts against its request. */
  function FinishWorld(w: World, i: nat, result: Result, at: Time): World {
    if i >= |w.tasks| then w else
    var job := w.tasks[i].job;
    var t := job.thread;
    var c := FinishJob(w.core, job, result, at);
    var tr := if job.GoalBlockJob? && StillCurrent(w.core, job)
      then TraceOf(w, t).(goalRuns := TraceOf(w, t).goalRuns + 1) else TraceOf(w, t);
    w.(core := c, tasks := Without(w.tasks, i),
        traces := w.traces[t := Noted(tr, ThreadOf(w, t), Lookup(c.threads, t))])
  }

  function StartWorld(w: World, i: nat): World {
    if i >= |w.tasks| then w else
    var job := w.tasks[i].job;
    w.(core := StartJob(w.core, job),
       tasks := if MayStart(w.core, job) then w.tasks[i := Task(job, true)] else Without(w.tasks, i))
  }

  function ControllerWorld(w: World, controller: Controller, failOpen: bool): World {
    w.(core := w.core.(controller := controller,
                       config := if failOpen then w.core.config.(sharedEnabled := false) else w.core.config))
  }

  function TickWorld(w: World, at: Time, reload: Option<Config>, wall: Time): World {
    WithThreads(w, if reload.Some? then Reload(w.core, reload.value, wall) else w.core)
      .(phase := Scanning, now := at, reloaded := reload.Some?)
  }

  function EndScanWorld(w: World, reopen: bool): World {
    WithThreads(w, if reopen then Reopen(w.core, w.now) else w.core).(phase := Controlling)
  }

  function ExpireWorld(w: World): World {
    WithThreads(w, Expire(w.core, w.now)).(phase := Waiting)
  }

  function ProbesWorld(w: World, supported: bool): World {
    if supported then w.(core := StartProbes(w.core, w.now), probes := ProbesDue(w.core, w.now), phase := Probing)
    else w.(phase := Probing)
  }

  function RestartWorld(w: World, at: Time, cfg: Config, paused: bool): World {
    var threads := StartThreads(LoadThreads(w.core.threads), at);
    w.(core := Core(threads, map[], cfg, Starting, paused, w.core.processed), tasks := [], phase := Idle, now := at,
       reloaded := false, probes := map[], traces := NotedAll(w, threads))
  }

  function Apply(w: World, step: Step): World {
    match step
    case ControllerChange(controller, failOpen) => ControllerWorld(w, controller, failOpen)
    case SharedReload(cfg, wall) => WithThreads(w, Reload(w.core, cfg, wall))
    case TickStart(at, reload, wall) => TickWorld(w, at, reload, wall)
    case Observe(item) => ObserveWorld(w, item)
    case EndScan(reopen) => EndScanWorld(w, reopen)
    case SetPaused(paused) => w.(core := w.core.(paused := paused))
    case Control(command) => ControlWorld(w, command)
    case ExpireStarts => ExpireWorld(w)
    case BeginProbes(supported) => ProbesWorld(w, supported)
    case TakeAnswer(t, answer) => AnswerWorld(w, t, answer)
    case DispatchDue(goals, picks) => DispatchWorld(w, goals, picks)
    case Prune(ts, keys) => PruneWorld(w, ts, keys)
    case StartTask(i) => StartWorld(w, i)
    case FinishTask(i, result, at) => FinishWorld(w, i, result, at)
    case Restart(at, cfg, paused) => RestartWorld(w, at, cfg, paused)
  }

  // ---- runs ----

  ghost predicate ValidRun(w: World, steps: seq<Step>)
    decreases |steps|
  {
    steps == [] || (Enabled(w, steps[0]) && ValidRun(Apply(w, steps[0]), steps[1..]))
  }

  function Run(w: World, steps: seq<Step>): World
    decreases |steps|
  {
    if steps == [] then w else Run(Apply(w, steps[0]), steps[1..])
  }
}
