/** What stays fixed while a chain runs, and what may end a stop, a hold or a latch. */
module Chains {
  import opened Types
  import opened ThreadSteps
  import opened Core
  import opened World
  import opened Invariant
  import opened Safety
  import opened Preservation
  import EventProofs

  /** How one step changes one thread, as one of the per-thread operations. */
  datatype Change =
    | Unchanged
    | ByEvent(item: Item)
    | ByCommand(kind: CommandKind)
    | ByReload(cfg: Config, wall: Time)
    | ByReopen(active: bool)
    | ByExpiry(active: bool)
    | ByProbe
    | ByAnswer(answer: Answer)
    | ByDispatch(mode: DispatchMode, active: bool, picked: bool)
    | ByPrune
    | ByResult(result: Result, at: Time)
    | ByGoalBlock(result: Result, at: Time)
    | ByRestart(at: Time)

  /** The change that `step` makes to thread `t`. */
  function ChangeOf(w: World, step: Step, t: ThreadId): Change {
    match step
    case SharedReload(cfg, wall) => ByReload(cfg, wall)
    case TickStart(_, reload, wall) => if reload.Some? then ByReload(reload.value, wall) else Unchanged
    case Observe(item) => if item.thread == t && KeyOf(item) !in w.core.processed then ByEvent(item) else Unchanged
    case EndScan(reopen) => if reopen && !w.core.paused then ByReopen(t in w.core.active) else Unchanged
    case Control(command) => if command.thread == t then ByCommand(command.kind) else Unchanged
    case ExpireStarts => ByExpiry(t in w.core.active)
    case BeginProbes(supported) => if supported && ProbeDue(ThreadOf(w, t), w.now, w.core.config) then ByProbe
        else Unchanged
    case TakeAnswer(u, answer) =>
      if u == t && t in w.probes && ProbeCurrent(ThreadOf(w, t), w.probes[t]) then ByAnswer(answer) else Unchanged
    case DispatchDue(goals, picks) =>
      ByDispatch(ModeAfterGoals(w.core, goals), t in WithGoalJobs(w.core, goals).active, t in picks)
    case Prune(ts, _) => if t in ts then ByPrune else Unchanged
    case FinishTask(i, result, at) =>
      if i < |w.tasks| && w.tasks[i].job.thread == t && StillCurrent(w.core, w.tasks[i].job) then
        if w.tasks[i].job.RecoveryJob? then ByResult(result, at) else ByGoalBlock(result, at)
      else Unchanged
    case Restart(at, _, _) => ByRestart(at)
    case _ => Unchanged
  }

  function Changed(w: World, th: ThreadState, change: Change): ThreadState {
    match change
    case Unchanged => th
    case ByEvent(item) => Written(th, OnEvent(th, item, w.now, w.core.config))
    case ByCommand(kind) => Written(th, OnCommand(th, kind, w.now, w.core.config))
    case ByReload(cfg, wall) => Reloaded(th, wall, cfg)
    case ByReopen(active) => ReopenThread(th, active, w.now, w.core.config)
    case ByExpiry(active) => ExpireThread(th, active, w.now, w.core.config)
    case ByProbe => if th.awaiting.Some? then ProbeStarted(th, w.now) else th
    case ByAnswer(answer) => if th.awaiting.Some? then Answered(th, answer, w.now, w.core.config) else th
    case ByDispatch(mode, active, picked) => AfterDispatch(w.core, w.now, mode, th, active, picked)
    case ByPrune => EmptyThread
    case ByResult(result, at) => if th.awaiting.Some? then RecoveryFinished(th, result, at, w.core.config) else th
    case ByGoalBlock(result, at) =>
      if th.goalStop.Some? && th.stopped.Some? then GoalBlockFinished(th, result, at, w.core.config) else th
    case ByRestart(at) => RestoredAtStartup(Loaded(th), at)
  }

  predicate Tracks(w: World, step: Step, t: ThreadId) {
    ThreadOf(Apply(w, step), t) == Changed(w, ThreadOf(w, t), ChangeOf(w, step, t))
  }

  lemma ReloadChange(w: World, step: Step, t: ThreadId)
    requires step.SharedReload? || step.TickStart?
    ensures Tracks(w, step, t)
  {
  }

  lemma WholeMapChange(w: World, step: Step, t: ThreadId)
    requires step.EndScan? || step.ExpireStarts? || step.BeginProbes? || step.Prune?
    ensures Tracks(w, step, t)
  {
  }

  lemma RestartChange(w: World, step: Step, t: ThreadId)
    requires step.Restart?
    ensures Tracks(w, step, t)
  {
  }

  lemma OneThreadChange(w: World, step: Step, t: ThreadId)
    requires step.Observe? || step.Control?
    ensures Tracks(w, step, t)
  {
    match step
    case Observe(item) =>
      if t == item.thread && KeyOf(item) !in w.core.processed { ObservedThread(w, item); }
      else { ObserveSparesOthers(w, item, t); }
    case Control(command) =>
      if t == command.thread { ControlledThread(w, command); } else { ControlSparesOthers(w, command, t); }
  }

  lemma AnswerChange(w: World, step: Step, t: ThreadId)
    requires step.TakeAnswer?
    ensures Tracks(w, step, t)
  {
  }

  lemma FinishChange(w: World, step: Step, t: ThreadId)
    requires step.FinishTask?
    ensures Tracks(w, step, t)
  {
    if step.index < |w.tasks| && w.tasks[step.index].job.thread == t && StillCurrent(w.core, w.tasks[step.index].job) {
      if w.tasks[step.index].job.RecoveryJob? {
        FinishedThread(w, step.index, step.result, step.at);
      } else {
        BlockedThread(w, step.index, step.result, step.at);
      }
    } else {
      FinishElsewhere(w, step.index, step.result, step.at, t);
    }
  }

  lemma FinishElsewhere(w: World, i: nat, result: Result, at: Time, t: ThreadId)
    requires i >= |w.tasks| || w.tasks[i].job.thread != t || !StillCurrent(w.core, w.tasks[i].job)
    ensures ThreadOf(FinishWorld(w, i, result, at), t) == ThreadOf(w, t)
  {
  }

  lemma DispatchedThread(w: World, goals: seq<ThreadId>, picks: seq<ThreadId>, t: ThreadId)
    ensures ThreadOf(DispatchWorld(w, goals, picks), t) == Lookup(Dispatch(w.core, w.now, goals, picks).threads, t)
  {
  }

  lemma ChangedByDispatch(w: World, th: ThreadState, mode: DispatchMode, active: bool, picked: bool)
    ensures Changed(w, th, ByDispatch(mode, active, picked)) == AfterDispatch(w.core, w.now, mode, th, active, picked)
  {
  }

  lemma DispatchChange(w: World, step: Step, t: ThreadId)
    requires step.DispatchDue?
    ensures Tracks(w, step, t)
  {
    DispatchedThread(w, step.goals, step.picks, t);
    DispatchOfThread(w.core, w.now, step.goals, step.picks, t);
    ChangedByDispatch(w, ThreadOf(w, t), ModeAfterGoals(w.core, step.goals),
        t in WithGoalJobs(w.core, step.goals).active, t in step.picks);
  }

  lemma QuietChange(w: World, step: Step, t: ThreadId)
    requires step.ControllerChange? || step.SetPaused? || step.StartTask?
    ensures Tracks(w, step, t)
  {
  }

  /** Every step acts on each thread through its own change. */
  lemma StepChangesThread(w: World, step: Step, t: ThreadId)
    ensures Tracks(w, step, t)
  {
    if step.DispatchDue? { DispatchChange(w, step, t); }
    else if step.Restart? { RestartChange(w, step, t); }
    else if step.TakeAnswer? { AnswerChange(w, step, t); }
    else if step.FinishTask? { FinishChange(w, step, t); }
    else if step.Observe? || step.Control? { OneThreadChange(w, step, t); }
    else if step.ControllerChange? || step.SetPaused? || step.StartTask? { QuietChange(w, step, t); }
    else if step.SharedReload? || step.TickStart? { ReloadChange(w, step, t); }
    else { WholeMapChange(w, step, t); }
  }

  // ---- one chain ----

  /** A chain that stays live keeps its start time; its attempt number stays or grows by one, and its
      no-progress count then grows by one too or restarts at one. */
  predicate SameChain(th: ThreadState, after: ThreadState) {
    Live(th) && Live(after) ==>
      var r, s := LiveRetry(th).value, LiveRetry(after).value;
      && after.recoveryStartedAt == th.recoveryStartedAt
      && ((s.attempt == r.attempt && s.consecutive == r.consecutive) ||
          (s.attempt == r.attempt + 1 && HasTurn(th) && s.consecutive == if th.currentTurnProgress then 1
              else r.consecutive + 1))
  }

  predicate ChainOk(th: ThreadState) { OnePhase(th) && CountersOk(th) }

  lemma ScheduleKeepsChain(th: ThreadState, f: Failure, now: Time, consecutive: int, origin: Time, notified: bool,
      cfg: Config)
    requires ChainOk(th) && HasTurn(th)
    requires consecutive == if th.currentTurnProgress then 1 else th.awaiting.value.retry.consecutive + 1
    ensures SameChain(th, ScheduleFailure(th.(currentTurnProgress := false, awaiting := None), f, now,
                                          th.awaiting.value.retry.attempt + 1, consecutive, origin, notified, cfg))
  {
  }

  lemma CompleteKeepsChain(th: ThreadState, f: Failure, now: Time, cfg: Config)
    requires ChainOk(th)
    ensures SameChain(th, Written(th, OnTaskComplete(th, f, now, cfg)))
  {
    if HasTurn(th) {
      var r := th.awaiting.value.retry;
      ScheduleKeepsChain(th, f, now, if th.currentTurnProgress then 1 else r.consecutive + 1,
                         r.fault.originStartedAt, r.parentNotified, cfg);
    }
  }

  lemma EventKeepsChain(th: ThreadState, item: Item, now: Time, cfg: Config)
    requires ChainOk(th)
    ensures SameChain(th, Written(th, OnEvent(th, item, now, cfg)))
  {
    match item.event
    case TaskComplete(turn, at, completion) =>
      CompleteKeepsChain(th, Failure(KeyOf(item), turn, at, completion, item.codexHome, item.rolloutPath), now, cfg);
    case GoalUpdated(at, status, updatedAt) => EventProofs.GoalUpdateShape(th, at, status, updatedAt);
    case _ =>
  }

  lemma ResultKeepsChain(th: ThreadState, result: Result, at: Time, cfg: Config)
    requires ChainOk(th) && th.awaiting.Some?
    ensures SameChain(th, RecoveryFinished(th, result, at, cfg))
  {
  }

  lemma AnswerKeepsChain(th: ThreadState, answer: Answer, now: Time, cfg: Config)
    requires ChainOk(th) && HasTurn(th)
    ensures SameChain(th, Answered(th, answer, now, cfg))
  {
  }

  lemma ChangeKeepsChain(w: World, th: ThreadState, change: Change)
    requires ChainOk(th) && (change.ByAnswer? ==> HasTurn(th))
    ensures SameChain(th, Changed(w, th, change))
  {
    if change.ByEvent? { EventKeepsChain(th, change.item, w.now, w.core.config); }
    else if change.ByResult? && th.awaiting.Some? { ResultKeepsChain(th, change.result, change.at, w.core.config); }
    else if change.ByAnswer? { AnswerKeepsChain(th, change.answer, w.now, w.core.config); }
    else { QuietKeepsChain(w, th, change); }
  }

  lemma QuietKeepsChain(w: World, th: ThreadState, change: Change)
    requires ChainOk(th) && !change.ByEvent? && (change.ByResult? ==> th.awaiting.None?) && !change.ByAnswer?
    ensures SameChain(th, Changed(w, th, change))
  {
  }
}
