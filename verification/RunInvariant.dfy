/** Every step keeps the system invariant, so every run does. */
module RunInvariant {
  import opened Types
  import opened ThreadSteps
  import opened Core
  import opened World
  import opened Invariant
  import opened Safety
  import opened Preservation

  // ---- the parts of a tick ----

  lemma ControllerKeepsOk(w: World, controller: Controller, failOpen: bool)
    requires WorldOk(w) && MutexFree(w)
    ensures WorldOk(ControllerWorld(w, controller, failOpen))
  {
    var w' := ControllerWorld(w, controller, failOpen);
    LaterThreadsOk(w, w');
    forall t | t in w.probes ensures ProbeOk(ThreadOf(w', t), TraceOf(w', t), w'.probes[t], w'.now, w'.core.config) {
      assert ProbeOk(ThreadOf(w, t), TraceOf(w, t), w.probes[t], w.now, w.core.config);
    }
  }

  lemma SharedReloadKeepsOk(w: World, cfg: Config, wall: Time)
    requires WorldOk(w) && w.phase.Idle? && LoadableConfig(w, cfg)
    ensures WorldOk(WithThreads(w, Reload(w.core, cfg, wall)))
  {
    ReloadKeepsThreads(w, cfg, wall);
  }

  lemma TickKeepsOk(w: World, at: Time, reload: Option<Config>, wall: Time)
    requires WorldOk(w) && w.phase.Idle? && at >= w.now && (reload.Some? ==> LoadableConfig(w, reload.value))
    ensures WorldOk(TickWorld(w, at, reload, wall))
  {
    var w' := TickWorld(w, at, reload, wall);
    if reload.Some? {
      ReloadKeepsThreads(w, reload.value, wall);
      LaterThreadsOk(WithThreads(w, Reload(w.core, reload.value, wall)), w');
      ReloadIsWithin(w, reload.value, wall);
    } else {
      SameThreadsKeepOk(w);
      LaterThreadsOk(WithThreads(w, w.core), w');
    }
  }

  lemma ObserveKeepsOk(w: World, item: Item)
    requires WorldOk(w) && w.phase.Scanning?
    ensures WorldOk(ObserveWorld(w, item))
  {
    ObserveKeepsThreads(w, item);
    ObserveKeepsBudget(w, item);
  }

  lemma ObserveKeepsBudget(w: World, item: Item)
    requires WorldOk(w) && w.phase.Scanning?
    ensures BudgetOk(ObserveWorld(w, item))
  {
    var w' := ObserveWorld(w, item);
    if w.reloaded {
      forall t | t in w'.core.threads ensures PendingWithin(w'.core.threads[t], w'.core.config) {
        if t == item.thread {
          EventStaysWithin(ThreadOf(w, t), item, w.now, w.core.config);
        }
      }
    }
  }

  lemma EndScanKeepsOk(w: World, reopen: bool)
    requires WorldOk(w) && w.phase.Scanning?
    ensures WorldOk(EndScanWorld(w, reopen))
  {
    var w' := EndScanWorld(w, reopen);
    if reopen {
      ReopenKeepsThreads(w);
      LaterThreadsOk(WithThreads(w, Reopen(w.core, w.now)), w');
      if w.reloaded {
        forall t | t in w'.core.threads ensures PendingWithin(w'.core.threads[t], w'.core.config) {
          ReopenStaysWithin(w.core.threads[t], t in w.core.active, w.now, w.core.config);
        }
      }
    } else {
      SameThreadsKeepOk(w);
      LaterThreadsOk(WithThreads(w, w.core), w');
    }
  }

  lemma PausedKeepsOk(w: World, paused: bool)
    requires WorldOk(w)
    ensures WorldOk(w.(core := w.core.(paused := paused)))
  {
    var w' := w.(core := w.core.(paused := paused));
    LaterThreadsOk(w, w');
    forall t | t in w.probes ensures ProbeOk(ThreadOf(w', t), TraceOf(w', t), w'.probes[t], w'.now, w'.core.config) {
      assert ProbeOk(ThreadOf(w, t), TraceOf(w, t), w.probes[t], w.now, w.core.config);
    }
  }

  lemma ControlKeepsOk(w: World, command: Command)
    requires WorldOk(w) && w.phase.Controlling?
    ensures WorldOk(ControlWorld(w, command))
  {
    var w' := ControlWorld(w, command);
    ControlKeepsThreads(w, command);
    if w.reloaded {
      forall t | t in w'.core.threads ensures PendingWithin(w'.core.threads[t], w'.core.config) {
        if t == command.thread {
          CommandStaysWithin(w.core.threads[t], command.kind, w.now, w.core.config);
        }
      }
    }
  }

  lemma ExpireKeepsOk(w: World)
    requires WorldOk(w) && w.phase.Controlling?
    ensures WorldOk(ExpireWorld(w))
  {
    var w' := ExpireWorld(w);
    ExpireKeepsThreads(w);
    LaterThreadsOk(WithThreads(w, Expire(w.core, w.now)), w');
    if w.reloaded {
      forall t | t in w'.core.threads ensures PendingWithinOrLater(w'.core.threads[t], w'.now, w'.core.config) {
        var th := w.core.threads[t];
        assert ThreadOk(t, ThreadOf(w, t), TraceOf(w, t), w.now, w.failureBound);
        if Unacknowledged(th, w.now) {
          RescheduledIsLater(th, w.now, StartNotAcknowledged, true, w.now, w.core.config);
        }
      }
    }
  }

  // ---- probes ----

  lemma ProbesKeepOk(w: World, supported: bool)
    requires WorldOk(w) && w.phase.Waiting?
    ensures WorldOk(ProbesWorld(w, supported))
  {
    var w' := ProbesWorld(w, supported);
    if supported {
      ProbesStartedKeepThreads(w);
      forall t | t in w'.probes ensures ProbeOk(ThreadOf(w', t), TraceOf(w', t), w'.probes[t], w'.now, w'.core.config) {
        assert ThreadOk(t, ThreadOf(w, t), TraceOf(w, t), w.now, w.failureBound);
      }
    } else {
      LaterThreadsOk(w, w');
    }
  }

  lemma AnswerKeepsOk(w: World, t0: ThreadId, answer: Answer)
    requires WorldOk(w) && w.phase.Probing? && t0 in w.probes
    ensures WorldOk(AnswerWorld(w, t0, answer))
  {
    AnswerKeepsThreads(w, t0, answer);
    AnswerKeepsBudget(w, t0, answer);
    AnswerKeepsProbes(w, t0, answer);
  }

  lemma AnswerKeepsBudget(w: World, t0: ThreadId, answer: Answer)
    requires WorldOk(w) && w.phase.Probing? && t0 in w.probes
    ensures BudgetOk(AnswerWorld(w, t0, answer))
  {
    var w' := AnswerWorld(w, t0, answer);
    if w.reloaded {
      forall t | t in w'.core.threads ensures PendingWithinOrLater(w'.core.threads[t], w'.now, w'.core.config) {
        assert ThreadOk(t, ThreadOf(w, t), TraceOf(w, t), w.now, w.failureBound);
        if t == t0 && ProbeCurrent(ThreadOf(w, t), w.probes[t]) {
          AnswerStaysLater(w.core.threads[t], answer, w.now, w.core.config);
        }
      }
    }
  }

  lemma AnswerKeepsProbes(w: World, t0: ThreadId, answer: Answer)
    requires WorldOk(w) && w.phase.Probing? && t0 in w.probes
    ensures ProbesOk(AnswerWorld(w, t0, answer))
  {
    var w' := AnswerWorld(w, t0, answer);
    forall t | t in w'.probes ensures ProbeOk(ThreadOf(w', t), TraceOf(w', t), w'.probes[t], w'.now, w'.core.config) {
      assert ProbeOk(ThreadOf(w, t), TraceOf(w, t), w.probes[t], w.now, w.core.config);
    }
  }

  // ---- jobs ----

  lemma StartKeepsOk(w: World, i: nat)
    requires WorldOk(w) && MutexFree(w) && i < |w.tasks|
    ensures WorldOk(StartWorld(w, i))
  {
    var w' := StartWorld(w, i);
    LaterThreadsOk(w, w');
    StartedJobMatches(w.tasks, w.core.active, i);
    RemovedJobMatches(w.tasks, w.core.active, i);
    forall t | t in w.probes ensures ProbeOk(ThreadOf(w', t), TraceOf(w', t), w'.probes[t], w'.now, w'.core.config) {
      assert ProbeOk(ThreadOf(w, t), TraceOf(w, t), w.probes[t], w.now, w.core.config);
    }
  }

  lemma FinishKeepsOk(w: World, i: nat, result: Result, at: Time)
    requires WorldOk(w) && MutexFree(w) && i < |w.tasks| && at >= w.now
    ensures WorldOk(FinishWorld(w, i, result, at))
  {
    FinishKeepsThreads(w, i, result, at);
    RemovedJobMatches(w.tasks, w.core.active, i);
    FinishKeepsBudget(w, i, result, at);
    FinishKeepsProbes(w, i, result, at);
    assert LogOk(FinishWorld(w, i, result, at));
  }

  lemma FinishLeavesOthers(w: World, i: nat, result: Result, at: Time, t: ThreadId)
    requires i < |w.tasks| && (t != w.tasks[i].job.thread || !StillCurrent(w.core, w.tasks[i].job)
        || w.tasks[i].job.GoalBlockJob?)
    ensures var w' := FinishWorld(w, i, result, at);
      ThreadOf(w', t).awaiting == ThreadOf(w, t).awaiting && TraceOf(w', t).answers == TraceOf(w, t).answers
  {
  }

  lemma FinishKeepsWithin(w: World, i: nat, result: Result, at: Time, t: ThreadId)
    requires WorldOk(w) && i < |w.tasks| && at >= w.now && (w.phase.Waiting? || w.phase.Probing?) && w.reloaded
    requires t in FinishWorld(w, i, result, at).core.threads
    ensures PendingWithinOrLater(FinishWorld(w, i, result, at).core.threads[t], w.now, w.core.config)
  {
    var job := w.tasks[i].job;
    assert ThreadOk(t, ThreadOf(w, t), TraceOf(w, t), w.now, w.failureBound);
    if t != job.thread {
      FinishSparesOthers(w, i, result, at, t);
    } else if !StillCurrent(w.core, job) {
      StaleResult(w, i, result, at);
    } else if job.RecoveryJob? {
      FinishedThread(w, i, result, at);
      FinishStaysLater(ThreadOf(w, t), result, at, w.now, w.core.config);
    } else {
      BlockedThread(w, i, result, at);
    }
  }

  lemma FinishKeepsBudget(w: World, i: nat, result: Result, at: Time)
    requires WorldOk(w) && MutexFree(w) && i < |w.tasks| && at >= w.now
    ensures BudgetOk(FinishWorld(w, i, result, at))
  {
    var w' := FinishWorld(w, i, result, at);
    if w.reloaded && !w.phase.Idle? {
      forall t | t in w'.core.threads ensures PendingWithinOrLater(w'.core.threads[t], w'.now, w'.core.config) {
        FinishKeepsWithin(w, i, result, at, t);
      }
    }
  }

  lemma FinishKeepsProbe(w: World, i: nat, result: Result, at: Time, t: ThreadId, p: Probe)
    requires i < |w.tasks| && ProbeOk(ThreadOf(w, t), TraceOf(w, t), p, w.now, w.core.config)
    ensures var w' := FinishWorld(w, i, result, at); ProbeOk(ThreadOf(w', t), TraceOf(w', t), p, w.now, w.core.config)
  {
    var job := w.tasks[i].job;
    if t == job.thread && StillCurrent(w.core, job) && job.RecoveryJob? {
      FinishedThread(w, i, result, at);
      FinishedProbeOk(ThreadOf(w, t), TraceOf(w, t), p, result, at, w.now, w.core.config);
    } else {
      FinishLeavesOthers(w, i, result, at, t);
    }
  }

  lemma FinishKeepsProbes(w: World, i: nat, result: Result, at: Time)
    requires WorldOk(w) && MutexFree(w) && i < |w.tasks|
    ensures ProbesOk(FinishWorld(w, i, result, at))
  {
    var w' := FinishWorld(w, i, result, at);
    forall t | t in w'.probes ensures ProbeOk(ThreadOf(w', t), TraceOf(w', t), w'.probes[t], w'.now, w'.core.config) {
      FinishKeepsProbe(w, i, result, at, t, w.probes[t]);
    }
  }

  /** A job result that leaves the entry waiting leaves what a probe relies on. */
  lemma FinishedProbeOk(th: ThreadState, tr: Trace, p: Probe, result: Result, at: Time, now: Time, cfg: Config)
    requires ProbeOk(th, tr, p, now, cfg) && th.awaiting.Some?
    ensures ProbeOk(RecoveryFinished(th, result, at, cfg), Noted(tr, th, RecoveryFinished(th, result, at, cfg)), p,
        now, cfg)
  {
  }

  // ---- the rest ----

  lemma DispatchKeepsOk(w: World, goals: seq<ThreadId>, picks: seq<ThreadId>)
    requires WorldOk(w) && w.phase.Probing? && w.probes == map[] && DispatchChoice(w.core, w.now, goals, picks)
    ensures WorldOk(DispatchWorld(w, goals, picks))
  {
    DispatchKeepsThreads(w, goals, picks);
    DispatchKeepsLog(w, goals, picks);
    DispatchKeepsTasks(w, goals, picks);
  }

  lemma PruneKeepsOk(w: World, ts: set<ThreadId>, keys: set<EventKey>)
    requires WorldOk(w) && w.phase.Idle? && forall t :: t in ts ==> !Live(ThreadOf(w, t))
    ensures WorldOk(PruneWorld(w, ts, keys))
  {
    PruneKeepsThreads(w, ts, keys);
  }

  lemma RestartKeepsOk(w: World, at: Time, cfg: Config, paused: bool)
    requires WorldOk(w) && at >= w.now && LoadableConfig(w, cfg)
    ensures WorldOk(RestartWorld(w, at, cfg, paused))
  {
    RestartKeepsThreads(w, at, cfg, paused);
  }

  lemma StepKeepsOk(w: World, step: Step)
    requires WorldOk(w) && Enabled(w, step)
    ensures WorldOk(Apply(w, step))
  {
    match step
    case ControllerChange(controller, failOpen) => ControllerKeepsOk(w, controller, failOpen);
    case SharedReload(cfg, wall) => SharedReloadKeepsOk(w, cfg, wall);
    case TickStart(at, reload, wall) => TickKeepsOk(w, at, reload, wall);
    case Observe(item) => ObserveKeepsOk(w, item);
    case EndScan(reopen) => EndScanKeepsOk(w, reopen);
    case SetPaused(paused) => PausedKeepsOk(w, paused);
    case Control(command) => ControlKeepsOk(w, command);
    case ExpireStarts => ExpireKeepsOk(w);
    case BeginProbes(supported) => ProbesKeepOk(w, supported);
    case TakeAnswer(t, answer) => AnswerKeepsOk(w, t, answer);
    case DispatchDue(goals, picks) => DispatchKeepsOk(w, goals, picks);
    case Prune(ts, keys) => PruneKeepsOk(w, ts, keys);
    case StartTask(i) => StartKeepsOk(w, i);
    case FinishTask(i, result, at) => FinishKeepsOk(w, i, result, at);
    case Restart(at, cfg, paused) => RestartKeepsOk(w, at, cfg, paused);
  }

  lemma InitOk(w: World, cfg: Config, bound: int)
    requires Init(w, cfg, bound)
    ensures WorldOk(w)
  {
    forall t: ThreadId ensures ThreadOk(t, ThreadOf(w, t), TraceOf(w, t), w.now, w.failureBound) {
    }
  }

  /** The invariant holds after every run. */
  lemma {:induction false} RunKeepsOk(w: World, steps: seq<Step>)
    requires WorldOk(w) && ValidRun(w, steps)
    ensures WorldOk(Run(w, steps))
    decreases |steps|
  {
    if steps != [] {
      StepKeepsOk(w, steps[0]);
      RunKeepsOk(Apply(w, steps[0]), steps[1..]);
    }
  }
}
