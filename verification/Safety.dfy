/** The invariant of the whole system and its preservation by every step. */
module Safety {
  import opened Types
  import opened Policy
  import opened ThreadSteps
  import opened Core
  import opened World
  import opened Invariant
  import opened StepProofs
  import EventProofs

  ghost predicate ThreadsOk(w: World) {
    forall t: ThreadId :: ThreadOk(t, ThreadOf(w, t), TraceOf(w, t), w.now, w.failureBound)
  }

  predicate SettingsOk(w: World) {
    && ValidConfig(w.core.config) && w.core.config.controllerFailureLimit <= w.failureBound && w.failureBound > 0
        && w.now > 0
  }

  /** One outstanding job a thread, and `active` is the threads that have one. */
  ghost predicate JobsMatch(tasks: seq<Task>, active: map<ThreadId, Job>) {
    && (forall i, j :: 0 <= i < j < |tasks| ==> tasks[i].job.thread != tasks[j].job.thread)
    && (forall i :: 0 <= i < |tasks| ==> tasks[i].job.thread in active && active[tasks[i].job.thread] == tasks[i].job)
    && (forall t :: t in active ==> exists i :: 0 <= i < |tasks| && tasks[i].job.thread == t)
  }

  ghost predicate TasksOk(w: World) {
    JobsMatch(w.tasks, w.core.active)
  }

  /** Within the limits of its class and within those the entry itself carries. */
  predicate Budgeted(r: Retry, cfg: Config) {
    WithinLimits(r, cfg) && r.attempt <= r.maxAttempts && r.consecutive <= r.maxConsecutive
  }

  predicate PendingWithin(th: ThreadState, cfg: Config) {
    th.pending.Some? ==> Budgeted(th.pending.value.retry, cfg)
  }

  predicate PendingWithinOrLater(th: ThreadState, now: Time, cfg: Config) {
    th.pending.Some? ==> th.pending.value.dueAt > now || Budgeted(th.pending.value.retry, cfg)
  }

  /** After a successful reload, what can still fall due in this tick is within the current limits. */
  ghost predicate BudgetOk(w: World) {
    w.reloaded ==>
      && (w.phase.Scanning? || w.phase.Controlling? ==>
            forall t :: t in w.core.threads ==> PendingWithin(w.core.threads[t], w.core.config))
      && (w.phase.Waiting? || w.phase.Probing? ==>
            forall t :: t in w.core.threads ==> PendingWithinOrLater(w.core.threads[t], w.now, w.core.config))
  }

  /** What a probe in flight may rely on while the entry it asks about is unchanged. */
  predicate ProbeOk(th: ThreadState, tr: Trace, p: Probe, now: Time, cfg: Config) {
    && p.turn != ""
    && (ProbeCurrent(th, p) ==>
          var aw := th.awaiting.value;
          && aw.lastLifecycleCheckAt == now
          && now - LifecycleStart(aw) >= cfg.startAckTimeoutSeconds * SECOND
          && (aw.lifecycleChecks > 0 ==> LastAnswerInactive(tr, p.key, p.turn, now - PROBE_INTERVAL)))
  }

  ghost predicate ProbesOk(w: World) {
    && (!w.phase.Probing? ==> w.probes == map[])
    && (forall t :: t in w.probes ==> ProbeOk(ThreadOf(w, t), TraceOf(w, t), w.probes[t], w.now, w.core.config))
  }

  /** What holds of every dispatched recovery job. */
  predicate EntryOk(e: Entry) {
    && ValidConfig(e.config) && 1 <= e.retry.consecutive <= e.retry.attempt
    && (e.reloaded ==> Budgeted(e.retry, e.config))
    && e.before.recoveryStartedAt != 0 && e.at - e.before.recoveryStartedAt <= MAX_RECOVERY_DURATION
    && (e.before.goalHeld ==>
          if e.retry.goalLimitRestart then e.retry.fault.key in e.trace.restarted else HeldExceptionApplies(e))
    && (!e.trace.chainProgress ==> e.retry.attempt == e.retry.consecutive)
  }

  /** The only way past a held goal: the failure belongs to an external turn that started after the hold. */
  predicate HeldExceptionApplies(e: Entry) {
    var origin := e.retry.fault.originStartedAt;
    && origin != 0 && (e.trace.firstTurn, origin) in e.trace.external
    && (e.before.goalStatus.Paused? || e.before.goalStatus.Blocked?)
    && (e.before.goalUpdatedAt == 0 || e.before.goalUpdatedAt <= origin)
  }

  ghost predicate LogOk(w: World) {
    forall e :: e in w.log ==> EntryOk(e)
  }

  ghost predicate WorldOk(w: World) {
    SettingsOk(w) && ThreadsOk(w) && TasksOk(w) && BudgetOk(w) && ProbesOk(w) && LogOk(w)
  }

  // ---- threads ----

  lemma NotedForAll(w: World, c: Core, t: ThreadId)
    ensures TraceOf(WithThreads(w, c), t) == Noted(TraceOf(w, t), ThreadOf(w, t), Lookup(c.threads, t))
  {
    if t !in NotedAll(w, c.threads) {
      assert Noted(NewTrace, EmptyThread, EmptyThread) == NewTrace;
    }
  }

  lemma ReloadKeepsThreads(w: World, cfg: Config, wall: Time)
    requires WorldOk(w) && LoadableConfig(w, cfg)
    ensures ThreadsOk(WithThreads(w, Reload(w.core, cfg, wall)))
  {
    var w' := WithThreads(w, Reload(w.core, cfg, wall));
    forall t: ThreadId ensures ThreadOk(t, ThreadOf(w', t), TraceOf(w', t), w'.now, w'.failureBound) {
      NotedForAll(w, w'.core, t);
      assert ThreadOf(w', t) == Reloaded(ThreadOf(w, t), wall, cfg);
      ReloadedKeepsOk(t, ThreadOf(w, t), TraceOf(w, t), wall, w.now, cfg, w.failureBound);
    }
  }

  lemma SameThreadsKeepOk(w: World)
    requires ThreadsOk(w)
    ensures ThreadsOk(WithThreads(w, w.core))
  {
    var w' := WithThreads(w, w.core);
    forall t: ThreadId ensures ThreadOk(t, ThreadOf(w', t), TraceOf(w', t), w'.now, w'.failureBound) {
      NotedForAll(w, w.core, t);
      NothingKeepsOk(t, ThreadOf(w, t), TraceOf(w, t), w.now, w.failureBound);
    }
  }

  lemma LaterThreadsOk(w: World, w': World)
    requires ThreadsOk(w) && w'.core.threads == w.core.threads && w'.traces == w.traces
    requires w'.failureBound == w.failureBound && w.now <= w'.now
    ensures ThreadsOk(w')
  {
    forall t: ThreadId ensures ThreadOk(t, ThreadOf(w', t), TraceOf(w', t), w'.now, w'.failureBound) {
      LaterKeepsOk(t, ThreadOf(w, t), TraceOf(w, t), w.now, w'.now, w.failureBound);
    }
  }

  lemma ReopenThreadOf(c: Core, now: Time, t: ThreadId)
    requires !c.paused
    ensures Lookup(Reopen(c, now).threads, t) == ReopenThread(Lookup(c.threads, t), t in c.active, now, c.config)
  {
  }

  lemma ReopenKeepsThreads(w: World)
    requires WorldOk(w)
    ensures ThreadsOk(WithThreads(w, Reopen(w.core, w.now)))
  {
    var w' := WithThreads(w, Reopen(w.core, w.now));
    if w.core.paused {
      SameThreadsKeepOk(w);
      return;
    }
    forall t: ThreadId ensures ThreadOk(t, ThreadOf(w', t), TraceOf(w', t), w'.now, w'.failureBound) {
      NotedForAll(w, w'.core, t);
      ReopenThreadOf(w.core, w.now, t);
      ReopenedKeepsOk(t, ThreadOf(w, t), TraceOf(w, t), t in w.core.active, w.now, w.now, w.core.config,
          w.failureBound);
    }
  }

  lemma ExpireKeepsThreads(w: World)
    requires WorldOk(w)
    ensures ThreadsOk(WithThreads(w, Expire(w.core, w.now)))
  {
    var w' := WithThreads(w, Expire(w.core, w.now));
    forall t: ThreadId ensures ThreadOk(t, ThreadOf(w', t), TraceOf(w', t), w'.now, w'.failureBound) {
      NotedForAll(w, w'.core, t);
      assert ThreadOf(w', t) == ExpireThread(ThreadOf(w, t), t in w.core.active, w.now, w.core.config);
      ExpiredKeepsOk(t, ThreadOf(w, t), TraceOf(w, t), t in w.core.active, w.now, w.now, w.core.config, w.failureBound);
    }
  }

  lemma PruneKeepsThreads(w: World, ts: set<ThreadId>, keys: set<EventKey>)
    requires WorldOk(w) && forall t :: t in ts ==> !Live(ThreadOf(w, t))
    ensures ThreadsOk(PruneWorld(w, ts, keys))
  {
    var w' := PruneWorld(w, ts, keys);
    forall t: ThreadId ensures ThreadOk(t, ThreadOf(w', t), TraceOf(w', t), w'.now, w'.failureBound) {
      NotedForAll(w, w'.core, t);
      if t in ts {
        EmptiedKeepsOk(t, ThreadOf(w, t), TraceOf(w, t), EmptyThread, w.now, w.failureBound);
      } else {
        NothingKeepsOk(t, ThreadOf(w, t), TraceOf(w, t), w.now, w.failureBound);
      }
    }
  }

  lemma RestartKeepsThreads(w: World, at: Time, cfg: Config, paused: bool)
    requires WorldOk(w) && at >= w.now
    ensures ThreadsOk(RestartWorld(w, at, cfg, paused))
  {
    var w' := RestartWorld(w, at, cfg, paused);
    forall t: ThreadId ensures ThreadOk(t, ThreadOf(w', t), TraceOf(w', t), w'.now, w'.failureBound) {
      var th, tr := ThreadOf(w, t), TraceOf(w, t);
      NotedForAll(w, w'.core, t);
      assert ThreadOf(w', t) == RestoredAtStartup(Loaded(th), at);
      LoadedKeepsOk(t, th, tr, w.now, w.failureBound);
      LoadedThenRestored(t, th, tr, at, w.now, w.failureBound);
      LaterKeepsOk(t, ThreadOf(w', t), TraceOf(w', t), w.now, at, w.failureBound);
    }
  }

  lemma LoadedThenRestored(t: ThreadId, th: ThreadState, tr: Trace, at: Time, now: Time, bound: int)
    requires ThreadOk(t, th, tr, now, bound) && ThreadOk(t, Loaded(th), Noted(tr, th, Loaded(th)), now, bound)
    ensures var after := RestoredAtStartup(Loaded(th), at);
      ThreadOk(t, after, Noted(tr, th, after), now, bound)
  {
    var mid := Loaded(th);
    var tr1 := Noted(tr, th, mid);
    RestoredKeepsOk(t, mid, tr1, at, now, bound);
    assert Noted(tr1, mid, RestoredAtStartup(mid, at)) == Noted(tr, th, RestoredAtStartup(mid, at));
  }

  lemma ObservedThread(w: World, item: Item)
    requires KeyOf(item) !in w.core.processed
    ensures var w', t := ObserveWorld(w, item), item.thread;
      var after := Written(ThreadOf(w, t), OnEvent(ThreadOf(w, t), item, w.now, w.core.config));
      && ThreadOf(w', t) == after
      && TraceOf(w', t) == EventTrace(TraceOf(w, t), item.event, w.now, ThreadOf(w, t), after)
  {
  }

  lemma ObserveSparesOthers(w: World, item: Item, t: ThreadId)
    requires t != item.thread || KeyOf(item) in w.core.processed
    ensures ThreadOf(ObserveWorld(w, item), t) == ThreadOf(w, t)
        && TraceOf(ObserveWorld(w, item), t) == TraceOf(w, t)
  {
  }

  lemma ObserveKeepsThread(w: World, item: Item, t: ThreadId)
    requires WorldOk(w)
    ensures var w' := ObserveWorld(w, item); ThreadOk(t, ThreadOf(w', t), TraceOf(w', t), w.now, w.failureBound)
  {
    assert ThreadOk(t, ThreadOf(w, t), TraceOf(w, t), w.now, w.failureBound);
    if t == item.thread && KeyOf(item) !in w.core.processed {
      ObservedThread(w, item);
      EventProofs.EventKeepsOk(t, ThreadOf(w, t), TraceOf(w, t), item, w.now, w.core.config, w.failureBound);
    } else {
      ObserveSparesOthers(w, item, t);
    }
  }

  lemma ObserveKeepsThreads(w: World, item: Item)
    requires WorldOk(w)
    ensures ThreadsOk(ObserveWorld(w, item))
  {
    var w' := ObserveWorld(w, item);
    forall t: ThreadId ensures ThreadOk(t, ThreadOf(w', t), TraceOf(w', t), w'.now, w'.failureBound) {
      ObserveKeepsThread(w, item, t);
    }
  }

  lemma ControlledThread(w: World, command: Command)
    ensures var w', t := ControlWorld(w, command), command.thread;
      var after := Written(ThreadOf(w, t), OnCommand(ThreadOf(w, t), command.kind, w.now, w.core.config));
      && ThreadOf(w', t) == after
      && TraceOf(w', t) == Noted(WithRestart(TraceOf(w, t), ThreadOf(w, t), command.kind), ThreadOf(w, t), after)
  {
    assert OnCommand(EmptyThread, command.kind, w.now, w.core.config).None?;
  }

  lemma ControlSparesOthers(w: World, command: Command, t: ThreadId)
    requires t != command.thread
    ensures ThreadOf(ControlWorld(w, command), t) == ThreadOf(w, t)
        && TraceOf(ControlWorld(w, command), t) == TraceOf(w, t)
  {
  }

  lemma ControlKeepsThread(w: World, command: Command, t: ThreadId)
    requires WorldOk(w)
    ensures var w' := ControlWorld(w, command); ThreadOk(t, ThreadOf(w', t), TraceOf(w', t), w.now, w.failureBound)
  {
    assert ThreadOk(t, ThreadOf(w, t), TraceOf(w, t), w.now, w.failureBound);
    if t == command.thread {
      ControlledThread(w, command);
      CommandKeepsOk(t, ThreadOf(w, t), TraceOf(w, t), command.kind, w.now, w.core.config, w.failureBound);
    } else {
      ControlSparesOthers(w, command, t);
    }
  }

  lemma ControlKeepsThreads(w: World, command: Command)
    requires WorldOk(w)
    ensures ThreadsOk(ControlWorld(w, command))
  {
    var w' := ControlWorld(w, command);
    forall t: ThreadId ensures ThreadOk(t, ThreadOf(w', t), TraceOf(w', t), w'.now, w'.failureBound) {
      ControlKeepsThread(w, command, t);
    }
  }

  lemma ProbesStartedKeepThreads(w: World)
    requires WorldOk(w)
    ensures ThreadsOk(ProbesWorld(w, true))
  {
    var w' := ProbesWorld(w, true);
    forall t: ThreadId ensures ThreadOk(t, ThreadOf(w', t), TraceOf(w', t), w'.now, w'.failureBound) {
      assert ThreadOk(t, ThreadOf(w, t), TraceOf(w, t), w.now, w.failureBound);
      if t in w.core.threads && ProbeDue(w.core.threads[t], w.now, w.core.config) {
        ProbeStartedKeepsOk(t, ThreadOf(w, t), TraceOf(w, t), w.now, w.core.config, w.failureBound);
      }
    }
  }

  lemma AnsweredThread(w: World, t: ThreadId, answer: Answer)
    requires t in w.probes && ProbeCurrent(ThreadOf(w, t), w.probes[t])
    ensures var w', th := AnswerWorld(w, t, answer), ThreadOf(w, t);
      var after := Answered(th, answer, w.now, w.core.config);
      ThreadOf(w', t) == after && TraceOf(w', t) == Noted(AnsweredTrace(TraceOf(w, t), th, answer, w.now), th, after)
  {
  }

  lemma StaleAnswer(w: World, t: ThreadId, answer: Answer)
    requires t in w.probes && !ProbeCurrent(ThreadOf(w, t), w.probes[t])
    ensures var w' := AnswerWorld(w, t, answer);
      ThreadOf(w', t) == ThreadOf(w, t) && TraceOf(w', t) == Noted(TraceOf(w, t), ThreadOf(w, t), ThreadOf(w, t))
  {
  }

  lemma AnswerLeavesOthers(w: World, t0: ThreadId, answer: Answer, t: ThreadId)
    requires t != t0
    ensures ThreadOf(AnswerWorld(w, t0, answer), t) == ThreadOf(w, t)
        && TraceOf(AnswerWorld(w, t0, answer), t) == TraceOf(w, t)
  {
  }

  lemma AnswerKeepsThread(w: World, t0: ThreadId, answer: Answer, t: ThreadId)
    requires WorldOk(w) && t0 in w.probes
    ensures var w' := AnswerWorld(w, t0, answer); ThreadOk(t, ThreadOf(w', t), TraceOf(w', t), w.now, w.failureBound)
  {
    assert ThreadOk(t, ThreadOf(w, t), TraceOf(w, t), w.now, w.failureBound);
    if t != t0 {
      AnswerLeavesOthers(w, t0, answer, t);
    } else if ProbeCurrent(ThreadOf(w, t), w.probes[t]) {
      AnsweredThread(w, t, answer);
      AnsweredKeepsOk(t, ThreadOf(w, t), TraceOf(w, t), answer, w.now, w.core.config, w.failureBound);
    } else {
      StaleAnswer(w, t, answer);
      NothingKeepsOk(t, ThreadOf(w, t), TraceOf(w, t), w.now, w.failureBound);
    }
  }

  lemma AnswerKeepsThreads(w: World, t0: ThreadId, answer: Answer)
    requires WorldOk(w) && t0 in w.probes
    ensures ThreadsOk(AnswerWorld(w, t0, answer))
  {
    var w' := AnswerWorld(w, t0, answer);
    forall t: ThreadId ensures ThreadOk(t, ThreadOf(w', t), TraceOf(w', t), w'.now, w'.failureBound) {
      AnswerKeepsThread(w, t0, answer, t);
    }
  }

  lemma FinishedThread(w: World, i: nat, result: Result, at: Time)
    requires i < |w.tasks| && StillCurrent(w.core, w.tasks[i].job) && w.tasks[i].job.RecoveryJob?
    ensures var w', t := FinishWorld(w, i, result, at), w.tasks[i].job.thread;
      var after := RecoveryFinished(ThreadOf(w, t), result, at, w.core.config);
      ThreadOf(w', t) == after && TraceOf(w', t) == Noted(TraceOf(w, t), ThreadOf(w, t), after)
  {
  }

  lemma BlockedThread(w: World, i: nat, result: Result, at: Time)
    requires i < |w.tasks| && StillCurrent(w.core, w.tasks[i].job) && w.tasks[i].job.GoalBlockJob?
    ensures var w', t := FinishWorld(w, i, result, at), w.tasks[i].job.thread;
      var after := GoalBlockFinished(ThreadOf(w, t), result, at, w.core.config);
      && ThreadOf(w', t) == after
      && TraceOf(w', t) == Noted(TraceOf(w, t).(goalRuns := TraceOf(w, t).goalRuns + 1), ThreadOf(w, t), after)
  {
  }

  lemma StaleResult(w: World, i: nat, result: Result, at: Time)
    requires i < |w.tasks| && !StillCurrent(w.core, w.tasks[i].job)
    ensures var w', t := FinishWorld(w, i, result, at), w.tasks[i].job.thread;
      ThreadOf(w', t) == ThreadOf(w, t) && TraceOf(w', t) == Noted(TraceOf(w, t), ThreadOf(w, t), ThreadOf(w, t))
  {
  }

  lemma FinishSparesOthers(w: World, i: nat, result: Result, at: Time, t: ThreadId)
    requires i < |w.tasks| && t != w.tasks[i].job.thread
    ensures ThreadOf(FinishWorld(w, i, result, at), t) == ThreadOf(w, t)
        && TraceOf(FinishWorld(w, i, result, at), t) == TraceOf(w, t)
  {
  }

  lemma RecoveryKeepsThread(w: World, i: nat, result: Result, at: Time, t: ThreadId)
    requires WorldOk(w) && i < |w.tasks| && StillCurrent(w.core, w.tasks[i].job) && t == w.tasks[i].job.thread
    requires w.tasks[i].job.RecoveryJob?
    ensures var w' := FinishWorld(w, i, result, at); ThreadOk(t, ThreadOf(w', t), TraceOf(w', t), w.now, w.failureBound)
  {
    assert ThreadOk(t, ThreadOf(w, t), TraceOf(w, t), w.now, w.failureBound);
    FinishedThread(w, i, result, at);
    RecoveryFinishedKeepsOk(t, ThreadOf(w, t), TraceOf(w, t), result, at, w.now, w.core.config, w.failureBound);
  }

  lemma GoalBlockKeepsThread(w: World, i: nat, result: Result, at: Time, t: ThreadId)
    requires WorldOk(w) && i < |w.tasks| && StillCurrent(w.core, w.tasks[i].job) && t == w.tasks[i].job.thread
    requires w.tasks[i].job.GoalBlockJob?
    ensures var w' := FinishWorld(w, i, result, at); ThreadOk(t, ThreadOf(w', t), TraceOf(w', t), w.now, w.failureBound)
  {
    assert ThreadOk(t, ThreadOf(w, t), TraceOf(w, t), w.now, w.failureBound);
    BlockedThread(w, i, result, at);
    GoalBlockFinishedKeepsOk(t, ThreadOf(w, t), TraceOf(w, t), w.tasks[i].job.key, result, at, w.now, w.core.config,
                             w.failureBound);
  }

  lemma FinishKeepsThread(w: World, i: nat, result: Result, at: Time, t: ThreadId)
    requires WorldOk(w) && i < |w.tasks|
    ensures var w' := FinishWorld(w, i, result, at); ThreadOk(t, ThreadOf(w', t), TraceOf(w', t), w.now, w.failureBound)
  {
    assert ThreadOk(t, ThreadOf(w, t), TraceOf(w, t), w.now, w.failureBound);
    if t != w.tasks[i].job.thread {
      FinishSparesOthers(w, i, result, at, t);
    } else if !StillCurrent(w.core, w.tasks[i].job) {
      StaleResult(w, i, result, at);
      NothingKeepsOk(t, ThreadOf(w, t), TraceOf(w, t), w.now, w.failureBound);
    } else if w.tasks[i].job.RecoveryJob? {
      RecoveryKeepsThread(w, i, result, at, t);
    } else {
      GoalBlockKeepsThread(w, i, result, at, t);
    }
  }

  lemma FinishKeepsThreads(w: World, i: nat, result: Result, at: Time)
    requires WorldOk(w) && i < |w.tasks|
    ensures ThreadsOk(FinishWorld(w, i, result, at))
  {
    var w' := FinishWorld(w, i, result, at);
    forall t: ThreadId ensures ThreadOk(t, ThreadOf(w', t), TraceOf(w', t), w'.now, w'.failureBound) {
      FinishKeepsThread(w, i, result, at, t);
    }
  }
}
