/** Dispatch, jobs, budgets and probes: the rest of the system invariant, and the invariant of every run. */
module Preservation {
  import opened Types
  import opened Policy
  import opened ThreadSteps
  import opened Core
  import opened World
  import opened Invariant
  import opened StepProofs
  import opened Safety
  import EventProofs

  // ---- dispatch ----

  // What a choice of slots guarantees.

  lemma GoalsDue(c: Core, now: Time, goals: seq<ThreadId>, picks: seq<ThreadId>)
    requires DispatchChoice(c, now, goals, picks)
    ensures NoRepeats(goals) && (goals == [] || |c.active| + |goals| <= c.config.maxParallelRetries)
    ensures forall t :: t in goals ==> GoalStopDue(c, t, now)
  {
    forall t | t in goals ensures GoalStopDue(c, t, now) {
      assert t in Elements(goals);
      assert t in GoalStopsDue(c, now);
    }
  }

  lemma PicksDue(c: Core, now: Time, goals: seq<ThreadId>, picks: seq<ThreadId>)
    requires DispatchChoice(c, now, goals, picks)
    ensures NoRepeats(picks) && (picks == [] || |c.active| + |goals| + |picks| <= c.config.maxParallelRetries)
    ensures picks != [] ==> ModeAfterGoals(c, goals).Sending?
    ensures forall t :: t in picks ==>
      t in c.threads && t !in WithGoalJobs(c, goals).active && Candidate(c.threads[t], false, now)
  {
    forall t | t in picks
      ensures t in c.threads && t !in WithGoalJobs(c, goals).active && Candidate(c.threads[t], false, now)
    {
      assert t in Elements(picks);
      assert t in Candidates(WithGoalJobs(c, goals), now);
    }
  }

  // ---- threads and log ----

  /** What dispatch does to one thread. */
  function AfterDispatch(c: Core, now: Time, mode: DispatchMode, th: ThreadState, active: bool,
      picked: bool): ThreadState {
    if mode.Sending? then LaunchThread(th, active, picked, now, c.config)
    else if mode.NoTransport? && DuePending(th, now) then StopPending(th, now, BlockedReason(c))
    else th
  }

  lemma LaunchOfThread(c: Core, now: Time, picks: seq<ThreadId>, t: ThreadId)
    ensures Lookup(Launch(c, picks, now).threads, t) ==
            LaunchThread(Lookup(c.threads, t), t in c.active, t in picks, now, c.config)
  {
  }

  lemma StopDueOfThread(c: Core, now: Time, t: ThreadId)
    ensures Lookup(StopDue(c, now).threads, t) ==
            if DuePending(Lookup(c.threads, t), now) then StopPending(Lookup(c.threads, t), now, BlockedReason(c))
                else Lookup(c.threads, t)
  {
  }

  lemma DispatchOfThread(c: Core, now: Time, goals: seq<ThreadId>, picks: seq<ThreadId>, t: ThreadId)
    ensures Lookup(Dispatch(c, now, goals, picks).threads, t) ==
            AfterDispatch(c, now, ModeAfterGoals(c, goals), Lookup(c.threads, t), t in WithGoalJobs(c, goals).active,
                t in picks)
  {
    var d := WithGoalJobs(c, goals);
    match ModeAfterGoals(c, goals)
    case Sending => LaunchOfThread(d, now, picks, t);
    case NoTransport => StopDueOfThread(d, now, t);
    case _ =>
  }

  lemma AfterDispatchOk(t: ThreadId, th: ThreadState, tr: Trace, c: Core, mode: DispatchMode, active: bool,
      picked: bool, now: Time, bound: int)
    requires ThreadOk(t, th, tr, now, bound) && bound > 0 && (picked ==> mode.Sending?)
    ensures var after := AfterDispatch(c, now, mode, th, active, picked);
      ThreadOk(t, after, Noted(tr, th, after), now, bound)
  {
    if picked && th.pending.Some? {
      DispatchedKeepsOk(t, th, tr, now, c.config, bound);
    } else if mode.Sending? {
      SweptKeepsOk(t, th, tr, active, now, now, bound);
    } else if mode.NoTransport? && DuePending(th, now) {
      StopPendingKeepsOk(t, th, tr, now, BlockedReason(c), now, bound);
    } else {
      NothingKeepsOk(t, th, tr, now, bound);
    }
  }

  lemma DispatchTrace(w: World, goals: seq<ThreadId>, picks: seq<ThreadId>, t: ThreadId)
    ensures var w' := DispatchWorld(w, goals, picks);
      TraceOf(w', t) == Noted(TraceOf(w, t), ThreadOf(w, t), ThreadOf(w', t))
  {
    DispatchOfThread(w.core, w.now, goals, picks, t);
    if t !in w.traces.Keys + w.core.threads.Keys {
      assert Noted(NewTrace, EmptyThread, EmptyThread) == NewTrace;
    }
  }

  lemma DispatchKeepsThreads(w: World, goals: seq<ThreadId>, picks: seq<ThreadId>)
    requires WorldOk(w) && DispatchChoice(w.core, w.now, goals, picks)
    ensures ThreadsOk(DispatchWorld(w, goals, picks))
  {
    var w' := DispatchWorld(w, goals, picks);
    PicksDue(w.core, w.now, goals, picks);
    forall t: ThreadId ensures ThreadOk(t, ThreadOf(w', t), TraceOf(w', t), w'.now, w'.failureBound) {
      DispatchOfThread(w.core, w.now, goals, picks, t);
      DispatchTrace(w, goals, picks, t);
      AfterDispatchOk(t, ThreadOf(w, t), TraceOf(w, t), w.core, ModeAfterGoals(w.core, goals),
                      t in WithGoalJobs(w.core, goals).active, t in picks, w.now, w.failureBound);
    }
  }

  lemma CandidateEntryOk(w: World, t: ThreadId)
    requires WorldOk(w) && w.phase.Probing? && t in w.core.threads && Candidate(w.core.threads[t], false, w.now)
    ensures EntryOk(Entry(t, w.core.threads[t].pending.value.retry, w.now, w.core.config, w.reloaded,
        w.core.threads[t], TraceOf(w, t)))
  {
    assert ThreadOk(t, ThreadOf(w, t), TraceOf(w, t), w.now, w.failureBound);
    assert w.reloaded ==> PendingWithinOrLater(w.core.threads[t], w.now, w.core.config);
  }

  /** Every new log entry is within the budget, before the deadline and past no hold. */
  lemma {:induction false} NewEntriesOk(w: World, picks: seq<ThreadId>)
    requires WorldOk(w) && w.phase.Probing?
    requires forall t :: t in picks ==> t in w.core.threads && Candidate(w.core.threads[t], false, w.now)
    ensures forall e :: e in Entries(w, picks) ==> EntryOk(e)
  {
    if picks != [] {
      CandidateEntryOk(w, picks[0]);
      NewEntriesOk(w, picks[1..]);
    }
  }

  lemma DispatchKeepsLog(w: World, goals: seq<ThreadId>, picks: seq<ThreadId>)
    requires WorldOk(w) && w.phase.Probing? && DispatchChoice(w.core, w.now, goals, picks)
    ensures LogOk(DispatchWorld(w, goals, picks))
  {
    PicksDue(w.core, w.now, goals, picks);
    NewEntriesOk(w, picks);
  }

  // ---- jobs ----

  /** `slots` threads without a job get one each. */
  lemma AddedJobsMatch(tasks: seq<Task>, active: map<ThreadId, Job>, slots: seq<ThreadId>, added: seq<Task>,
      active': map<ThreadId, Job>)
    requires JobsMatch(tasks, active) && NoRepeats(slots) && |added| == |slots|
    requires forall i :: 0 <= i < |slots| ==>
      slots[i] !in active && slots[i] in active' && added[i].job == active'[slots[i]] && added[i].job.thread == slots[i]
    requires forall t :: t in active ==> t in active' && active'[t] == active[t]
    requires forall t :: t in active' ==> t in active || t in slots
    ensures JobsMatch(tasks + added, active')
  {
    var all := tasks + added;
    forall t | t in active' ensures exists i :: 0 <= i < |all| && all[i].job.thread == t {
      if t in active {
        var i :| 0 <= i < |tasks| && tasks[i].job.thread == t;
        assert all[i].job.thread == t;
      } else {
        var k :| 0 <= k < |slots| && slots[k] == t;
        assert all[|tasks| + k].job.thread == t;
      }
    }
  }

  /** A finished job leaves with its slot. */
  lemma RemovedJobMatches(tasks: seq<Task>, active: map<ThreadId, Job>, i: nat)
    requires JobsMatch(tasks, active) && i < |tasks|
    ensures JobsMatch(Without(tasks, i), active - {tasks[i].job.thread})
  {
    var rest := Without(tasks, i);
    forall t | t in active - {tasks[i].job.thread} ensures exists k :: 0 <= k < |rest| && rest[k].job.thread == t {
      var j :| 0 <= j < |tasks| && tasks[j].job.thread == t;
      assert rest[if j < i then j else j - 1] == tasks[j];
    }
  }

  lemma StartedJobMatches(tasks: seq<Task>, active: map<ThreadId, Job>, i: nat)
    requires JobsMatch(tasks, active) && i < |tasks|
    ensures JobsMatch(tasks[i := Task(tasks[i].job, true)], active)
  {
    var tasks' := tasks[i := Task(tasks[i].job, true)];
    forall t | t in active ensures exists k :: 0 <= k < |tasks'| && tasks'[k].job.thread == t {
      var j :| 0 <= j < |tasks| && tasks[j].job.thread == t;
      assert tasks'[j].job == tasks[j].job;
    }
  }

  lemma {:induction false} LaunchedJobs(active: map<ThreadId, Job>, slots: seq<ThreadId>)
    requires forall t :: t in slots ==> t in active
    ensures |Launched(active, slots)| == |slots|
    ensures forall i :: 0 <= i < |slots| ==> Launched(active, slots)[i] == Task(active[slots[i]], false)
  {
    if slots != [] {
      LaunchedJobs(active, slots[1..]);
    }
  }

  /** `later` has the same jobs as `active` and a new one for each of `slots`. */
  ghost predicate Extends(active: map<ThreadId, Job>, slots: seq<ThreadId>, later: map<ThreadId, Job>) {
    && (forall t :: t in later <==> t in active || t in slots)
    && (forall t :: t in slots ==> t !in active && t in later && later[t].thread == t)
    && (forall t :: t in active ==> t in later && later[t] == active[t])
  }

  lemma GoalJobsExtend(c: Core, goals: seq<ThreadId>, now: Time)
    requires forall t :: t in goals ==> GoalStopDue(c, t, now)
    ensures Extends(c.active, goals, WithGoalJobs(c, goals).active)
  {
  }

  lemma LaunchExtends(c: Core, picks: seq<ThreadId>, now: Time)
    requires forall t :: t in picks ==> t in c.threads && c.threads[t].pending.Some? && t !in c.active
    ensures Extends(c.active, picks, Launch(c, picks, now).active)
  {
  }

  /** The slots are distinct threads without a job, and `active` grows by exactly them. */
  lemma SlotsTaken(c: Core, now: Time, goals: seq<ThreadId>, picks: seq<ThreadId>)
    requires DispatchChoice(c, now, goals, picks)
    ensures NoRepeats(goals + picks) && Extends(c.active, goals + picks, Dispatch(c, now, goals, picks).active)
    ensures goals + picks != [] ==> |c.active| + |goals + picks| <= c.config.maxParallelRetries
  {
    GoalsDue(c, now, goals, picks);
    PicksDue(c, now, goals, picks);
    GoalJobsExtend(c, goals, now);
    NoRepeatsConcat(goals, picks);
    if picks == [] {
      assert goals + picks == goals;
      RestingActive(c, now, goals);
    } else {
      PicksTaken(c, now, goals, picks);
    }
  }

  lemma PicksTaken(c: Core, now: Time, goals: seq<ThreadId>, picks: seq<ThreadId>)
    requires Extends(c.active, goals, WithGoalJobs(c, goals).active) && ModeAfterGoals(c, goals).Sending?
    requires forall t :: t in picks ==>
      t in c.threads && t !in WithGoalJobs(c, goals).active && c.threads[t].pending.Some?
    ensures Extends(c.active, goals + picks, Dispatch(c, now, goals, picks).active)
  {
    var d := WithGoalJobs(c, goals);
    LaunchExtends(d, picks, now);
    ExtendsTwice(c.active, goals, d.active, picks, Launch(d, picks, now).active);
  }

  lemma RestingActive(c: Core, now: Time, goals: seq<ThreadId>)
    ensures Dispatch(c, now, goals, []).active == WithGoalJobs(c, goals).active
  {
    LaunchesNothing(WithGoalJobs(c, goals), now);
  }

  lemma LaunchesNothing(c: Core, now: Time)
    ensures Launch(c, [], now).active == c.active && StopDue(c, now).active == c.active
  {
  }

  lemma ExtendsTwice(a: map<ThreadId, Job>, x: seq<ThreadId>, b: map<ThreadId, Job>, y: seq<ThreadId>, c: map<ThreadId,
      Job>)
    requires Extends(a, x, b) && Extends(b, y, c)
    ensures Extends(a, x + y, c)
  {
  }

  lemma NoRepeatsConcat(x: seq<ThreadId>, y: seq<ThreadId>)
    requires NoRepeats(x) && NoRepeats(y) && forall t :: t in y ==> t !in x
    ensures NoRepeats(x + y)
  {
    forall i, j | 0 <= i < j < |x + y| ensures (x + y)[i] != (x + y)[j] {
      if i < |x| <= j {
        assert y[j - |x|] in y && x[i] in x;
      } else if |x| <= i {
        assert y[i - |x|] != y[j - |x|];
      }
    }
  }

  lemma DispatchKeepsTasks(w: World, goals: seq<ThreadId>, picks: seq<ThreadId>)
    requires TasksOk(w) && DispatchChoice(w.core, w.now, goals, picks)
    ensures TasksOk(DispatchWorld(w, goals, picks))
  {
    var active := Dispatch(w.core, w.now, goals, picks).active;
    SlotsTaken(w.core, w.now, goals, picks);
    LaunchedJobs(active, goals + picks);
    AddedJobsMatch(w.tasks, w.core.active, goals + picks, Launched(active, goals + picks), active);
  }

  /** Dispatch never takes more slots than the configuration allows. */
  lemma SlotsAreBounded(c: Core, now: Time, goals: seq<ThreadId>, picks: seq<ThreadId>)
    requires DispatchChoice(c, now, goals, picks)
    ensures var active := Dispatch(c, now, goals, picks).active;
      active.Keys == c.active.Keys || |active| <= c.config.maxParallelRetries
  {
    SlotsTaken(c, now, goals, picks);
    ExtendedSize(c.active, goals + picks, Dispatch(c, now, goals, picks).active);
  }

  lemma ExtendedSize(active: map<ThreadId, Job>, slots: seq<ThreadId>, later: map<ThreadId, Job>)
    requires NoRepeats(slots) && Extends(active, slots, later)
    ensures later.Keys == active.Keys + Elements(slots) && |later| == |active| + |slots|
  {
    ElementsSize(slots);
    assert later.Keys == active.Keys + Elements(slots);
    assert active.Keys !! Elements(slots);
    assert |later.Keys| == |active.Keys| + |Elements(slots)|;
  }

  lemma {:induction false} ElementsSize(ts: seq<ThreadId>)
    requires NoRepeats(ts)
    ensures |Elements(ts)| == |ts|
  {
    if ts == [] {
      assert Elements(ts) == {};
    } else {
      ElementsSize(ts[1..]);
      assert Elements(ts) == {ts[0]} + Elements(ts[1..]);
    }
  }

  // ---- budget ----

  lemma ReloadIsWithin(w: World, cfg: Config, wall: Time)
    requires LoadableConfig(w, cfg)
    ensures forall t :: t in w.core.threads ==> PendingWithin(Reload(w.core, cfg, wall).threads[t], cfg)
  {
    forall t | t in w.core.threads ensures PendingWithin(Reloaded(w.core.threads[t], wall, cfg), cfg) {
      ReloadedIsWithin(w.core.threads[t], wall, cfg);
    }
  }

  lemma ReloadedIsWithin(th: ThreadState, wall: Time, cfg: Config)
    ensures PendingWithin(Reloaded(th, wall, cfg), cfg)
  {
  }

  lemma EventStaysWithin(th: ThreadState, item: Item, now: Time, cfg: Config)
    requires PendingWithin(th, cfg)
    ensures PendingWithin(Written(th, OnEvent(th, item, now, cfg)), cfg)
  {
    match item.event
    case TaskComplete(turn, at, completion) =>
      CompleteStaysWithin(th, Failure(KeyOf(item), turn, at, completion, item.codexHome, item.rolloutPath), now, cfg);
    case GoalUpdated(at, status, updatedAt) => UpdateStaysWithin(th, at, status, updatedAt, cfg);
    case _ =>
  }

  lemma UpdateStaysWithin(th: ThreadState, at: Time, status: GoalStatus, updatedAt: Time, cfg: Config)
    requires PendingWithin(th, cfg)
    ensures PendingWithin(Written(th, OnGoalUpdated(th, at, status, updatedAt)), cfg)
  {
  }

  lemma ScheduleStaysWithin(th: ThreadState, f: Failure, now: Time, attempt: int, consecutive: int, origin: Time,
      notified: bool, cfg: Config)
    requires PendingWithin(th, cfg)
    ensures PendingWithin(ScheduleFailure(th, f, now, attempt, consecutive, origin, notified, cfg), cfg)
  {
    if ClassifyCompletion(f.completion, cfg).retry { FreshLimitsAgree(f.completion, cfg); }
  }

  /** A fresh failure is scheduled only within the limits its class has under the same configuration. */
  lemma CompleteStaysWithin(th: ThreadState, f: Failure, now: Time, cfg: Config)
    requires PendingWithin(th, cfg)
    ensures PendingWithin(Written(th, OnTaskComplete(th, f, now, cfg)), cfg)
  {
    EventProofs.CompletionShape(th, f, now, cfg);
    if th.awaiting.Some? {
      var r := th.awaiting.value.retry;
      ScheduleStaysWithin(th.(currentTurnProgress := false, awaiting := None), f, now, r.attempt + 1,
                          EventProofs.NextConsecutive(th, r), r.fault.originStartedAt, r.parentNotified, cfg);
    } else {
      ScheduleStaysWithin(th.(currentTurnProgress := false), f, now, 1, 1, ExternalTurnOrigin(th, f.turn, f.at), false,
                          cfg);
    }
  }

  lemma CommandStaysWithin(th: ThreadState, kind: CommandKind, now: Time, cfg: Config)
    requires PendingWithin(th, cfg) && ValidConfig(cfg)
    ensures PendingWithin(Written(th, OnCommand(th, kind, now, cfg)), cfg)
  {
  }

  lemma ReopenStaysWithin(th: ThreadState, active: bool, now: Time, cfg: Config)
    requires PendingWithin(th, cfg)
    ensures PendingWithin(ReopenThread(th, active, now, cfg), cfg)
  {
  }

  lemma RescheduledIsLater(th: ThreadState, at: Time, reason: Reason, count: bool, now: Time, cfg: Config)
    requires th.awaiting.Some? && th.pending.None? && ValidConfig(cfg) && now <= at
    ensures PendingWithinOrLater(RescheduleAwaiting(th, at, reason, count, cfg), now, cfg)
  {
  }

  lemma AnswerStaysLater(th: ThreadState, answer: Answer, now: Time, cfg: Config)
    requires th.awaiting.Some? && th.pending.None? && ValidConfig(cfg)
    ensures PendingWithinOrLater(Answered(th, answer, now, cfg), now, cfg)
  {
  }

  lemma FinishStaysLater(th: ThreadState, result: Result, at: Time, now: Time, cfg: Config)
    requires th.awaiting.Some? && th.pending.None? && ValidConfig(cfg) && now <= at
    ensures PendingWithinOrLater(RecoveryFinished(th, result, at, cfg), now, cfg)
  {
    match result
    case Error(reason) => RescheduledIsLater(Notified(th, result), at, FailureReason(result), true, now, cfg);
    case RetryLater(reason, _) => RescheduledIsLater(Notified(th, result), at, FailureReason(result), true, now, cfg);
    case UserActive(reason, _) => RescheduledIsLater(WithoutFailures(Notified(th, result)), at, FailureReason(result),
        false, now, cfg);
    case _ =>
  }
}
