/** How long a retry waits: the due time of every retry of every run, and that nothing is sent before it. */
module Waits {
  import opened Types
  import opened Backoff
  import opened ThreadSteps
  import opened Core
  import opened World
  import opened Invariant
  import opened Safety
  import opened Preservation
  import opened RunInvariant
  import opened Theorems
  import opened Chains
  import opened Rules
  import opened Histories
  import opened Outcomes
  import opened TickOutcomes
  import opened JobOutcomes
  import opened Ends

  /** The failed calls in a row of the retry that is out. */
  function FailedCalls(th: ThreadState): int {
    if th.awaiting.Some? then th.awaiting.value.retry.dispatchFailures else 0
  }

  /** When a retry that starts to wait by this change is due: after the delay for its place in the row of attempts
      without progress, or for its failed calls in a row; at once if the user, a transport or a restart of the process
      asks for it. */
  function DueFrom(w: World, th: ThreadState, change: Change): Time {
    match change
    case ByEvent(_) => w.now + ClosedForm(NextWithoutProgress(th), w.core.config)
    case ByAnswer(_) => w.now + ClosedForm(NextWithoutProgress(th), w.core.config)
    case ByResult(result, at) => at + ClosedForm(if result.UserActive? then 0 else FailedCalls(th) + 1, w.core.config)
    case ByExpiry(_) => w.now + ClosedForm(FailedCalls(th) + 1, w.core.config)
    case ByRestart(at) => at
    case _ => w.now
  }

  /** The change makes a retry wait, or the user expedites one that waits. */
  predicate Schedules(w: World, th: ThreadState, change: Change) {
    Changed(w, th, change).pending.Some? && (th.pending.None? || change == ByCommand(RetryNow))
  }

  lemma EventDue(th: ThreadState, item: Item, now: Time, cfg: Config)
    requires ChainOk(th) && ValidConfig(cfg) && After(th, item, now, cfg).pending.Some?
    ensures After(th, item, now, cfg).pending.value.dueAt ==
            if th.pending.Some? then th.pending.value.dueAt else now + Delay(NextWithoutProgress(th), cfg)
  {
    match item.event
    case TaskComplete(turn, _, c) =>
      if Fails(th, turn, c) { FailureOutcome(th, item, now, cfg); }
      else if GoalGivenUp(th) || (!OfAborted(th, turn) && (!Concerns(th, turn) || (th.pending.Some? && !Succeeds(c)))) {
        IgnoredCompletion(th, item, now, cfg);
      } else { SuccessOutcome(th, item, now, cfg); }
    case GoalUpdated(_, _, _) => UpdateOutcome(th, item, now, cfg);
    case _ =>
  }

  lemma AnswerDue(th: ThreadState, answer: Answer, now: Time, cfg: Config)
    requires ChainOk(th) && th.awaiting.Some? && Answered(th, answer, now, cfg).pending.Some?
    ensures Answered(th, answer, now, cfg).pending.value.dueAt == now + Delay(NextWithoutProgress(th), cfg)
  {
  }

  lemma ResultDue(th: ThreadState, result: Result, at: Time, cfg: Config)
    requires ChainOk(th) && th.awaiting.Some? && RecoveryFinished(th, result, at, cfg).pending.Some?
    ensures RecoveryFinished(th, result, at, cfg).pending.value.dueAt ==
            at + Delay(if result.UserActive? then 0 else FailedCalls(th) + 1, cfg)
  {
    match result
    case NotApplicable(_, _) => RefusedCall(th, result, at, cfg);
    case Accepted(_, _, _) => AcceptedCall(th, result, at, cfg);
    case _ => FailedCall(th, result, at, cfg);
  }

  lemma DispatchDelaysNothing(c: Core, now: Time, mode: DispatchMode, th: ThreadState, active: bool, picked: bool)
    requires ChainOk(th) && AfterDispatch(c, now, mode, th, active, picked).pending.Some?
    ensures AfterDispatch(c, now, mode, th, active, picked).pending == th.pending
  {
  }

  lemma OthersDue(w: World, th: ThreadState, change: Change)
    requires ChainOk(th) && Changed(w, th, change).pending.Some?
    requires !change.ByEvent? && !change.ByDispatch? && !change.ByExpiry?
    requires (change.ByResult? || change.ByAnswer?) ==> th.awaiting.None?
    ensures Changed(w, th, change).pending.value.dueAt ==
            if Schedules(w, th, change) then DueFrom(w, th, change) else th.pending.value.dueAt
  {
  }

  /** A change that makes a retry wait gives it exactly this due time, and no other change moves a due time. */
  lemma DueExactly(w: World, th: ThreadState, change: Change)
    requires ChainOk(th) && ValidConfig(w.core.config) && Changed(w, th, change).pending.Some?
    ensures th.pending.None? ==> Schedules(w, th, change)
    ensures Changed(w, th, change).pending.value.dueAt ==
            if Schedules(w, th, change) then DueFrom(w, th, change) else th.pending.value.dueAt
  {
    DelayIs(NextWithoutProgress(th), w.core.config);
    if change.ByEvent? { EventDue(th, change.item, w.now, w.core.config); }
    else if change.ByAnswer? && th.awaiting.Some? { AnswerDue(th, change.answer, w.now, w.core.config); }
    else if change.ByResult? && th.awaiting.Some? {
      DelayIs(if change.result.UserActive? then 0 else FailedCalls(th) + 1, w.core.config);
      ResultDue(th, change.result, change.at, w.core.config);
    } else if change.ByExpiry? {
      DelayIs(FailedCalls(th) + 1, w.core.config);
      ExpiryOutcome(th, change.active, w.now, w.core.config);
    } else if change.ByDispatch? {
      DispatchDelaysNothing(w.core, w.now, change.mode, th, change.active, change.picked);
    } else { OthersDue(w, th, change); }
  }

  // ---- runs ----

  function DueAfter(w: World, th: ThreadState, change: Change, due: Time): Time {
    if Schedules(w, th, change) then DueFrom(w, th, change) else due
  }

  /** Whenever the retry of the thread is sent, its due time has come: `due` is the newest one that `DueFrom` gave. */
  ghost predicate Waited(w: World, steps: seq<Step>, t: ThreadId, due: Time)
    decreases |steps|
  {
    steps == [] ||
    ((steps[0].DispatchDue? && t in steps[0].picks ==> due <= w.now) &&
     Waited(Apply(w, steps[0]), steps[1..], t, DueAfter(w, ThreadOf(w, t), ChangeOf(w, steps[0], t), due)))
  }

  predicate DueIs(th: ThreadState, due: Time) { th.pending.Some? ==> th.pending.value.dueAt == due }

  lemma StepKeepsDue(w: World, step: Step, t: ThreadId, due: Time)
    requires WorldOk(w) && DueIs(ThreadOf(w, t), due)
    ensures DueIs(ThreadOf(Apply(w, step), t), DueAfter(w, ThreadOf(w, t), ChangeOf(w, step, t), due))
  {
    ThreadChain(w, t);
    StepChangesThread(w, step, t);
    if ThreadOf(Apply(w, step), t).pending.Some? { DueExactly(w, ThreadOf(w, t), ChangeOf(w, step, t)); }
  }

  lemma {:induction false} RunWaits(w: World, steps: seq<Step>, t: ThreadId, due: Time)
    requires WorldOk(w) && ValidRun(w, steps) && DueIs(ThreadOf(w, t), due)
    ensures Waited(w, steps, t, due)
    decreases |steps|
  {
    if steps != [] {
      var step := steps[0];
      if step.DispatchDue? && t in step.picks { PicksDue(w.core, w.now, step.goals, step.picks); }
      StepKeepsDue(w, step, t, due);
      StepKeepsOk(w, step);
      RunWaits(Apply(w, step), steps[1..], t, DueAfter(w, ThreadOf(w, t), ChangeOf(w, step, t), due));
    }
  }

  /** In every run no retry is sent before the due time that its schedule gave it. */
  lemma EveryRetryWaits(w: World, cfg: Config, bound: int, steps: seq<Step>, t: ThreadId)
    requires IsRun(w, cfg, bound, steps)
    ensures Waited(w, steps, t, 0)
  {
    InitOk(w, cfg, bound);
    RunWaits(w, steps, t, 0);
  }

  // ---- the delay of a failure ----

  /** Something lets the failure go before its delay is over: the user, a reopening, a turn that is adopted for it, or
      its event once more. */
  predicate Hastens(w: World, th: ThreadState, change: Change, key: EventKey) {
    || change == ByCommand(RetryNow) || change == ByCommand(RestartRetry)
    || (change.ByReopen? && th.stopped.Some? && Live(Changed(w, th, change)))
    || (change.ByEvent? && change.item.event.TaskStarted? && th.pending.Some?)
    || FailsWith(change, key)
  }

  ghost predicate NeverHastened(w: World, steps: seq<Step>, t: ThreadId, key: EventKey)
    decreases |steps|
  {
    steps == [] || (!Hastens(w, ThreadOf(w, t), ChangeOf(w, steps[0], t), key)
        && NeverHastened(Apply(w, steps[0]), steps[1..], t, key))
  }

  /** As long as the thread is about this failure, it waits until then, or then is past. */
  predicate Patient(th: ThreadState, key: EventKey, due: Time, now: Time) {
    About(th, key) ==> (th.pending.Some? ==> due <= th.pending.value.dueAt) && (th.awaiting.Some? ==> due <= now)
  }

  /** The change happens no earlier than the tick, and a dispatch picks only what is due. */
  predicate Timely(w: World, th: ThreadState, change: Change) {
    && (change.ByResult? ==> w.now <= change.at) && (change.ByRestart? ==> w.now <= change.at)
    && (change.ByDispatch? && change.picked ==> th.pending.Some? && th.pending.value.dueAt <= w.now)
  }

  lemma StepIsTimely(w: World, step: Step, t: ThreadId)
    requires WorldOk(w) && Enabled(w, step)
    ensures Timely(w, ThreadOf(w, t), ChangeOf(w, step, t))
  {
    if step.DispatchDue? { PicksDue(w.core, w.now, step.goals, step.picks); }
  }

  lemma DueFromIsLater(w: World, th: ThreadState, change: Change)
    requires ValidConfig(w.core.config) && Timely(w, th, change)
    ensures w.now <= DueFrom(w, th, change)
  {
    DelayIs(NextWithoutProgress(th), w.core.config);
    DelayIs(FailedCalls(th) + 1, w.core.config);
    DelayIs(0, w.core.config);
  }

  lemma EventAwaits(th: ThreadState, item: Item, now: Time, cfg: Config)
    requires ChainOk(th) && th.awaiting.None? && After(th, item, now, cfg).awaiting.Some?
    ensures item.event.TaskStarted? && th.pending.Some?
  {
    match item.event
    case TaskComplete(turn, at, completion) =>
      CompletionDoesNotAwait(th, FailureOf(item), now, cfg);
    case _ =>
  }

  lemma CompletionDoesNotAwait(th: ThreadState, f: Failure, now: Time, cfg: Config)
    requires th.awaiting.None?
    ensures Written(th, OnTaskComplete(th, f, now, cfg)).awaiting.None?
  {
  }

  /** A retry is out only after a dispatch that picked it, or after a start that was adopted for it. */
  lemma AwaitingComesFrom(w: World, th: ThreadState, change: Change)
    requires ChainOk(th) && th.awaiting.None? && Changed(w, th, change).awaiting.Some?
    ensures th.pending.Some?
        && ((change.ByDispatch? && change.picked) || (change.ByEvent? && change.item.event.TaskStarted?))
  {
    if change.ByEvent? { EventAwaits(th, change.item, w.now, w.core.config); }
  }

  /** A stop becomes a retry of the same failure again only by the user, by a reopening, or by its event. */
  lemma RevivedBy(w: World, th: ThreadState, change: Change, key: EventKey)
    requires ChainOk(th) && th.stopped.Some? && Live(Changed(w, th, change)) && About(Changed(w, th, change), key)
    ensures Hastens(w, th, change, key)
  {
    if change.ByEvent? { RevivedByEvent(th, change.item, w.now, w.core.config, key); }
    else { RevivedOtherwise(w, th, change); }
  }

  lemma RevivedByEvent(th: ThreadState, item: Item, now: Time, cfg: Config, key: EventKey)
    requires ChainOk(th) && th.stopped.Some? && Live(After(th, item, now, cfg)) && About(After(th, item, now, cfg), key)
    ensures FailsWith(ByEvent(item), key)
  {
    match item.event
    case TaskComplete(turn, at, completion) =>
      CompletionRevives(th, Failure(KeyOf(item), turn, at, completion, item.codexHome, item.rolloutPath), now, cfg);
    case GoalUpdated(at, status, updatedAt) => EventProofs.GoalUpdateShape(th, at, status, updatedAt);
    case _ =>
  }

  lemma RevivedOtherwise(w: World, th: ThreadState, change: Change)
    requires ChainOk(th) && th.stopped.Some? && Live(Changed(w, th, change)) && !change.ByEvent?
    ensures change == ByCommand(RestartRetry) || change.ByReopen?
  {
  }

  lemma ChangeKeepsPatient(w: World, th: ThreadState, change: Change, key: EventKey, due: Time, later: Time)
    requires ChainOk(th) && ValidConfig(w.core.config) && Patient(th, key, due, w.now) && w.now <= later
    requires !Hastens(w, th, change, key) && Timely(w, th, change)
    ensures Patient(Changed(w, th, change), key, due, later)
  {
    var after := Changed(w, th, change);
    if About(after, key) {
      FailureComesFromCompletion(w, th, change, key);
      if Live(after) && th.stopped.Some? { RevivedBy(w, th, change, key); }
      if after.pending.Some? {
        DueExactly(w, th, change);
        DueFromIsLater(w, th, change);
      } else if after.awaiting.Some? && th.awaiting.None? {
        AwaitingComesFrom(w, th, change);
      }
    }
  }

  lemma {:induction false} PatientRun(w: World, steps: seq<Step>, t: ThreadId, key: EventKey, due: Time, i: nat)
    requires WorldOk(w) && ValidRun(w, steps) && Patient(ThreadOf(w, t), key, due, w.now)
    requires NeverHastened(w, steps, t, key)
    requires |w.log| <= i < |Run(w, steps).log|
    requires Run(w, steps).log[i].thread == t && Run(w, steps).log[i].retry.fault.key == key
    ensures due <= Run(w, steps).log[i].at
    decreases |steps|
  {
    if steps != [] {
      var step := steps[0];
      var v := Apply(w, step);
      OnlyDispatchLogs(w, step);
      RunLogGrows(v, steps[1..]);
      ThreadChain(w, t);
      StepIsTimely(w, step, t);
      if i < |v.log| {
        NewEntryIs(w, step.picks, v.log[i]);
      } else {
        StepKeepsPatient(w, step, t, key, due);
        StepKeepsOk(w, step);
        PatientRun(v, steps[1..], t, key, due, i);
      }
    }
  }

  lemma StepKeepsPatient(w: World, step: Step, t: ThreadId, key: EventKey, due: Time)
    requires WorldOk(w) && Enabled(w, step) && Patient(ThreadOf(w, t), key, due, w.now)
    requires !Hastens(w, ThreadOf(w, t), ChangeOf(w, step, t), key)
    ensures Patient(ThreadOf(Apply(w, step), t), key, due, Apply(w, step).now)
  {
    ThreadChain(w, t);
    StepChangesThread(w, step, t);
    StepIsTimely(w, step, t);
    ClockAdvances(w, step);
    ChangeKeepsPatient(w, ThreadOf(w, t), ChangeOf(w, step, t), key, due, Apply(w, step).now);
  }

  /** No job for a failure is sent before the time at which it was handled plus the delay for its place in the row of
      attempts without progress, unless something hastens it. */
  lemma BackOffIsWaited(w: World, cfg: Config, bound: int, before: seq<Step>, item: Item, steps: seq<Step>, i: nat)
    requires IsRun(w, cfg, bound, before) && New(Run(w, before), item)
    requires var th := ThreadOf(Run(w, before), item.thread);
      th.pending.None? && ThreadOf(Apply(Run(w, before), Observe(item)), item.thread).pending.Some?
    requires var waits := Apply(Run(w, before), Observe(item));
      && ValidRun(waits, steps) && NeverHastened(waits, steps, item.thread, KeyOf(item))
      && |waits.log| <= i < |Run(waits, steps).log| && Run(waits, steps).log[i].thread == item.thread
      && Run(waits, steps).log[i].retry.fault.key == KeyOf(item)
    ensures var v := Run(w, before);
      var waits := Apply(v, Observe(item));
      Run(waits, steps).log[i].at >=
        v.now + ClosedForm(ThreadOf(waits, item.thread).pending.value.retry.consecutive, v.core.config)
  {
    var v := Run(w, before);
    var waits := Apply(v, Observe(item));
    ReachedOk(w, cfg, bound, before);
    ThreadChain(v, item.thread);
    StepKeepsOk(v, Observe(item));
    StepChangesThread(v, Observe(item), item.thread);
    DueExactly(v, ThreadOf(v, item.thread), ByEvent(item));
    FirstWait(ThreadOf(v, item.thread), item, v.now, v.core.config);
    PatientRun(waits, steps, item.thread, KeyOf(item),
               v.now + ClosedForm(ThreadOf(waits, item.thread).pending.value.retry.consecutive, v.core.config), i);
  }

  lemma FirstWait(th: ThreadState, item: Item, now: Time, cfg: Config)
    requires ChainOk(th) && ValidConfig(cfg) && th.pending.None? && After(th, item, now, cfg).pending.Some?
    ensures After(th, item, now, cfg).pending.value.retry.consecutive == NextWithoutProgress(th)
  {
    match item.event
    case TaskComplete(turn, _, c) =>
      if Fails(th, turn, c) { FailureOutcome(th, item, now, cfg); }
      else if GoalGivenUp(th) || (!OfAborted(th, turn) && !Concerns(th, turn)) {
        IgnoredCompletion(th, item, now, cfg);
      } else { SuccessOutcome(th, item, now, cfg); }
    case GoalUpdated(_, _, _) => UpdateOutcome(th, item, now, cfg);
    case _ =>
  }
}
