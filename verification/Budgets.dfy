/** The budget in ticks whose reload failed: it holds there too until some configuration lowers the limits. */
module Budgets {
  import opened Types
  import opened Policy
  import opened ThreadSteps
  import opened Core
  import opened World
  import opened Invariant
  import opened Safety
  import opened Preservation
  import opened RunInvariant
  import opened Theorems
  import opened Chains
  import opened Histories

  /** Neither number that the configuration allows the class gets smaller. */
  predicate NotLowered(kind: FailureClass, before: Config, after: Config) {
    && MostAttempts(kind, before) <= MostAttempts(kind, after)
    && MostWithoutProgress(kind, before) <= MostWithoutProgress(kind, after)
  }

  predicate LimitsKept(kind: FailureClass, before: Config, after: Config) {
    var b, a := LimitsFor(kind, before), LimitsFor(kind, after);
    b.attempts <= a.attempts && b.consecutive <= a.consecutive
  }

  /** Within the limits of its class, and so are the limits it carries. */
  predicate Fits(r: Retry, cfg: Config) {
    var l := LimitsFor(r.fault.kind, cfg);
    WithinLimits(r, cfg) && r.maxAttempts <= l.attempts && r.maxConsecutive <= l.consecutive
  }

  predicate ClassFits(th: ThreadState, kind: FailureClass, cfg: Config) {
    LiveRetry(th).Some? && LiveRetry(th).value.fault.kind == kind ==> Fits(LiveRetry(th).value, cfg)
  }

  lemma ScheduledFits(th: ThreadState, f: Failure, now: Time, attempt: int, consecutive: int, origin: Time,
      notified: bool, cfg: Config, kind: FailureClass)
    requires th.awaiting.None? && th.pending.None?
    ensures ClassFits(ScheduleFailure(th, f, now, attempt, consecutive, origin, notified, cfg), kind, cfg)
  {
    if ClassifyCompletion(f.completion, cfg).retry { FreshLimitsAgree(f.completion, cfg); }
  }

  lemma FailedAgainFits(th: ThreadState, f: Failure, now: Time, cfg: Config, kind: FailureClass)
    requires OnePhase(th) && th.awaiting.Some?
    ensures ClassFits(EventProofs.FailedAgain(th, f, now, cfg), kind, cfg)
  {
    var r := th.awaiting.value.retry;
    var idle := th.(currentTurnProgress := false, awaiting := None);
    var next := EventProofs.NextConsecutive(th, r);
    ScheduledFits(idle, f, now, r.attempt + 1, next, r.fault.originStartedAt, r.parentNotified, cfg, kind);
    assert EventProofs.FailedAgain(th, f, now, cfg)
        == ScheduleFailure(idle, f, now, r.attempt + 1, next, r.fault.originStartedAt, r.parentNotified, cfg);
  }

  lemma FailedFirstFits(th: ThreadState, f: Failure, now: Time, cfg: Config, kind: FailureClass)
    requires !Live(th)
    ensures ClassFits(EventProofs.FailedFirst(th, f, now, cfg), kind, cfg)
  {
    ScheduledFits(th.(currentTurnProgress := false), f, now, 1, 1, ExternalTurnOrigin(th, f.turn, f.at), false, cfg,
        kind);
  }

  lemma CompleteFits(th: ThreadState, f: Failure, now: Time, cfg: Config, kind: FailureClass)
    requires OnePhase(th) && ClassFits(th, kind, cfg)
    ensures ClassFits(Written(th, OnTaskComplete(th, f, now, cfg)), kind, cfg)
  {
    EventProofs.CompletionShape(th, f, now, cfg);
    if HasTurn(th) { FailedAgainFits(th, f, now, cfg, kind); }
    if !Live(th) { FailedFirstFits(th, f, now, cfg, kind); }
  }

  /** A retry that is live afterwards has the numbers it had. */
  predicate Carried(th: ThreadState, after: ThreadState) {
    LiveRetry(after).Some? ==>
      && LiveRetry(th).Some?
      && var r, s := LiveRetry(th).value, LiveRetry(after).value;
      && s.fault.kind == r.fault.kind && s.attempt == r.attempt && s.consecutive == r.consecutive
      && s.maxAttempts == r.maxAttempts && s.maxConsecutive == r.maxConsecutive
  }

  lemma CarriedFits(th: ThreadState, after: ThreadState, cfg: Config, kind: FailureClass)
    requires Carried(th, after) && ClassFits(th, kind, cfg)
    ensures ClassFits(after, kind, cfg)
  {
  }

  lemma EventCarries(th: ThreadState, item: Item, now: Time, cfg: Config)
    requires OnePhase(th) && !item.event.TaskComplete?
    ensures Carried(th, Written(th, OnEvent(th, item, now, cfg)))
  {
    match item.event
    case GoalUpdated(at, status, updatedAt) => EventProofs.GoalUpdateShape(th, at, status, updatedAt);
    case _ =>
  }

  lemma EventFits(th: ThreadState, item: Item, now: Time, cfg: Config, kind: FailureClass)
    requires OnePhase(th) && ClassFits(th, kind, cfg)
    ensures ClassFits(Written(th, OnEvent(th, item, now, cfg)), kind, cfg)
  {
    match item.event
    case TaskComplete(turn, at, completion) =>
      CompleteFits(th, Failure(KeyOf(item), turn, at, completion, item.codexHome, item.rolloutPath), now, cfg, kind);
    case _ =>
      EventCarries(th, item, now, cfg);
      CarriedFits(th, Written(th, OnEvent(th, item, now, cfg)), cfg, kind);
  }

  lemma ResultCarries(th: ThreadState, result: Result, at: Time, cfg: Config)
    requires th.awaiting.Some?
    ensures Carried(th, RecoveryFinished(th, result, at, cfg))
  {
    var noted := Notified(th, result);
    if result.UserActive? {
      RescheduleCarries(WithoutFailures(noted), at, FailureReason(result), false, cfg);
    } else if result.Error? || result.RetryLater? {
      RescheduleCarries(noted, at, FailureReason(result), true, cfg);
    }
  }

  lemma RescheduleCarries(th: ThreadState, at: Time, reason: Reason, countFailure: bool, cfg: Config)
    requires th.awaiting.Some?
    ensures Carried(th, RescheduleAwaiting(th, at, reason, countFailure, cfg))
  {
    assert Carried(th, StopAwaiting(th, at, reason));
  }

  lemma ResultFits(th: ThreadState, result: Result, at: Time, cfg: Config, kind: FailureClass)
    requires OnePhase(th) && th.awaiting.Some? && ClassFits(th, kind, cfg)
    ensures ClassFits(RecoveryFinished(th, result, at, cfg), kind, cfg)
  {
    ResultCarries(th, result, at, cfg);
    CarriedFits(th, RecoveryFinished(th, result, at, cfg), cfg, kind);
  }

  lemma AnswerFits(th: ThreadState, answer: Answer, now: Time, cfg: Config, kind: FailureClass)
    requires OnePhase(th) && th.awaiting.Some? && ClassFits(th, kind, cfg)
    ensures ClassFits(Answered(th, answer, now, cfg), kind, cfg)
  {
  }

  lemma ReloadFits(th: ThreadState, wall: Time, cfg: Config, after: Config, kind: FailureClass)
    requires ChainOk(th) && ClassFits(th, kind, cfg) && LimitsKept(kind, cfg, after)
    ensures ClassFits(Reloaded(th, wall, after), kind, after)
  {
  }

  lemma RestartFits(th: ThreadState, at: Time, cfg: Config, after: Config, kind: FailureClass)
    requires ChainOk(th) && ClassFits(th, kind, cfg) && LimitsKept(kind, cfg, after)
    ensures ClassFits(RestoredAtStartup(Loaded(th), at), kind, after)
  {
  }

  lemma DispatchFits(w: World, th: ThreadState, mode: DispatchMode, active: bool, picked: bool, kind: FailureClass)
    requires ChainOk(th) && ClassFits(th, kind, w.core.config)
    ensures ClassFits(AfterDispatch(w.core, w.now, mode, th, active, picked), kind, w.core.config)
  {
  }

  lemma ExpiryFits(th: ThreadState, active: bool, now: Time, cfg: Config, kind: FailureClass)
    requires ChainOk(th) && ClassFits(th, kind, cfg)
    ensures ClassFits(ExpireThread(th, active, now, cfg), kind, cfg)
  {
    if th.awaiting.Some? {
      RescheduleCarries(th, now, StartNotAcknowledged, true, cfg);
      CarriedFits(th, RescheduleAwaiting(th, now, StartNotAcknowledged, true, cfg), cfg, kind);
    }
  }

  lemma OthersFit(w: World, th: ThreadState, change: Change, kind: FailureClass)
    requires ChainOk(th) && ClassFits(th, kind, w.core.config) && ValidConfig(w.core.config)
    requires !change.ByDispatch? && !change.ByExpiry?
    requires !change.ByEvent? && !change.ByReload? && !change.ByRestart?
    requires (change.ByResult? || change.ByAnswer?) ==> th.awaiting.None?
    ensures ClassFits(Changed(w, th, change), kind, w.core.config)
  {
  }

  /** Whatever changes a thread leaves it within the limits of the class, if they do not fall. */
  lemma ChangeFits(w: World, th: ThreadState, change: Change, after: Config, kind: FailureClass)
    requires ChainOk(th) && ClassFits(th, kind, w.core.config) && ValidConfig(w.core.config)
    requires LimitsKept(kind, w.core.config, after) && (change.ByReload? ==> change.cfg == after)
    ensures ClassFits(Changed(w, th, change), kind, after)
  {
    if change.ByReload? { ReloadFits(th, change.wall, w.core.config, after, kind); }
    else if change.ByRestart? { RestartFits(th, change.at, w.core.config, after, kind); }
    else if change.ByEvent? { EventFits(th, change.item, w.now, w.core.config, kind); }
    else if change.ByResult? && th.awaiting.Some? { ResultFits(th, change.result, change.at, w.core.config, kind); }
    else if change.ByAnswer? && th.awaiting.Some? { AnswerFits(th, change.answer, w.now, w.core.config, kind); }
    else if change.ByDispatch? { DispatchFits(w, th, change.mode, change.active, change.picked, kind); }
    else if change.ByExpiry? { ExpiryFits(th, change.active, w.now, w.core.config, kind); }
    else { OthersFit(w, th, change, kind); }
  }

  // ---- runs ----

  ghost predicate AllFit(w: World, kind: FailureClass) {
    forall t: ThreadId :: ClassFits(ThreadOf(w, t), kind, w.core.config)
  }

  /** No step of the run brings a configuration with lower limits for the class. */
  ghost predicate NeverLowered(w: World, steps: seq<Step>, kind: FailureClass)
    decreases |steps|
  {
    steps == [] ||
    (NotLowered(kind, w.core.config, Apply(w, steps[0]).core.config)
        && NeverLowered(Apply(w, steps[0]), steps[1..], kind))
  }

  lemma LoadedByReload(w: World, step: Step, t: ThreadId)
    ensures ChangeOf(w, step, t).ByReload? ==> ChangeOf(w, step, t).cfg == Apply(w, step).core.config
  {
  }

  lemma StepFits(w: World, step: Step, kind: FailureClass)
    requires WorldOk(w) && AllFit(w, kind) && LimitsKept(kind, w.core.config, Apply(w, step).core.config)
    ensures AllFit(Apply(w, step), kind)
  {
    forall t: ThreadId ensures ClassFits(ThreadOf(Apply(w, step), t), kind, Apply(w, step).core.config) {
      ThreadChain(w, t);
      assert ClassFits(ThreadOf(w, t), kind, w.core.config);
      StepChangesThread(w, step, t);
      LoadedByReload(w, step, t);
      ChangeFits(w, ThreadOf(w, t), ChangeOf(w, step, t), Apply(w, step).core.config, kind);
    }
  }

  ghost predicate LogFits(w: World, kind: FailureClass) {
    forall e :: e in w.log && e.retry.fault.kind == kind ==> WithinLimits(e.retry, e.config)
  }

  lemma {:induction false} EntriesFit(w: World, picks: seq<ThreadId>, kind: FailureClass)
    requires WorldOk(w) && AllFit(w, kind)
    ensures forall e :: e in Entries(w, picks) && e.retry.fault.kind == kind ==> WithinLimits(e.retry, e.config)
  {
    if picks != [] {
      ThreadChain(w, picks[0]);
      assert ClassFits(ThreadOf(w, picks[0]), kind, w.core.config);
      EntriesFit(w, picks[1..], kind);
    }
  }

  lemma {:induction false} RunFits(w: World, steps: seq<Step>, kind: FailureClass)
    requires WorldOk(w) && ValidRun(w, steps) && AllFit(w, kind) && LogFits(w, kind) && NeverLowered(w, steps, kind)
    ensures LogFits(Run(w, steps), kind)
    decreases |steps|
  {
    if steps != [] {
      var step := steps[0];
      OnlyDispatchLogs(w, step);
      if step.DispatchDue? { EntriesFit(w, step.picks, kind); }
      StepKeepsOk(w, step);
      LimitsMean(kind, 0, 0, w.core.config);
      LimitsMean(kind, 0, 0, Apply(w, step).core.config);
      StepFits(w, step, kind);
      RunFits(Apply(w, step), steps[1..], kind);
    }
  }

  /** In any tick, whether it could reload or not, a dispatched job is within the limits of its class under the
      configuration in force, as long as no configuration of the run had lower limits for that class than the one
      before. */
  lemma BudgetWithoutReload(w: World, cfg: Config, bound: int, steps: seq<Step>, e: Entry)
    requires IsRun(w, cfg, bound, steps) && e in Run(w, steps).log && NeverLowered(w, steps, e.retry.fault.kind)
    ensures !Exceeds(e.retry.fault.kind, e.retry.attempt, e.retry.consecutive, e.config)
  {
    InitOk(w, cfg, bound);
    RunFits(w, steps, e.retry.fault.kind);
    LoggedOk(w, cfg, bound, steps, e);
    LimitsMean(e.retry.fault.kind, e.retry.attempt, e.retry.consecutive, e.config);
  }

  /** So a job over its budget needs both: a reload that failed and limits that fell. */
  lemma OverBudgetNeedsBoth(w: World, cfg: Config, bound: int, steps: seq<Step>, e: Entry)
    requires IsRun(w, cfg, bound, steps) && e in Run(w, steps).log
    requires Exceeds(e.retry.fault.kind, e.retry.attempt, e.retry.consecutive, e.config)
    ensures !e.reloaded && !NeverLowered(w, steps, e.retry.fault.kind)
  {
    LoggedOk(w, cfg, bound, steps, e);
    LimitsMean(e.retry.fault.kind, e.retry.attempt, e.retry.consecutive, e.config);
    if NeverLowered(w, steps, e.retry.fault.kind) { BudgetWithoutReload(w, cfg, bound, steps, e); }
  }
}
