/** When a goal is held, and what a hold means for every later job. */
module Holds {
  import opened Types
  import opened ThreadSteps
  import opened World
  import opened Invariant
  import opened Safety
  import opened Theorems
  import opened Chains
  import opened Rules
  import opened Histories
  import opened Outcomes
  import opened TickOutcomes
  import opened JobOutcomes

  // ---- the start of a hold ----

  /** A call for a given-up goal that stops the goal, or the last one that fails to. */
  predicate EndsRequest(th: ThreadState, result: Result, cfg: Config) {
    && th.goalStop.Some?
    && ((result.Accepted? && result.action.GoalBlock?) || Code(result) in ACTION_CODES
        || th.goalStop.value.dispatchFailures + 1 >= cfg.controllerFailureLimit)
  }

  /** What begins a hold: a fresh update to any status but an active goal and a block that belongs to the last failure
      (and even those beside a given-up goal), a refused call that reports one, or the end of a goal-stop request. */
  predicate TakesHold(th: ThreadState, change: Change, cfg: Config) {
    match change
    case ByEvent(item) =>
      item.event.GoalUpdated? && Fresh(th, item.event.at, item.event.updatedAt)
          && HeldBy(th, item.event.status, item.event.updatedAt)
    case ByResult(result, _) => th.awaiting.Some? && result.NotApplicable? && ReportsHold(result.reason)
    case ByGoalBlock(result, _) => EndsRequest(th, result, cfg)
    case _ => false
  }

  lemma EventTakesHold(th: ThreadState, item: Item, now: Time, cfg: Config)
    requires ChainOk(th) && !th.goalHeld
    ensures After(th, item, now, cfg).goalHeld <==> TakesHold(th, ByEvent(item), cfg)
  {
    match item.event
    case GoalUpdated(_, _, _) => UpdateOutcome(th, item, now, cfg);
    case TaskComplete(turn, at, completion) =>
      CompletionTakesNoHold(th, Failure(KeyOf(item), turn, at, completion, item.codexHome, item.rolloutPath), now, cfg);
    case _ =>
  }

  lemma CompletionTakesNoHold(th: ThreadState, f: Failure, now: Time, cfg: Config)
    requires !th.goalHeld
    ensures !Written(th, OnTaskComplete(th, f, now, cfg)).goalHeld
  {
  }

  lemma ResultTakesHold(th: ThreadState, result: Result, at: Time, cfg: Config)
    requires ChainOk(th) && th.awaiting.Some? && !th.goalHeld
    ensures RecoveryFinished(th, result, at, cfg).goalHeld <==> result.NotApplicable? && ReportsHold(result.reason)
  {
    match result
    case NotApplicable(_, _) => RefusedCall(th, result, at, cfg);
    case Accepted(_, _, _) => AcceptedCall(th, result, at, cfg);
    case _ => FailedCall(th, result, at, cfg);
  }

  lemma GoalBlockTakesHold(th: ThreadState, result: Result, at: Time, cfg: Config)
    requires ChainOk(th) && th.goalStop.Some? && !th.goalHeld
    ensures GoalBlockFinished(th, result, at, cfg).goalHeld <==> EndsRequest(th, result, cfg)
  {
    GoalBlockCall(th, result, at, cfg);
  }

  lemma OthersTakeNoHold(w: World, th: ThreadState, change: Change)
    requires ChainOk(th) && !th.goalHeld && !change.ByEvent?
    requires change.ByResult? ==> th.awaiting.None?
    requires change.ByGoalBlock? ==> th.goalStop.None?
    ensures !Changed(w, th, change).goalHeld
  {
  }

  /** A hold begins exactly so: no other event, command, reload, answer, dispatch or restart begins one. */
  lemma HoldBeginsExactlyBy(w: World, th: ThreadState, change: Change)
    requires ChainOk(th) && !th.goalHeld
    ensures Changed(w, th, change).goalHeld <==> TakesHold(th, change, w.core.config)
  {
    if change.ByEvent? { EventTakesHold(th, change.item, w.now, w.core.config); }
    else if change.ByResult? && th.awaiting.Some? { ResultTakesHold(th, change.result, change.at, w.core.config); }
    else if change.ByGoalBlock? && th.goalStop.Some? {
      GoalBlockTakesHold(th, change.result, change.at, w.core.config);
    } else { OthersTakeNoHold(w, th, change); }
  }

  // ---- what a hold means ----

  lemma {:induction false} DispatchedUnderHold(w: World, steps: seq<Step>, t: ThreadId, i: nat)
    requires ThreadOf(w, t).goalHeld && NeverLifted(w, steps, t)
    requires |w.log| <= i < |Run(w, steps).log| && Run(w, steps).log[i].thread == t
    ensures Run(w, steps).log[i].before.goalHeld
    decreases |steps|
  {
    if steps != [] {
      var v := Apply(w, steps[0]);
      OnlyDispatchLogs(w, steps[0]);
      RunLogGrows(v, steps[1..]);
      if i < |v.log| {
        NewEntryIs(w, steps[0].picks, v.log[i]);
      } else {
        StepChangesThread(w, steps[0], t);
        HoldEndsExactlyBy(w, ThreadOf(w, t), ChangeOf(w, steps[0], t));
        DispatchedUnderHold(v, steps[1..], t, i);
      }
    }
  }

  /** A job under a hold is for a failure that the user restarted in this run from a given-up goal, or goes back to a
      turn that was started outside in this run, no earlier than a pause or block. */
  ghost predicate Excepted(w: World, steps: seq<Step>, e: Entry) {
    if e.retry.goalLimitRestart then RestartedByUser(w, steps, e.thread, e.retry.fault.key)
    else
      var origin := e.retry.fault.originStartedAt;
      && origin != 0 && StartedExternally(w, steps, e.thread, e.trace.firstTurn, origin)
      && e.before.goalStatus in {Paused, Blocked}
      && (e.before.goalUpdatedAt == 0 || e.before.goalUpdatedAt <= origin)
  }

  /** Once a step has made the goal held, by an update, a refusal or a stopped goal, no job of the thread is dispatched
      until a change of `Lifts`, apart from the two exceptions. */
  lemma NoJobForHeldGoal(w: World, cfg: Config, bound: int, before: seq<Step>, step: Step, steps: seq<Step>,
      t: ThreadId, i: nat)
    requires IsRun(w, cfg, bound, before) && Enabled(Run(w, before), step)
    requires var v := Run(w, before); TakesHold(ThreadOf(v, t), ChangeOf(v, step, t), v.core.config)
    requires var held := Apply(Run(w, before), step);
      && ValidRun(held, steps) && NeverLifted(held, steps, t)
      && |held.log| <= i < |Run(held, steps).log| && Run(held, steps).log[i].thread == t
    ensures Excepted(w, before + [step] + steps, Run(Apply(Run(w, before), step), steps).log[i])
  {
    var v := Run(w, before);
    var held := Apply(v, step);
    ReachedOk(w, cfg, bound, before);
    TakesAndHolds(v, step, t);
    DispatchedUnderHold(held, steps, t, i);
    OneMore(w, before, step);
    Joined(w, before + [step], steps);
    HeldGoalIsRespected(w, cfg, bound, before + [step] + steps, Run(held, steps).log[i]);
  }

  lemma TakesAndHolds(v: World, step: Step, t: ThreadId)
    requires WorldOk(v) && TakesHold(ThreadOf(v, t), ChangeOf(v, step, t), v.core.config)
    ensures ThreadOf(Apply(v, step), t).goalHeld
  {
    ThreadChain(v, t);
    StepChangesThread(v, step, t);
    HoldStaysTaken(v, ThreadOf(v, t), ChangeOf(v, step, t));
  }

  /** Also a thread that was held before is held afterwards. */
  lemma HoldStaysTaken(w: World, th: ThreadState, change: Change)
    requires ChainOk(th) && TakesHold(th, change, w.core.config)
    ensures Changed(w, th, change).goalHeld
  {
    match change
    case ByEvent(item) => UpdateOutcome(th, item, w.now, w.core.config);
    case ByResult(result, at) => RefusedCall(th, result, at, w.core.config);
    case ByGoalBlock(result, at) => GoalBlockCall(th, result, at, w.core.config);
    case _ =>
  }
}
