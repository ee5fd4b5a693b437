/** A reopening does not send a failure again: which dates of its own events that takes, and no others. */
module Resends {
  import opened Types
  import opened Policy
  import opened ThreadSteps
  import opened Core
  import opened World
  import opened Invariant
  import opened Safety
  import opened Preservation
  import opened RunInvariant
  import opened Theorems
  import opened Chains
  import opened Rules
  import opened Histories
  import EventProofs

  // ---- a dispatched failure ----

  /** The pending retry for this failure takes a start as its turn. */
  predicate Adopts(th: ThreadState, change: Change, key: EventKey) {
    && th.pending.Some? && About(th, key) && change.ByEvent? && change.item.event.TaskStarted?
    && Acknowledges(th, change.item.event.turn, change.item.event.at)
  }

  /** A start not dated after the failure is adopted for it, or the failure is handled again and stays with a thread
      that does not know of a later retry. */
  predicate Unmarks(w: World, th: ThreadState, change: Change, key: EventKey) {
    || (Adopts(th, change, key) && change.item.event.at <= key.at)
    || (FailsWith(change, key) && th.lastAutoRetryAt <= key.at && About(Changed(w, th, change), key))
  }

  ghost predicate NeverUnmarked(w: World, steps: seq<Step>, t: ThreadId, key: EventKey)
    decreases |steps|
  {
    steps == [] || (!Unmarks(w, ThreadOf(w, t), ChangeOf(w, steps[0], t), key)
        && NeverUnmarked(Apply(w, steps[0]), steps[1..], t, key))
  }

  /** As long as the thread is about this failure, it knows of a later retry, and no stop says that it is unsent. */
  predicate Marked(th: ThreadState, key: EventKey) {
    About(th, key) ==> key.at < th.lastAutoRetryAt && (th.stopped.Some? ==> !KnownUnsent(th.stopped.value))
  }

  predicate KeepsRetryTime(th: ThreadState, change: Change, key: EventKey) {
    && (Adopts(th, change, key) ==> key.at < change.item.event.at)
    && (FailsWith(change, key) ==> key.at < th.lastAutoRetryAt)
  }

  predicate OwnDate(th: ThreadState, key: EventKey) { About(th, key) ==> Record(th).value.failedAt == key.at }

  /** What scheduling leaves: no stop with a marker that was not there, and the times as they were. */
  predicate ScheduleLeaves(th: ThreadState, f: Failure, after: ThreadState) {
    && after.lastAutoRetryAt == th.lastAutoRetryAt && after.lastStartedAt == th.lastStartedAt
    && after.awaiting.None?
    && ((after.pending.None? && after.stopped == th.stopped) ||
        (Record(after).Some? ==>
           Record(after).value.key == f.key && (after.stopped.Some? ==> after.stopped.value.transportBlocked.None?)))
  }

  lemma ScheduleShape(th: ThreadState, f: Failure, now: Time, attempt: int, consecutive: int, origin: Time,
      notified: bool, cfg: Config)
    ensures ScheduleLeaves(th, f, ScheduleFailure(th, f, now, attempt, consecutive, origin, notified, cfg))
  {
  }

  lemma FailedLeaves(th: ThreadState, f: Failure, now: Time, cfg: Config)
    ensures ScheduleLeaves(th, f, EventProofs.Failed(th, f, now, cfg))
  {
    if th.awaiting.Some? { FailedAgainLeaves(th, f, now, cfg); } else { FailedFirstLeaves(th, f, now, cfg); }
  }

  lemma FailedAgainLeaves(th: ThreadState, f: Failure, now: Time, cfg: Config)
    requires th.awaiting.Some?
    ensures ScheduleLeaves(th, f, EventProofs.FailedAgain(th, f, now, cfg))
  {
    var r := th.awaiting.value.retry;
    ScheduleShape(th.(currentTurnProgress := false, awaiting := None), f, now, r.attempt + 1,
                  EventProofs.NextConsecutive(th, r), r.fault.originStartedAt, r.parentNotified, cfg);
  }

  lemma FailedFirstLeaves(th: ThreadState, f: Failure, now: Time, cfg: Config)
    ensures ScheduleLeaves(th, f, EventProofs.FailedFirst(th, f, now, cfg))
  {
    ScheduleShape(th.(currentTurnProgress := false), f, now, 1, 1, ExternalTurnOrigin(th, f.turn, f.at), false, cfg);
  }

  lemma CompletionKeepsMarked(th: ThreadState, f: Failure, now: Time, cfg: Config, key: EventKey)
    requires OnePhase(th) && Marked(th, key)
    requires !Succeeded(f.completion) && f.key == key ==> key.at < th.lastAutoRetryAt
    ensures Marked(Written(th, OnTaskComplete(th, f, now, cfg)), key)
  {
    EventProofs.CompletionShape(th, f, now, cfg);
    FailedLeaves(th, f, now, cfg);
  }

  lemma StartKeepsMarked(th: ThreadState, item: Item, now: Time, cfg: Config, key: EventKey)
    requires ChainOk(th) && Marked(th, key) && item.event.TaskStarted? && KeepsRetryTime(th, ByEvent(item), key)
    ensures Marked(Written(th, OnEvent(th, item, now, cfg)), key)
  {
  }

  lemma UpdateKeepsMarked(th: ThreadState, at: Time, status: GoalStatus, updatedAt: Time, key: EventKey)
    requires OnePhase(th) && Marked(th, key)
    ensures Marked(Written(th, OnGoalUpdated(th, at, status, updatedAt)), key)
  {
  }

  lemma EventKeepsMarked(th: ThreadState, item: Item, now: Time, cfg: Config, key: EventKey)
    requires ChainOk(th) && Marked(th, key) && KeepsRetryTime(th, ByEvent(item), key)
    ensures Marked(Written(th, OnEvent(th, item, now, cfg)), key)
  {
    match item.event
    case TaskComplete(turn, at, completion) =>
      CompletionKeepsMarked(th, Failure(KeyOf(item), turn, at, completion, item.codexHome, item.rolloutPath), now, cfg,
          key);
    case TaskStarted(_, _) => StartKeepsMarked(th, item, now, cfg, key);
    case GoalUpdated(at, status, updatedAt) => UpdateKeepsMarked(th, at, status, updatedAt, key);
    case _ =>
  }

  lemma RescheduleKeepsMarked(th: ThreadState, at: Time, reason: Reason, countFailure: bool, cfg: Config, key: EventKey)
    requires OnePhase(th) && th.awaiting.Some? && Marked(th, key)
    ensures Marked(RescheduleAwaiting(th, at, reason, countFailure, cfg), key)
  {
    assert Marked(StopAwaiting(th, at, reason), key);
  }

  lemma ResultKeepsMarked(th: ThreadState, result: Result, at: Time, cfg: Config, key: EventKey)
    requires OnePhase(th) && th.awaiting.Some? && Marked(th, key)
    ensures Marked(RecoveryFinished(th, result, at, cfg), key)
  {
    if result.UserActive? {
      RescheduleKeepsMarked(WithoutFailures(Notified(th, result)), at, FailureReason(result), false, cfg, key);
    } else if result.Error? || result.RetryLater? {
      RescheduleKeepsMarked(Notified(th, result), at, FailureReason(result), true, cfg, key);
    }
  }

  lemma AnswerKeepsMarked(th: ThreadState, answer: Answer, now: Time, cfg: Config, key: EventKey)
    requires OnePhase(th) && th.awaiting.Some? && Marked(th, key)
    ensures Marked(Answered(th, answer, now, cfg), key)
  {
  }

  lemma DispatchKeepsMarked(c: Core, now: Time, mode: DispatchMode, th: ThreadState, active: bool, picked: bool,
      key: EventKey)
    requires OnePhase(th) && Marked(th, key) && OwnDate(th, key) && key.at < now
    ensures Marked(AfterDispatch(c, now, mode, th, active, picked), key)
  {
  }

  lemma RestartKeepsMarked(th: ThreadState, at: Time, key: EventKey)
    requires ChainOk(th) && Marked(th, key)
    ensures Marked(RestoredAtStartup(Loaded(th), at), key)
  {
  }

  lemma ReloadKeepsMarked(th: ThreadState, wall: Time, cfg: Config, key: EventKey)
    requires ChainOk(th) && Marked(th, key)
    ensures Marked(Reloaded(th, wall, cfg), key)
  {
  }

  lemma ExpiryKeepsMarked(th: ThreadState, active: bool, now: Time, cfg: Config, key: EventKey)
    requires ChainOk(th) && Marked(th, key)
    ensures Marked(ExpireThread(th, active, now, cfg), key)
  {
    if th.awaiting.Some? { RescheduleKeepsMarked(th, now, StartNotAcknowledged, true, cfg, key); }
  }

  lemma OthersKeepMarked(w: World, th: ThreadState, change: Change, key: EventKey)
    requires ChainOk(th) && Marked(th, key) && !change.ByEvent? && !change.ByDispatch? && !change.ByRestart?
    requires !change.ByReload? && !change.ByExpiry?
    requires (change.ByResult? || change.ByAnswer?) ==> th.awaiting.None?
    ensures Marked(Changed(w, th, change), key)
  {
  }

  lemma ChangeKeepsMarked(w: World, th: ThreadState, change: Change, key: EventKey)
    requires ChainOk(th) && Marked(th, key) && OwnDate(th, key) && key.at < w.now && KeepsRetryTime(th, change, key)
    ensures Marked(Changed(w, th, change), key)
  {
    if change.ByEvent? { EventKeepsMarked(th, change.item, w.now, w.core.config, key); }
    else if change.ByDispatch? {
      DispatchKeepsMarked(w.core, w.now, change.mode, th, change.active, change.picked, key);
    } else if change.ByResult? && th.awaiting.Some? {
      ResultKeepsMarked(th, change.result, change.at, w.core.config, key);
    }
    else if change.ByAnswer? && th.awaiting.Some? { AnswerKeepsMarked(th, change.answer, w.now, w.core.config, key); }
    else if change.ByRestart? { RestartKeepsMarked(th, change.at, key); }
    else if change.ByReload? { ReloadKeepsMarked(th, change.wall, change.cfg, key); }
    else if change.ByExpiry? { ExpiryKeepsMarked(th, change.active, w.now, w.core.config, key); }
    else { OthersKeepMarked(w, th, change, key); }
  }

  lemma AdoptionUnmarks(th: ThreadState, item: Item, now: Time, cfg: Config, key: EventKey)
    requires ChainOk(th) && Adopts(th, ByEvent(item), key) && item.event.at <= key.at
    ensures !Marked(Written(th, OnEvent(th, item, now, cfg)), key)
  {
  }

  lemma FailureUnmarks(th: ThreadState, f: Failure, now: Time, cfg: Config, key: EventKey)
    requires th.lastAutoRetryAt <= key.at && About(Written(th, OnTaskComplete(th, f, now, cfg)), key)
    ensures !Marked(Written(th, OnTaskComplete(th, f, now, cfg)), key)
  {
    EventProofs.CompletionShape(th, f, now, cfg);
    FailedLeaves(th, f, now, cfg);
  }

  /** The mark of a sent failure ends exactly so: no other event, result, answer, command, reload or restart ends it. */
  lemma MarkEndsExactlyBy(w: World, th: ThreadState, change: Change, key: EventKey)
    requires ChainOk(th) && Marked(th, key) && OwnDate(th, key) && key.at < w.now
    ensures !Marked(Changed(w, th, change), key) <==> Unmarks(w, th, change, key)
  {
    if Adopts(th, change, key) && change.item.event.at <= key.at {
      AdoptionUnmarks(th, change.item, w.now, w.core.config, key);
    } else if Unmarks(w, th, change, key) {
      var e := change.item.event;
      FailureUnmarks(th, Failure(KeyOf(change.item), e.turn, e.at, e.completion, change.item.codexHome,
          change.item.rolloutPath), w.now, w.core.config, key);
    } else if About(Changed(w, th, change), key) {
      ChangeKeepsMarked(w, th, change, key);
    }
  }

  lemma KnownDate(w: World, t: ThreadId, key: EventKey)
    requires WorldOk(w) && 0 < key.at
    ensures OwnDate(ThreadOf(w, t), key)
  {
    ThreadChain(w, t);
  }

  lemma {:induction false} RunKeepsMarked(w: World, steps: seq<Step>, t: ThreadId, key: EventKey)
    requires WorldOk(w) && ValidRun(w, steps) && Marked(ThreadOf(w, t), key) && 0 < key.at < w.now
    requires NeverUnmarked(w, steps, t, key)
    ensures WorldOk(Run(w, steps)) && Marked(ThreadOf(Run(w, steps), t), key)
    decreases |steps|
  {
    if steps != [] {
      var step := steps[0];
      ThreadChain(w, t);
      KnownDate(w, t, key);
      StepChangesThread(w, step, t);
      MarkEndsExactlyBy(w, ThreadOf(w, t), ChangeOf(w, step, t), key);
      ClockAdvances(w, step);
      StepKeepsOk(w, step);
      RunKeepsMarked(Apply(w, step), steps[1..], t, key);
    }
  }

  /** A stop without a transport that may be reopened at some time, about this failure. */
  predicate LooksUnsent(th: ThreadState, key: EventKey, at: Time) {
    CanReopen(th, at) && th.stopped.value.reason.SharedDisabled? && th.stopped.value.fault.key == key
  }

  lemma MarkedIsSent(th: ThreadState, key: EventKey, at: Time)
    requires Marked(th, key) && OwnDate(th, key)
    ensures !LooksUnsent(th, key, at)
  {
  }

  lemma PickIsPending(w: World, goals: seq<ThreadId>, picks: seq<ThreadId>, t: ThreadId)
    requires Enabled(w, DispatchDue(goals, picks)) && t in picks
    ensures t in w.core.threads && w.core.threads[t].pending.Some?
  {
    PicksDue(w.core, w.now, goals, picks);
  }

  lemma SentIsMarked(th: ThreadState, after: ThreadState, now: Time, key: EventKey)
    requires OnePhase(th) && th.pending.Some? && DispatchOutcome(th, after, now, true) && key.at < now
    ensures Marked(after, key)
  {
  }

  lemma PickIsMarked(w: World, goals: seq<ThreadId>, picks: seq<ThreadId>, t: ThreadId, key: EventKey)
    requires WorldOk(w) && Enabled(w, DispatchDue(goals, picks)) && t in picks && key.at < w.now
    ensures Marked(ThreadOf(Apply(w, DispatchDue(goals, picks)), t), key)
  {
    PickIsPending(w, goals, picks, t);
    ThreadChain(w, t);
    DispatchLeavesPending(w.core, w.now, goals, picks, t);
    DispatchedThread(w, goals, picks, t);
    SentIsMarked(w.core.threads[t], Dispatch(w.core, w.now, goals, picks).threads[t], w.now, key);
  }

  /** A failure dated before the tick of its dispatch never looks unsent again: no reopenable stop for want of the
      shared server is about it, whatever the dates of all other events are, as long as no start of exactly its date
      is adopted for it and no thread without a memory of its retries handles it again. */
  lemma SentIsNotResent(w: World, cfg: Config, bound: int, before: seq<Step>, goals: seq<ThreadId>,
      picks: seq<ThreadId>, steps: seq<Step>, t: ThreadId, at: Time)
    requires IsRun(w, cfg, bound, before) && Enabled(Run(w, before), DispatchDue(goals, picks)) && t in picks
    requires ThreadOf(Run(w, before), t).pending.Some?
    requires var v := Run(w, before);
      var key, sent := ThreadOf(v, t).pending.value.retry.fault.key, Apply(v, DispatchDue(goals, picks));
      0 < key.at < v.now && ValidRun(sent, steps) && NeverUnmarked(sent, steps, t, key)
    ensures var v := Run(w, before);
      !LooksUnsent(ThreadOf(Run(Apply(v, DispatchDue(goals, picks)), steps), t),
                   ThreadOf(v, t).pending.value.retry.fault.key, at)
  {
    var v := Run(w, before);
    var key := ThreadOf(v, t).pending.value.retry.fault.key;
    var sent := Apply(v, DispatchDue(goals, picks));
    ReachedOk(w, cfg, bound, before);
    PickIsMarked(v, goals, picks, t, key);
    ClockAdvances(v, DispatchDue(goals, picks));
    StepKeepsOk(v, DispatchDue(goals, picks));
    RunKeepsMarked(sent, steps, t, key);
    KnownDate(Run(sent, steps), t, key);
    MarkedIsSent(ThreadOf(Run(sent, steps), t), key, at);
  }

  // ---- a failure whose retry got its turn ----

  /** A start not dated after the failure is recorded and leaves the thread with it, or the failure is handled again
      and stays with a thread that does not know of a later start. */
  predicate Unstarts(w: World, th: ThreadState, change: Change, key: EventKey) {
    && About(Changed(w, th, change), key)
    && ((change.ByEvent? && change.item.event.TaskStarted? && change.item.event.at <= key.at
            && OnTaskStarted(th, change.item.event.turn, change.item.event.at).Some?) ||
        (FailsWith(change, key) && th.lastStartedAt <= key.at))
  }

  ghost predicate NeverUnstarted(w: World, steps: seq<Step>, t: ThreadId, key: EventKey)
    decreases |steps|
  {
    steps == [] || (!Unstarts(w, ThreadOf(w, t), ChangeOf(w, steps[0], t), key)
        && NeverUnstarted(Apply(w, steps[0]), steps[1..], t, key))
  }

  /** As long as the thread is about this failure, its newest start is later. */
  predicate StartedSince(th: ThreadState, key: EventKey) { About(th, key) ==> key.at < th.lastStartedAt }

  lemma StartTimeOf(th: ThreadState, item: Item, now: Time, cfg: Config)
    requires OnePhase(th)
    ensures Written(th, OnEvent(th, item, now, cfg)).lastStartedAt ==
            if item.event.TaskStarted? && OnTaskStarted(th, item.event.turn, item.event.at).Some? then item.event.at
            else th.lastStartedAt
  {
    match item.event
    case TaskComplete(turn, at, completion) =>
      var f := Failure(KeyOf(item), turn, at, completion, item.codexHome, item.rolloutPath);
      EventProofs.CompletionShape(th, f, now, cfg);
      FailedLeaves(th, f, now, cfg);
    case GoalUpdated(at, status, updatedAt) => EventProofs.GoalUpdateShape(th, at, status, updatedAt);
    case _ =>
  }

  lemma OthersKeepStart(w: World, th: ThreadState, change: Change)
    requires !change.ByEvent? && !change.ByPrune?
    ensures Changed(w, th, change).lastStartedAt == th.lastStartedAt
  {
    if change.ByResult? && th.awaiting.Some? { ResultKeepsStart(th, change.result, change.at, w.core.config); }
    else if change.ByAnswer? && th.awaiting.Some? { AnswerKeepsStart(th, change.answer, w.now, w.core.config); }
  }

  lemma ResultKeepsStart(th: ThreadState, result: Result, at: Time, cfg: Config)
    requires th.awaiting.Some?
    ensures RecoveryFinished(th, result, at, cfg).lastStartedAt == th.lastStartedAt
  {
  }

  lemma AnswerKeepsStart(th: ThreadState, answer: Answer, now: Time, cfg: Config)
    requires th.awaiting.Some?
    ensures Answered(th, answer, now, cfg).lastStartedAt == th.lastStartedAt
  {
  }

  /** The later start of a failure is forgotten exactly so. */
  lemma StartEndsExactlyBy(w: World, th: ThreadState, change: Change, key: EventKey)
    requires ChainOk(th) && StartedSince(th, key)
    ensures !StartedSince(Changed(w, th, change), key) <==> Unstarts(w, th, change, key)
  {
    if About(Changed(w, th, change), key) {
      FailureComesFromCompletion(w, th, change, key);
      if change.ByEvent? { StartTimeOf(th, change.item, w.now, w.core.config); }
      else if !change.ByPrune? { OthersKeepStart(w, th, change); }
    }
  }

  lemma {:induction false} RunKeepsStarted(w: World, steps: seq<Step>, t: ThreadId, key: EventKey)
    requires WorldOk(w) && ValidRun(w, steps) && StartedSince(ThreadOf(w, t), key)
    requires NeverUnstarted(w, steps, t, key)
    ensures WorldOk(Run(w, steps)) && StartedSince(ThreadOf(Run(w, steps), t), key)
    decreases |steps|
  {
    if steps != [] {
      var step := steps[0];
      ThreadChain(w, t);
      StepChangesThread(w, step, t);
      StartEndsExactlyBy(w, ThreadOf(w, t), ChangeOf(w, step, t), key);
      StepKeepsOk(w, step);
      RunKeepsStarted(Apply(w, step), steps[1..], t, key);
    }
  }

  lemma StartedStaysDown(th: ThreadState, key: EventKey, at: Time)
    requires StartedSince(th, key) && OwnDate(th, key) && CanReopen(th, at)
    ensures th.stopped.value.fault.key != key
  {
  }

  lemma AcknowledgedStart(th: ThreadState, item: Item, now: Time, cfg: Config)
    requires ChainOk(th) && !HasTurn(th) && HasTurn(Written(th, OnEvent(th, item, now, cfg)))
    ensures LiveRetry(th).Some?
    ensures var after := Written(th, OnEvent(th, item, now, cfg));
      after.lastStartedAt == after.awaiting.value.startedAt && About(after, LiveRetry(th).value.fault.key)
  {
    EventGivesTurn(th, item, now, cfg);
  }

  /** A failure whose retry got a turn of a later date is never reopened, whatever transport was missing: no stop about
      it may be reopened as long as no start dated up to the failure is taken for it and no thread that has forgotten
      its starts handles it again. */
  lemma StartedIsNotReopened(w: World, cfg: Config, bound: int, before: seq<Step>, item: Item, steps: seq<Step>,
      at: Time)
    requires IsRun(w, cfg, bound, before) && Enabled(Run(w, before), Observe(item))
    requires var v := Run(w, before);
      !HasTurn(ThreadOf(v, item.thread)) && HasTurn(ThreadOf(Apply(v, Observe(item)), item.thread))
    requires var started := Apply(Run(w, before), Observe(item));
      var aw := ThreadOf(started, item.thread).awaiting.value;
      && 0 < aw.retry.fault.key.at < aw.startedAt
      && ValidRun(started, steps) && NeverUnstarted(started, steps, item.thread, aw.retry.fault.key)
    ensures var started := Apply(Run(w, before), Observe(item));
      var th := ThreadOf(Run(started, steps), item.thread);
      CanReopen(th, at) ==>
        th.stopped.value.fault.key != ThreadOf(started, item.thread).awaiting.value.retry.fault.key
  {
    var v := Run(w, before);
    var started := Apply(v, Observe(item));
    var key := ThreadOf(started, item.thread).awaiting.value.retry.fault.key;
    ReachedOk(w, cfg, bound, before);
    ThreadChain(v, item.thread);
    StepChangesThread(v, Observe(item), item.thread);
    AcknowledgedStart(ThreadOf(v, item.thread), item, v.now, v.core.config);
    StepKeepsOk(v, Observe(item));
    RunKeepsStarted(started, steps, item.thread, key);
    KnownDate(Run(started, steps), item.thread, key);
    var th := ThreadOf(Run(started, steps), item.thread);
    if CanReopen(th, at) { StartedStaysDown(th, key, at); }
  }

  // ---- orderly events ----

  /** Starts are dated after the failures handled before them, failures one after the other and before their tick. */
  predicate InOrder(change: Change, newest: Time, now: Time) {
    change.ByEvent? ==>
      match change.item.event
      case TaskStarted(_, at) => newest < at
      case TaskComplete(_, at, completion) => Succeeded(completion) || newest < at < now
      case _ => true
  }

  function NewestFailure(change: Change, newest: Time): Time {
    if change.ByEvent? && change.item.event.TaskComplete? && !Succeeded(change.item.event.completion)
    then change.item.event.at else newest
  }

  ghost predicate Orderly(w: World, steps: seq<Step>, t: ThreadId, newest: Time)
    decreases |steps|
  {
    steps == [] ||
    (var change := ChangeOf(w, steps[0], t);
     InOrder(change, newest, w.now) && Orderly(Apply(w, steps[0]), steps[1..], t, NewestFailure(change, newest)))
  }

  lemma {:induction false} OrderlyKeepsMarked(w: World, steps: seq<Step>, t: ThreadId, newest: Time, key: EventKey)
    requires Orderly(w, steps, t, newest) && key.at <= newest
    ensures NeverUnmarked(w, steps, t, key)
    decreases |steps|
  {
    if steps != [] {
      var newer := NewestFailure(ChangeOf(w, steps[0], t), newest);
      OrderlyKeepsMarked(Apply(w, steps[0]), steps[1..], t, newer, key);
    }
  }

  /** What the thread is about has a date, and nothing handled so far is newer than `newest`. */
  predicate DatedBy(th: ThreadState, newest: Time, now: Time) {
    0 <= newest < now && (Record(th).Some? ==> 0 < Record(th).value.key.at <= newest)
  }

  lemma ChangeKeepsDates(w: World, th: ThreadState, change: Change, newest: Time, now: Time)
    requires ChainOk(th) && DatedBy(th, newest, w.now) && InOrder(change, newest, w.now) && w.now <= now
    ensures DatedBy(Changed(w, th, change), NewestFailure(change, newest), now)
  {
    var after := Changed(w, th, change);
    if Record(after).Some? { FailureComesFromCompletion(w, th, change, Record(after).value.key); }
  }

  lemma StepKeepsDates(w: World, step: Step, t: ThreadId, newest: Time)
    requires WorldOk(w) && Enabled(w, step) && DatedBy(ThreadOf(w, t), newest, w.now)
    requires InOrder(ChangeOf(w, step, t), newest, w.now)
    ensures DatedBy(ThreadOf(Apply(w, step), t), NewestFailure(ChangeOf(w, step, t), newest), Apply(w, step).now)
  {
    ThreadChain(w, t);
    StepChangesThread(w, step, t);
    ClockAdvances(w, step);
    ChangeKeepsDates(w, ThreadOf(w, t), ChangeOf(w, step, t), newest, Apply(w, step).now);
  }

  /** A job that the step adds to the log marks its failure. */
  lemma LoggedIsMarked(w: World, step: Step, t: ThreadId, newest: Time, i: nat)
    requires WorldOk(w) && Enabled(w, step) && DatedBy(ThreadOf(w, t), newest, w.now)
    requires |w.log| <= i < |Apply(w, step).log| && Apply(w, step).log[i].thread == t
    ensures var key := Apply(w, step).log[i].retry.fault.key;
      0 < key.at <= newest && Marked(ThreadOf(Apply(w, step), t), key) && ChangeOf(w, step, t).ByDispatch?
  {
    OnlyDispatchLogs(w, step);
    NewEntryIs(w, step.picks, Apply(w, step).log[i]);
    ThreadChain(w, t);
    PickIsMarked(w, step.goals, step.picks, t, Apply(w, step).log[i].retry.fault.key);
  }

  lemma {:induction false} OrderlyMarks(w: World, steps: seq<Step>, t: ThreadId, newest: Time, i: nat)
    requires WorldOk(w) && ValidRun(w, steps) && DatedBy(ThreadOf(w, t), newest, w.now) && Orderly(w, steps, t, newest)
    requires |w.log| <= i < |Run(w, steps).log| && Run(w, steps).log[i].thread == t
    ensures var v := Run(w, steps);
      WorldOk(v) && 0 < v.log[i].retry.fault.key.at && Marked(ThreadOf(v, t), v.log[i].retry.fault.key)
    decreases |steps|
  {
    if steps != [] {
      var step := steps[0];
      var v := Apply(w, step);
      var newer := NewestFailure(ChangeOf(w, step, t), newest);
      StepKeepsDates(w, step, t, newest);
      StepKeepsOk(w, step);
      RunLogGrows(v, steps[1..]);
      if i < |v.log| {
        LoggedIsMarked(w, step, t, newest, i);
        OrderlyKeepsMarked(v, steps[1..], t, newer, v.log[i].retry.fault.key);
        RunKeepsMarked(v, steps[1..], t, v.log[i].retry.fault.key);
      } else {
        OrderlyMarks(v, steps[1..], t, newer, i);
      }
    }
  }

  /** In a run whose failures and starts of the thread are in order, a reopenable stop for want of the shared server is
      about a failure for which no job was ever dispatched. */
  lemma ReopeningNeverResends(w: World, cfg: Config, bound: int, steps: seq<Step>, t: ThreadId, e: Entry, at: Time)
    requires IsRun(w, cfg, bound, steps) && Orderly(w, steps, t, 0)
    requires e in Run(w, steps).log && e.thread == t
    ensures !LooksUnsent(ThreadOf(Run(w, steps), t), e.retry.fault.key, at)
  {
    var v := Run(w, steps);
    var i :| 0 <= i < |v.log| && v.log[i] == e;
    InitOk(w, cfg, bound);
    OrderlyMarks(w, steps, t, 0, i);
    KnownDate(v, t, e.retry.fault.key);
    MarkedIsSent(ThreadOf(v, t), e.retry.fault.key, at);
  }
}
