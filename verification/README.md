# Retry watchdog: model and proofs

The watchdog follows the rollout files of a coding assistant, notices failed turns and starts a retry for each of
them: within a budget, within thirty minutes, never against a paused goal, and never sent again just because a
transport came back.
This project models its retry state machine and four algorithms around it in Dafny, and proves what they promise.

## How it is built

- `Types`, `Policy`, `Backoff`: the records, the pure decisions (classification, limits, holds, when a stop may be
  reopened) and the delay before a retry.
- `ThreadSteps`, `Core`: what each operation does to one thread and to the whole state, as functions. They are the
  specification.
- `Daemon`, `Slots`, `Ticks`: the class with the mutable state, its handlers and its loops over the thread map, each
  proved against the specification. `Slots` takes the earliest due threads. `Ticks` runs the first locked section
  of a tick and shows that it is a run of the transition system below; every other locked section is one step of it,
  and `World.Apply` uses for that step the function of `Core` that the method is proved against.
- `Outcomes`, `TickOutcomes`, `JobOutcomes`: what each event, command, stage of a tick, dispatch, job and result must do,
  stated by the fields it finds and leaves and not by those functions. They tie the functions of `ThreadSteps` and
  `Core`, and with them the methods of `Daemon`, to what the product promises.
- `World`: runs. A step is a stage of a tick, one event, one command, one probe answer, a dispatch, the start or the
  finish of one job, pruning, a change of the controller state, or a restart of the process. Jobs start and finish in
  any order wherever the mutex is free, a restart may come at any point, and any valid configuration may be loaded.
  Each thread has a *trace*, and the world has a log of dispatched jobs: they record what happened and nothing in the
  watchdog reads them.
- `Invariant`, `EventProofs`, `StepProofs`, `Safety`, `Preservation`, `RunInvariant`: the invariant and its
  preservation by every step. `Chains` and `Rules` say what one step may do to one thread. `Theorems`, `Histories`,
  `Ends`, `Holds`, `Waits`, `Resends`, `Budgets` and `Reasons` are the results about runs. `Boundaries` and `ResendRuns`
  have concrete runs that leave the conditions of those results, or that the product documentation rules out.
- `ReverseSearch`, `AppendReader`, `Retention` (with `Sorting`) and `Migration` stand alone.

Time is an integer number of nanoseconds and 0 is Go's zero time. A thread is *live* while it has a pending or an
awaiting entry, and *about* the failure of its entry or of its stop. Events may carry any date unless a result says
otherwise. A run of the thread is *orderly* when its failed completions are dated one after the other and before the
tick that handles each, and its task_started events are dated after the failures handled before them. A run starts from
the empty state, with a valid configuration and a clock that does not go back. `reloaded` says that the current tick
could read its configuration.

Three sources are left open on purpose: what a job's call to the controller returns (any result or error), what a probe
answers, and which events the files hold.

## Model

| member | source | states |
|---|---|---|
| `Resends.SentIsNotResent` | scripts/source/transport_recovery.go:13-53 | After a failure dated before its tick was dispatched, no `shared_app_server_disabled` stop about it may ever be reopened, whatever all other events are dated, unless one of the two changes of `Resends.MarkEndsExactlyBy` happened |
| `Resends.MarkEndsExactlyBy` | scripts/source/daemon.go:696-698 | The mark of a sent failure (a later `LastAutoRetryAt`, no unsent marker) ends if and only if a start not dated after the failure is adopted for it, or the failure is handled again and stays with a thread that knows of no later retry |
| `Resends.ReopeningNeverResends` | scripts/source/transport_recovery.go:13-53 | So in every orderly run a `shared_app_server_disabled` stop that may be reopened is about a failure for which no recovery job was ever dispatched |
| `Boundaries.DatedAheadResends` | scripts/source/daemon.go:696-698 | A run in which a failure is dated after the tick of its dispatch: it was sent and its stop may be reopened |
| `ResendRuns.AdoptedAtFailureResends` | scripts/source/retry_state.go:229-250 | A run in which a start dated exactly at the failure is adopted and sets `LastAutoRetryAt` back: the failure was sent, its retry got a turn, and its stop may be reopened |
| `ResendRuns.ForgottenFailureResends` | scripts/source/state.go:120-143 | A run in which the thread and the key of a sent failure are pruned and the failure is handled again: its stop may be reopened |
| `Resends.StartedIsNotReopened` | scripts/source/transport_recovery.go:44-51 | A failure whose retry took a turn dated after it is never reopened, neither after `codex_restart_required` nor after `shared_app_server_disabled`, unless a change of `Resends.StartEndsExactlyBy` happened |
| `Resends.StartEndsExactlyBy` | scripts/source/retry_state.go:200-266 | The later start of a failure is forgotten if and only if a start not dated after the failure is recorded and leaves the thread with it, or the failure is handled again and stays with a thread that knows of no later start |
| `Theorems.DispatchedWithinBudget` | scripts/source/retry_state.go:60-78 | Whatever valid configurations a run loads, a job dispatched in a tick that could reload has at most `maxRecoveryAttempts` attempts and `maxConsecutiveRetries` in a row, at most `authMaxAttempts` of both for a limited authentication failure and at most `unknownMaxAttempts` for an unknown one, and is within the limits it carries |
| `Budgets.BudgetWithoutReload` | scripts/source/retry_state.go:41-46 | In every tick, reloaded or not, a dispatched job exceeds none of these numbers as long as no configuration of the run lowered one for its class |
| `Budgets.OverBudgetNeedsBoth` | scripts/source/retry_state.go:41-46 | So a job that exceeds one implies a failed reload in its tick and a lowered number in its run |
| `Boundaries.FailedReloadBreaksBudget` | scripts/source/retry_state.go:41-46 | A run in which a restart brings a smaller budget and the next reload fails dispatches a job over that budget |
| `Theorems.DispatchedBeforeDeadline` | scripts/source/daemon.go:824-827 | Every recovery job is dispatched at most thirty minutes after the start that its thread stores, and that start is known |
| `Histories.DeadlineAcrossReopening` | scripts/source/daemon.go:824-827 | However often a chain is stopped and reopened, no job for it is dispatched more than thirty minutes after it began, unless a skipped failure restarted its clock, and then not more than thirty minutes after that |
| `Histories.ChainClock` | scripts/source/retry_state.go:382-388 | Through any run, stops and reopenings, the stored start of a chain is the time it began or the time its clock was last restarted |
| `Boundaries.SkippedFailureMovesDeadline` | scripts/source/retry_state.go:383-402 | A run in which a failed completion that a held goal skips restarts the clock of a resting stop: the chain that began at 100 s is reopened with the same retry and sent at 3300 s |
| `Theorems.OnePhasePerThread` | scripts/source/model.go:124-146 | After every run a thread has at most one of pending, awaiting and stopped, and a goal-stop request only beside a stop with its key and reason `goal_empty_response_limit` |
| `Theorems.LiveCountersMatch` | scripts/source/retry_state.go:443-463 | After every run the counters of a live thread are those of its entry, 1 <= consecutive <= attempt, and the chain has a start time |
| `Theorems.HeldGoalIsRespected` | scripts/source/daemon.go:805-817 | A job dispatched while the goal is held is for a failure that the user restarted in this run from a goal-limit stop, or the very turn whose failure began its chain was started in this run by a handled task_started that no retry took, no earlier than the known hold |
| `Theorems.NoProgressBoundsAttempts` | scripts/source/retry_state.go:353-359 | In every tick a job whose chain had no progress event has equal counters, so the no-progress limit of a tick that could reload bounds its attempts too |
| `Histories.ChainStartStays` | scripts/source/retry_state.go:382-388 | As long as a chain stays live, through any run, its start time does not move and its attempt number does not fall |
| `Histories.TurnIsWrittenOnce` | scripts/source/retry_state.go:209-228 | As long as a thread keeps awaiting, through any run, the turn of the retry, its start, its failure and its attempt stay |
| `Histories.OnlyCorrelatedCompletion` | scripts/source/retry_state.go:337-361 | In every run a completion changes an awaiting thread only if it is for the last aborted turn, or for the turn of a task_started handled in this run that this failure and attempt, then without a turn, took as its own: inside the dispatch window of the entry it found, at both ends, or under the adoption conditions |
| `Histories.RestartNeedsProgress` | scripts/source/retry_state.go:353-359 | In every run the no-progress count of a chain falls back only to 1 and only if progress was reported after the retry got its turn |
| `Histories.HoldStays` | scripts/source/goal_recovery.go:71-98 | Through any run a goal hold stays until a change that `Rules.HoldEndsExactlyBy` names |
| `Histories.GoalLimitLatch` | scripts/source/retry_state.go:204-208 | Through any run of turns, ticks, reloads, dispatches and process restarts a goal-limit stop keeps its record, request and counters, up to the repair of a zero no-progress count |
| `Histories.GoalBlockRunsAreBounded` | scripts/source/goal_recovery.go:168-187 | One goal-stop request gets at most as many current runs as the largest controller failure limit in the run, and the last one clears it |
| `Histories.OverBudgetStopsForGood` | scripts/source/daemon.go:384-391 | Once a failure is stopped over a numeric limit, no later job is for it until the user restarts the thread or its own event is handled once more: not under another stop reason, not under raised limits, not after a restart of the process, whatever the events are dated |
| `Histories.HandledOnce` | scripts/source/retry_state.go:173-198 | Through any run an event that was handled changes its thread no second time before its key is pruned, however often it is read |
| `Histories.KeysTellApart` | scripts/source/events.go:258-262 | Two readings have the same key exactly if thread, kind, turn, time and digest agree |
| `Histories.EachEventOnce` | scripts/source/retry_state.go:173-198 | So after its first handling an event changes no thread again before its key is pruned |
| `Histories.KnownIsNotRenewed` | scripts/source/retry_state.go:173-198 | So until its key is pruned only a user restart renews a failure that is stopped over its limits |
| `Histories.InactiveNeedsTwoAnswers` | scripts/source/daemon.go:533-550 | In every run an acknowledged retry is given up as inactive only if the newest two answers about it were inactive and at least five seconds apart, and not before the acknowledgement timeout |
| `Histories.OneJobPerThread` | scripts/source/daemon.go:896-915 | Under every interleaving each thread has at most one outstanding job and `active` is exactly the threads with one |
| `Ends.OverForGood` | scripts/source/daemon.go:804-829 | A thread that is no longer about a failure, for whatever reason, has no job for it dispatched or begun, through any run, until that failure is handled again |
| `Ends.CancelEnds` | scripts/source/retry_state.go:125-136 | A cancelled retry is gone with both counters and leaves the goal alone, and nothing is sent for its failure until that failure is handled again |
| `Ends.ExpeditedIsSent` | scripts/source/retry_state.go:117-124 | An expedited retry keeps its payload and is due now; the next dispatch that may send it does, unless every free slot goes to a retry that was due no later |
| `Ends.EventEnds` | scripts/source/retry_state.go:348-352 | A success of the retry's own turn or of the failed turn it waits for, an abort, manual input, a start of another turn and an update that holds the goal each reset the thread, and nothing is sent for the failure until it is handled again |
| `Ends.RefusalEnds` | scripts/source/daemon.go:941-957 | So does a call that says the retry does not apply |
| `Holds.HoldBeginsExactlyBy` | scripts/source/goal_recovery.go:14-98 | A hold begins if and only if a fresh update reports any status but an active goal or a block that belongs to the last failure (or one that ends a given-up goal), a refused call reports one, or a goal-stop request is answered or given up |
| `Holds.NoJobForHeldGoal` | scripts/source/daemon.go:805-817 | After such a change no job of the thread is dispatched until a change of `Rules.HoldEndsExactlyBy`, apart from a failure the user restarted in this run from a given-up goal and a turn that was started outside in this run no earlier than a pause or block |
| `Waits.DueExactly` | scripts/source/retry_state.go:443-457 | Every change that makes a retry wait makes it due exactly the closed form of the delay later, for its place in the row of attempts without progress or for its failed calls in a row, or at once after a user command, a reopening or a restart; no other change moves a due time |
| `Waits.EveryRetryWaits` | scripts/source/daemon.go:818-823 | In every run no retry is sent before the due time that its newest schedule gave it |
| `Waits.BackOffIsWaited` | scripts/source/retry_state.go:443-457 | No job for a failure is sent before the time it was handled plus the closed form of the delay for its place in the row, unless the user, a reopening, an adopted turn or its event once more hastens it |
| `RunInvariant.StepKeepsOk` | scripts/source/daemon.go:117-196 | Every step keeps the invariant of threads, traces, jobs, budget, probes and log |
| `RunInvariant.RunKeepsOk` | scripts/source/daemon.go:98-115 | Every run keeps that invariant |
| `Chains.ChangeKeepsChain` | scripts/source/retry_state.go:342-361 | A step that leaves a chain live keeps its start; its counters stay, or the attempt grows by one after an acknowledged turn and the no-progress count grows or restarts |
| `Chains.StepChangesThread` | scripts/source/daemon.go:117-196 | Every step acts on each thread by the one per-thread operation named for it |
| `Rules.TurnComesFromStart` | scripts/source/retry_state.go:209-253 | A retry gets a turn only from a task_started event in its dispatch window or one that may be adopted, with that turn and time |
| `Rules.ChangeKeepsTurn` | scripts/source/daemon.go:917-933 | No step rewrites the turn of an awaiting entry: it stays or the entry ends |
| `Rules.OnlyOwnCompletionMatters` | scripts/source/retry_state.go:337-361 | A completion with another turn leaves an awaiting thread as it is, unless it is for the last aborted turn |
| `Rules.HoldEndsExactlyBy` | scripts/source/goal_recovery.go:14-98 | A hold ends if and only if a fresh update activates the goal (unless its goal block has failed), a fresh block update follows the last failure within -2 s to +5 s, a failed completion of the thread follows the block so, the user restarts a stop, or the record is removed |
| `Boundaries.RestartLiftsPause` | scripts/source/retry_state.go:148 | A reachable pause that a user restart lifts, without an activation |
| `Boundaries.FailureLiftsBlock` | scripts/source/retry_state.go:390-391 | A reachable goal block that a later failure lifts, without an activation |
| `Boundaries.BlockLiftsPause` | scripts/source/goal_recovery.go:71-75 | A reachable pause that a block update lifts, without an activation |
| `Rules.LatchIgnoresTurns` | scripts/source/retry_state.go:268-271 | Start, input, progress, completion, abort and notice events leave a goal-limit stop, its request and its counters alone |
| `Rules.OverBudgetRevives` | scripts/source/daemon.go:384-391 | A thread stopped over its own limits becomes live again only by a user restart or with a new failure at attempt 1, whatever its reason and the present limits |
| `Histories.ReopenedChainGoesOn` | scripts/source/daemon.go:392-404 | A live chain that any step stops, that rests through any run and is then reopened has the failure and the two counters it had, whatever was handled in between |
| `Rules.TransportStopKeepsChain` | scripts/source/daemon.go:669-717 | Whatever stops a live chain for want of a transport takes back exactly one attempt and keeps failure and start |
| `Rules.RestMovesStart` | scripts/source/retry_state.go:382-402 | While a stop rests, the start of its chain moves if and only if a failed completion is skipped under a held goal with both counters zero, and then to the present |
| `Rules.StopKeepsStart` | scripts/source/retry_state.go:411-438 | Whatever stops a live chain keeps its start |
| `Reasons.ReasonsAreTrue` | scripts/source/retry_state.go:522-539 | After every run in which the controller does not use the watchdog's own codes, the reason of a stop is true: the limit it names was exceeded or the time was over; a goal is given up only without an answer and over a limit or the time; the catch-all reason never occurs |
| `Rules.ExhaustedReasonIsTrue` | scripts/source/retry_state.go:410-421 | The reason of an exhausted chain names what was exceeded: attempts, no-progress count, time, or one of them for a goal without answers |
| `Rules.LoweredReasonIsTrue` | scripts/source/retry_state.go:70-108 | The same for a stop by lowered limits |
| `Rules.InactiveReasonIsTrue` | scripts/source/daemon.go:574-597 | The same for a stop after an inactive turn |
| `Rules.DispatchLeavesPending` | scripts/source/daemon.go:792-886 | Dispatch leaves a pending thread as it was, awaiting with the same payload, stopped with one attempt less, or cleared by a hold |
| `Outcomes.StartOutcome` | scripts/source/retry_state.go:200-266 | A start is ignored, noted beside a given-up goal, taken as the turn of the retry (window at both ends, or adoption) or external, exactly by the fields it finds; an external start resets the retry |
| `Outcomes.InputOutcome` | scripts/source/retry_state.go:268-286 | Manual input resets exactly a goal turn of a retry and a retry that waits for the turn that started last; otherwise nothing changes |
| `Outcomes.ProgressOutcome` | scripts/source/retry_state.go:288-299 | Progress is noted exactly for the own turn of the retry while it is the newest |
| `Outcomes.AbortOutcome` | scripts/source/retry_state.go:301-328 | An abort is remembered and resets everything but a given-up goal |
| `Outcomes.NoticeOutcome` | scripts/source/subagent_recovery.go:9-23 | A notice sets the mark of exactly the live retry it names |
| `Outcomes.SuccessOutcome` | scripts/source/retry_state.go:330-378 | A success of the own turn, of the failed turn a retry waits for or of a thread without one, and any end of the aborted turn, resets the thread |
| `Outcomes.IgnoredCompletion` | scripts/source/retry_state.go:330-372 | A completion of another turn, a second failure of a waiting one and any completion beside a given-up goal change nothing |
| `Outcomes.FailureOutcome` | scripts/source/retry_state.go:382-466 | A failure to be answered is skipped exactly under a hold that is not its own, forgotten exactly if it is not retryable, given up exactly if a configured limit or the time is exceeded, and otherwise gets attempt + 1 with its limits, its payload and its due time |
| `Outcomes.UpdateOutcome` | scripts/source/goal_recovery.go:14-98 | A stale update changes nothing; a fresh one is recorded, decides the hold by status and times, and resets exactly the retries that the hold does not let pass |
| `TickOutcomes.CancelOutcome` | scripts/source/retry_state.go:125-136 | Cancelling resets a pending retry and does nothing otherwise |
| `TickOutcomes.ExpediteOutcome` | scripts/source/retry_state.go:117-124 | Expediting makes a pending retry due now and changes nothing else |
| `TickOutcomes.RestartOutcome` | scripts/source/retry_state.go:137-169 | A restarted stop is retried from attempt 1 with the class limits, due now, under no hold, marked if its goal was given up |
| `TickOutcomes.ReloadOutcome` | scripts/source/retry_state.go:60-108 | A reload stops a pending retry exactly if it exceeds the new configuration, under the reason that says why, and gives every other live retry the new limits |
| `TickOutcomes.StartupOutcome` | scripts/source/retry_state.go:10-37 | A process restart makes a dispatched retry without a turn due at once and keeps every other entry, the goal and the request |
| `TickOutcomes.LoadRepairs` | scripts/source/state.go:62-102 | Loading a saved record fills in missing counts from what is there and keeps the rest |
| `TickOutcomes.LoadingTwice` | scripts/source/state.go:62-102 | Loading twice is loading once |
| `TickOutcomes.ReopenOutcome` | scripts/source/transport_recovery.go:13-53 | A stop is reopened if and only if no job is out and it is recent, untouched since its failure, of a goal that may go on, never sent or waiting for a restart, and within the limits of its stop and of the configuration |
| `TickOutcomes.RescheduleOutcome` | scripts/source/daemon.go:629-689 | A dispatch without an effect stops the retry at one of eleven codes or at the failure limit, and otherwise puts it back for the delay of its failed calls |
| `TickOutcomes.ExpiryOutcome` | scripts/source/daemon.go:439-449 | An unacknowledged dispatch past its deadline counts as a failed call exactly when its job is over |
| `TickOutcomes.ProbesExactly` | scripts/source/daemon.go:474-499 | Exactly the turns that have run for the timeout and were not asked about for five seconds are asked about |
| `TickOutcomes.FailedProbe` | scripts/source/daemon.go:515-532 | A failed probe is counted, or stops the retry at the limit or an action code |
| `TickOutcomes.ProbeOutcome` | scripts/source/daemon.go:533-623 | An active answer starts the count anew, the first inactive one is counted and the second moves on to the next attempt or to a stop over the limits carried |
| `JobOutcomes.DispatchDoes` | scripts/source/daemon.go:739-886 | A dispatch sends nothing in a pause, without a free slot or without a transport (then every due retry stops); otherwise picked retries are sent, barred ones reset and late ones stopped |
| `JobOutcomes.LeftOutOnlyIfFull` | scripts/source/daemon.go:830-839 | A retry that may be sent is left out only if every free slot is taken by one that is due no later |
| `JobOutcomes.SentInOrder` | scripts/source/daemon.go:833-841 | Retries are sent in the order of their due times, each once |
| `JobOutcomes.GoalRequestsFirst` | scripts/source/daemon.go:740-776 | A goal-stop request gets a slot only when due and without a job, and is left out only if no slot is left at all |
| `JobOutcomes.DispatchedJobs` | scripts/source/daemon.go:764-884 | Each filled slot gets one job that has not begun, with the payload of the retry or of the request |
| `JobOutcomes.StartOfJob` | scripts/source/daemon.go:896-907 | A job begins if and only if its thread still waits for it and no hold forbids it; otherwise it is dropped and its slot is free |
| `JobOutcomes.FailedCall` | scripts/source/daemon.go:923-940 | A failed call is counted and put back or stops the retry; a busy user is not counted |
| `JobOutcomes.AcceptedCall` | scripts/source/daemon.go:958-965 | An accepted call waits for its turn until the timeout after it, its failures in a row forgotten |
| `JobOutcomes.RefusedCall` | scripts/source/daemon.go:941-957 | A call that does not apply resets the thread and takes over exactly the hold and status its code reports |
| `JobOutcomes.GoalBlockCall` | scripts/source/goal_recovery.go:136-187 | A stopped goal is held under the status found; a failed call is counted, delayed or gives the request up |
| `JobOutcomes.ControllerAfterJob` | scripts/source/daemon.go:912-965 | The controller state after a job, and that a result nobody waits for only frees the slot |
| `JobOutcomes.ControllerAfterAnswer` | scripts/source/daemon.go:506-533 | The controller state after a probe answer, and that a stale answer changes nothing |
| `JobOutcomes.ControllerAfterReload` | scripts/source/retry_state.go:52-59 | The controller state follows the switch of the shared server |
| `Preservation.SlotsAreBounded` | scripts/source/daemon.go:740-776 | Dispatch never makes more jobs active than the configuration allows in parallel |
| `Preservation.SlotsTaken` | scripts/source/daemon.go:764-776 | Goal-block and recovery jobs of one dispatch are for different threads that had no job, and all others keep theirs |
| `Policy.FreshLimitsAgree` | scripts/source/retry_state.go:476-509 | The limits recomputed on reload from a stored class are those the fresh classification gave, and both are the smaller of what the class and the configuration allow |
| `Policy.LimitsMean` | scripts/source/retry_state.go:476-509 | The limits of a class are the smaller of what the class and the configuration allow, and are exceeded exactly if one of the configured numbers is |
| `Policy.ClassesAre` | scripts/source/classifier.go:12-87 | For each class exactly which failures are in it, and how many attempts it gets |
| `Policy.CompletionsAre` | scripts/source/classifier.go:89-101 | A completion without an error fails exactly if it is known to have no final answer |
| `Policy.ClassifyFailure` | scripts/source/classifier.go:12-87 | A failure is retried exactly if it has a class, and an error text never gives the empty-response class |
| `Policy.ClassifyCompletion` | scripts/source/classifier.go:89-101 | A completion that is retried did not succeed |
| `Backoff.RetryDelay` | scripts/source/runner.go:345-375 | The loops compute the closed form, at least one second and at most the maximum, and no intermediate value leaves 64 bits |
| `Backoff.LinearDelay` | scripts/source/runner.go:354-363 | The additive loop gives the initial delay raised n-1 times by the increment, capped by the maximum |
| `Backoff.DoublingDelay` | scripts/source/runner.go:364-374 | The doubling loop gives the initial delay doubled n-1 times, capped by the maximum, because the maximum is even |
| `Backoff.DelayIs` | scripts/source/runner.go:345-375 | The closed form: initial + k increments, or initial * 2^k, capped by the maximum |
| `Backoff.DelayMonotone` | scripts/source/runner.go:345-375 | For every valid configuration a larger count never gives a shorter delay |
| `Daemon.Daemon.constructor` | scripts/source/state.go:19-26 | The state before the first scan |
| `Daemon.Daemon.HandleEvent` | scripts/source/retry_state.go:173-198 | An event is handled once, by its handler, on the stored thread |
| `Daemon.Daemon.HandleEvents` | scripts/source/daemon.go:143-151 | The loop handles the events in order |
| `Daemon.Daemon.HandleTaskStarted` | scripts/source/retry_state.go:200-266 | Acknowledge, ignore, adopt, cancel or clear, and when nothing is written back |
| `Daemon.Daemon.HandleTaskUserInput` | scripts/source/retry_state.go:268-286 | Manual input cancels a pending retry and a goal turn, but not a conversation retry |
| `Daemon.Daemon.HandleTaskProgress` | scripts/source/retry_state.go:288-299 | Progress counts only for the correlated turn |
| `Daemon.Daemon.HandleTurnAborted` | scripts/source/retry_state.go:301-328 | An abort is remembered and clears the retry unless a goal-limit stop latches it |
| `Daemon.Daemon.HandleTaskComplete` | scripts/source/retry_state.go:330-380 | What a completion does to an awaiting, a pending and an idle thread |
| `Daemon.Daemon.ScheduleNextRetry` | scripts/source/retry_state.go:382-466 | Held, not retryable, exhausted or scheduled with its delay |
| `Daemon.Daemon.StopExhaustedRetry` | scripts/source/retry_state.go:412-441 | The stop of an exhausted chain, its reason and its goal-stop request |
| `Daemon.Daemon.HandleGoalUpdated` | scripts/source/goal_recovery.go:14-98 | Stale updates, restarts, goal-limit stops and the hold decision |
| `Daemon.Daemon.HandleRecoveryNotice` | scripts/source/subagent_recovery.go:10-23 | A notice marks only the entry it names |
| `Daemon.Daemon.ApplyControlCommand` | scripts/source/retry_state.go:110-171 | The three user commands and when they are ignored |
| `Daemon.Daemon.ReloadConfig` | scripts/source/retry_state.go:39-79 | The loop gives every entry the new limits and stops those over them; a failed load changes nothing |
| `Daemon.Daemon.StopPendingRetry` | scripts/source/retry_state.go:81-108 | The stop written when lowered limits are exceeded |
| `Daemon.Daemon.ReconcileStartup` | scripts/source/retry_state.go:10-37 | The loop makes every dispatched but unacknowledged entry due again, with its payload |
| `Daemon.Daemon.ReopenRestartRequired` | scripts/source/daemon.go:372-408 | The loop reopens exactly the eligible stops without an active job |
| `Daemon.Daemon.ExpireUnacknowledged` | scripts/source/daemon.go:439-449 | The loop reschedules exactly the unacknowledged entries past their deadline |
| `Daemon.Daemon.CollectProbes` | scripts/source/daemon.go:474-499 | The loop marks and returns exactly the turns that are due to be asked about |
| `Daemon.Daemon.TakeProbeAnswer` | scripts/source/daemon.go:506-551 | An answer counts only for the failure and turn it was asked about |
| `Daemon.Daemon.AdvanceInactiveRetry` | scripts/source/daemon.go:564-623 | Stopped over the stored limits, or the next attempt |
| `Daemon.Daemon.RescheduleAwaitingRetry` | scripts/source/daemon.go:629-667 | Stopped at the controller failure limit, or due after the delay |
| `Daemon.Daemon.StopAwaitingForController` | scripts/source/daemon.go:669-689 | The stop of an awaiting entry counts completed retries |
| `Daemon.Daemon.StopPendingForController` | scripts/source/daemon.go:691-717 | The stop of a pending entry and the marker that it is known to be unsent |
| `Daemon.Daemon.DispatchDue` | scripts/source/daemon.go:739-886 | Goal-block requests first, then a stop, a rest or the earliest due retries; the jobs returned are those made active |
| `Daemon.Daemon.StopAllDue` | scripts/source/daemon.go:785-799 | Without a transport every due entry stops instead of being promoted |
| `Daemon.Daemon.SweepCandidates` | scripts/source/daemon.go:804-829 | The loop clears held retries, stops those past the deadline and returns exactly the candidates |
| `Daemon.Daemon.LaunchPicks` | scripts/source/daemon.go:839-884 | Exactly the picked entries await, each with its job |
| `Daemon.Daemon.BeginJob` | scripts/source/daemon.go:896-907 | A job proceeds only for its own entry and attempt and if no hold forbids it; otherwise its slot is free |
| `Daemon.Daemon.FinishJob` | scripts/source/daemon.go:912-970 | The slot is freed, and a result counts only for the entry that still waits for it |
| `Daemon.Daemon.FinishRecovery` | scripts/source/daemon.go:923-965 | What each kind of result does to the entry and the controller state |
| `Daemon.Daemon.FinishGoalBlock` | scripts/source/goal_recovery.go:136-161 | What each kind of result does to the goal-stop request |
| `Daemon.Daemon.RescheduleGoalBlockRequest` | scripts/source/goal_recovery.go:168-187 | The request is given up at the failure limit, or due after the delay |
| `Slots.TakeEarliest` | scripts/source/daemon.go:833-839 | The threads taken are min(room, due) of the due ones, in the order of due time, none later than one left out |
| `Ticks.ScanSection` | scripts/source/daemon.go:125-164 | Reload, events, reopening, controls and expiry, in this order |
| `Ticks.ScanSectionIsARun` | scripts/source/daemon.go:125-164 | That section is a valid run of the transition system that ends in the very same state |
| `ReverseSearch.FindLatestMatchingLine` | scripts/source/resume_settings.go:158-183 | For every content, predicate and block size of at least 1: the last non-empty line whose prefix matches with one CR removed, not found exactly if there is none, an error exactly if that line is too long |
| `ReverseSearch.InspectLine` | scripts/source/resume_settings.go:185-211 | The answer for one line: no match, too long, or the line without its CR |
| `ReverseSearch.AnswerUnique` | scripts/source/resume_settings.go:158-183 | The bytes before `size` and the predicate determine the answer: neither the block size nor later bytes matter |
| `ReverseSearch.AppendedRecordIsFound` | scripts/source/resume_settings.go:158-183 | A record appended to whole lines whose first 4096 bytes match is the one that is found, without one carriage return, and an error if it has more than 8 MiB |
| `AppendReader.ReadAppendedEvents` | scripts/source/scanner.go:129-175 | One reading gives the events of the whole lines behind the cursor and moves the cursor behind them |
| `AppendReader.Cursor.Scan` | scripts/source/scanner.go:85-99 | A shrunken file moves the cursor to its end, an unchanged one does nothing, a grown one is read |
| `AppendReader.Cursor.ScanAll` | scripts/source/scanner.go:85-99 | Any number of scans of a growing file give the events of one reading of the last content; the cursor is behind a whole line and only an unterminated tail is left |
| `AppendReader.EventsContinue` | scripts/source/scanner.go:136-145 | When a file grows, no event is read twice and none is lost |
| `AppendReader.EndContinues` | scripts/source/scanner.go:136-145 | When a file grows, the cursor ends where one reading would have put it |
| `AppendReader.TailIsUnterminated` | scripts/source/scanner.go:142-145 | Behind the cursor there is no line feed |
| `AppendReader.AppendedLine` | scripts/source/scanner.go:129-171 | A whole line appended to whole lines adds exactly its own event, for the thread it names or else for that of the file, and none if it does not parse or is a notice for another parent |
| `Retention.Store.TrimProcessedEvents` | scripts/source/state.go:146-167 | The oldest events in (time, key) order leave |
| `Retention.Store.TrimFileCursors` | scripts/source/state.go:169-190 | The cursors seen longest ago leave, ties by path |
| `Retention.Store.TrimInactiveThreads` | scripts/source/state.go:192-245 | The oldest unprotected threads leave, none while the protected ones fill the limit |
| `Retention.Store.Prune` | scripts/source/state.go:106-144 | Entries past their age leave, then each table is trimmed to its limit |
| `Retention.TrimmedSize` | scripts/source/state.go:146-167 | Exactly min(size, limit) entries are left, with their values |
| `Retention.TrimmedUnique` | scripts/source/state.go:158-166 | What is left depends neither on the order in which a map is walked nor on the sort |
| `Retention.TrimmedThreads` | scripts/source/state.go:201-235 | Every protected thread stays, and an oversized table reaches the limit if and only if the protected threads number fewer than it |
| `Retention.PruningIsAStep` | scripts/source/state.go:120-143 | What pruning does to the threads is a pruning step of a run: no live thread leaves |
| `Retention.RecentStopSurvives` | scripts/source/state.go:222-225 | A thread stopped within the last hour outlives pruning |
| `Retention.UndatedStopExpires` | scripts/source/state.go:137-139 | A stop without a time is protected from trimming but not from its age |
| `Retention.NewestStay` | scripts/source/state.go:158-166 | What leaves is older than what stays, ties by key |
| `Retention.EventsAfterPrune` | scripts/source/state.go:106-112 | At most 20000 events are left, none older than fourteen days, and a younger one is missing only from a full table of events that are not older |
| `Retention.FilesAfterPrune` | scripts/source/state.go:113-118 | The same for 2000 files and forty-five days |
| `Retention.ExpiresExactly` | scripts/source/state.go:119-140 | A thread leaves for its age if and only if it has no retry and none of its times is within thirty days |
| `Retention.ThreadsAfterPrune` | scripts/source/state.go:192-245 | More than 500 threads are left only if that many have a retry or a stop that is shown |
| `Migration.MigrateThreadIds` | scripts/source/state_migration.go:12-61 | The merged threads and the moved event keys, for any order in which the two maps are walked and any aliases the entries yield |
| `Migration.MoveEvents` | scripts/source/state_migration.go:45-60 | For any aliases no event is lost or made up: each is found along its aliases at its time or a later one, and each key that is left came along aliases with its time; without aliases of aliases every event is under its new key at the newest of the times that meet there, whether keys added on the way are visited or not |
| `Migration.EventsMovedUnique` | scripts/source/state_migration.go:45-60 | Without aliases of aliases that determines the event map |
| `Migration.MovesExactly` | scripts/source/state_migration.go:17-40 | An entry moves if and only if its id is the turn in the name of its file, up to case, and not the thread there; and then it moves to that thread |
| `Migration.KeptIsMaximal` | scripts/source/state_migration.go:76-106 | With lower-case ids a thread is left exactly if some entry belongs to it, and what is left is one of those, maximal in (rank, time) |
| `Migration.MostActiveStays` | scripts/source/state_migration.go:76-106 | Of the entries of a thread an awaiting one stays before a pending one before a stopped one, and of the same kind the newest |
| `Migration.LiveRetryWins` | scripts/source/state_migration.go:76-106 | A live retry is never replaced by an entry that is not live |
| `Migration.MigratingTwice` | scripts/source/state_migration.go:12-40 | If no two ids are the same up to case, migrating twice is migrating once |
| `Migration.NothingMisfiledAfter` | scripts/source/state_migration.go:17-26 | Then a second migration finds no alias, so it leaves threads and event keys alone |
| `Migration.LowerCaseHasNoClash` | scripts/source/state_migration.go:17-24 | Lower-case ids, as the scanner writes them, are of this kind |
| `Migration.MixedCaseMovesAgain` | scripts/source/state_migration.go:17-24 | With two ids that are the same up to case a second migration can move an entry again |
| `Migration.NothingInvented` | scripts/source/state_migration.go:28-40 | Every entry that is left was there before |

## Where the code and its documentation differ

- The product README says that only an explicit later `active` goal update clears a hold. In the code a user restart,
  a failure that the goal block follows closely, and a block update that follows the last failure closely clear it as
  well (scripts/source/retry_state.go:148, scripts/source/retry_state.go:390-391, scripts/source/goal_recovery.go:71-75).
  `Boundaries.RestartLiftsPause`, `Boundaries.FailureLiftsBlock` and `Boundaries.BlockLiftsPause` are such runs, and
  `Rules.HoldEndsExactlyBy` has the exact condition.
- The product README says that transport recovery preserves the thirty-minute deadline. In the code a failed completion
  that a held goal skips restarts the clock of a thread whose counters are zero, also while a stop of it rests
  (scripts/source/retry_state.go:383-402). `Boundaries.SkippedFailureMovesDeadline` is such a run,
  `Rules.RestMovesStart` has the exact condition, and `Histories.DeadlineAcrossReopening` keeps the deadline without it.
- scripts/source/transport_recovery.go:11-12 says that only a known pre-dispatch stop may rejoin an automatic chain. The
  code tells so by dates (scripts/source/daemon.go:696-698), and a sent failure passes for an unsent one if it is dated
  after its tick, if a start of exactly its date is adopted, or if it is handled again after its thread was trimmed.
  `Boundaries.DatedAheadResends`, `ResendRuns.AdoptedAtFailureResends` and `ResendRuns.ForgottenFailureResends` are such
  runs; `Resends.SentIsNotResent` and `Resends.MarkEndsExactlyBy` have the exact conditions.
- `trimInactiveThreads` caps the number to remove by the number of candidates (scripts/source/state.go:233-235); that
  cap never applies, because the protected threads are known to be fewer than the limit there. With exactly as many
  protected threads as the limit nothing is removed although the limit could be reached.
- The controller failure limit does not bound retries that are accepted but never acknowledged, because an accepted
  dispatch resets the count (scripts/source/daemon.go:961). Only the thirty-minute deadline ends them, so no bound on
  their number is claimed.

## Left out

- Resends.SentIsNotResent: failures without a date are not covered; each of its other conditions has a run that leaves it (`Boundaries.DatedAheadResends`, `ResendRuns.AdoptedAtFailureResends`, `ResendRuns.ForgottenFailureResends`).
- Histories.OverBudgetStopsForGood: the event of the failure may be handled once more only after its key was pruned (`Histories.HandledOnce`); then it begins a new chain.
- Histories.HoldStays: counts the removal of an old inactive record by pruning as an end of the hold.
- Histories.GoalBlockRunsAreBounded: the bound is the largest controller failure limit of the run, since the limit may change between two runs of a request.
- AppendReader.Cursor.ScanAll: one append-only file; read errors, moved files (`migrateFileCursor`) and several files for one thread are not modelled.
- Migration.MigrateThreadIds: when a thread that entries move to is itself a misfiled id, how far an event key follows the aliases depends on which added keys the walk visits; both ends are allowed. Case folding is that of ASCII letters.
- Network, pipes, processes, registry, tray, panels and files: what a controller call, a probe, a configuration load or a scan yields is a parameter.
- The texts that `classifyFailure` searches for are one flag per test, in the order of the tests. Event keys are records of thread, kind, turn, time and a digest instead of hashes; a recovery notice names the thread and failure it is for.
- Cancelling a running call (`activeCtx`) has no effect on the state; a cancelled call is a job that finishes with some result.
- A state file that could not be written: a restart continues from the state in memory. Since jobs start after a write and finish with one (scripts/source/daemon.go:174-182, scripts/source/daemon.go:966), a crash after a successful write is the run without the steps that were not written. Repairs of records written by versions before attempts were counted (`LegacyFailures`) are left out.
- The id migration is not part of a modelled restart.
- `OtherReason` stands for codes that the watchdog compares with nothing; it is never one of the named codes.
- Durations do not saturate; times are unbounded except in the delay loops, where the 64-bit range is proved.
- The shared-server lifecycle, fail-open cleanup, memory guards, supervisor, logging, status snapshots and management tools.
