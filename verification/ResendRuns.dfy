/** Runs that leave the two conditions under which a failure is not sent again by a reopening. */
module ResendRuns {
  import opened Types
  import opened ThreadSteps
  import opened Core
  import opened World
  import opened Theorems
  import opened Boundaries
  import opened Resends

  /** A reached world has a job for this failure in its log, and its stop about the failure looks unsent. */
  ghost predicate SentAndLooksUnsent(steps: seq<Step>, e: Entry, at: Time) {
    && IsRun(FRESH, ROOMY, 3, steps) && e in Run(FRESH, steps).log && e.thread == T
    && 0 < e.retry.fault.key.at < e.at && LooksUnsent(ThreadOf(Run(FRESH, steps), T), e.retry.fault.key, at)
  }

  lemma LogStays(base: World, w: World, v: World)
    requires Reached(base, w) && v.log == w.log && w.log != []
    ensures w.log[|w.log| - 1] in v.log
  {
  }

  // ---- a start dated at the failure ----

  const STARTED_AT: Item := ItemOf(TaskStarted("a", At(20)))
  const RETRY_A: Retry := FirstRetry(FAILED_A, 0)

  const DUE_A: ThreadState := PENDING_ONE.(pending := Some(Pending(RETRY_A, At(100))))

  const SENT_A: ThreadState := DUE_A.(
    pending := None, lastAutoRetryAt := At(100),
    awaiting := Some(Awaiting(RETRY_A, "", Dispatching, At(100), At(110), 0, 0, 0)))

  const BACK_A: ThreadState := PENDING_ONE.(lastAutoRetryAt := At(100))

  const ADOPTED_A: ThreadState := BACK_A.(
    lastStartedTurn := "a", lastStartedAt := At(20), lastAutoRetryAt := At(20), pending := None,
    awaiting := Some(Awaiting(RETRY_A, "a", GoalActive, At(20), 0, At(20), 0, 0)))

  const FAILED_PROBE: Answer := ProbeFailed(SharedDisabled)
  const STOPPED_A: ThreadState := StopAwaiting(ProbeStarted(ADOPTED_A, At(101)), At(101), SharedDisabled)

  lemma StepsOfA()
    ensures OnEvent(EmptyThread, ACTIVATED, At(100), ROOMY) == Some(GOAL_THREAD)
    ensures OnEvent(GOAL_THREAD, FAILED_A, At(100), ROOMY) == Some(PENDING_ONE)
    ensures SentByHand(PENDING_ONE, DUE_A, SENT_A, RETRY_A, BUSY, BACK_A, At(100), ROOMY)
    ensures OnEvent(BACK_A, STARTED_AT, At(101), ROOMY) == Some(ADOPTED_A)
    ensures ProbeDue(ADOPTED_A, At(101), ROOMY) && !Unacknowledged(ADOPTED_A, At(101))
    ensures Answered(ProbeStarted(ADOPTED_A, At(101)), FAILED_PROBE, At(101), ROOMY) == STOPPED_A
    ensures LooksUnsent(STOPPED_A, RETRY_A.fault.key, At(101))
  {
  }

  lemma Asked(base: World, w: World, now: Time, th: ThreadState, cfg: Config, newest: Time)
    requires Quiet(base, w, Waiting, now, th, cfg, newest) && ProbeDue(th, now, cfg)
    ensures var v := Apply(w, BeginProbes(true));
      && Reached(base, v) && v.phase.Probing? && T in v.core.threads && ThreadOf(v, T) == ProbeStarted(th, now)
      && v.probes == map[T := Probe(th.awaiting.value.retry.fault.key, th.awaiting.value.retryTurn)]
      && v.log == w.log && v.now == now && v.core.config == cfg
  {
    Go(base, w, BeginProbes(true));
    assert T in w.core.threads;
    assert ProbesDue(w.core, now).Keys == {T};
  }

  lemma AnsweredOnce(base: World, w: World, now: Time, th: ThreadState, cfg: Config, p: Probe, answer: Answer)
    requires Reached(base, w) && w.phase.Probing? && T in w.core.threads && ThreadOf(w, T) == th
    requires w.probes == map[T := p] && ProbeCurrent(th, p) && w.now == now && w.core.config == cfg
    ensures var v := Apply(w, TakeAnswer(T, answer));
      Reached(base, v) && ThreadOf(v, T) == Answered(th, answer, now, cfg) && v.log == w.log
  {
    Go(base, w, TakeAnswer(T, answer));
  }

  /** The tick in which the start is adopted and the probe of it fails. */
  lemma AdoptedAndStopped(base: World, w: World) returns (v: World)
    requires Quiet(base, w, Idle, At(100), BACK_A, ROOMY, At(20))
    ensures Reached(base, v) && ThreadOf(v, T) == STOPPED_A && v.log == w.log
  {
    StepsOfA();
    Begun(base, w, At(100), BACK_A, ROOMY, At(20), At(101), None);
    var w1 := Apply(w, TickStart(At(101), None, At(101)));
    Observed(base, w1, At(101), BACK_A, ROOMY, At(20), STARTED_AT, ADOPTED_A);
    var w2 := Apply(w1, Observe(STARTED_AT));
    Scanned(base, w2, At(101), ADOPTED_A, ROOMY, Stamp(STARTED_AT));
    var w3 := Apply(w2, EndScan(false));
    Expired(base, w3, At(101), ADOPTED_A, ROOMY, Stamp(STARTED_AT));
    var w4 := Apply(w3, ExpireStarts);
    Asked(base, w4, At(101), ADOPTED_A, ROOMY, Stamp(STARTED_AT));
    var w5 := Apply(w4, BeginProbes(true));
    AnsweredOnce(base, w5, At(101), ProbeStarted(ADOPTED_A, At(101)), ROOMY, Probe(RETRY_A.fault.key, "a"),
        FAILED_PROBE);
    v := Apply(w5, TakeAnswer(T, FAILED_PROBE));
  }

  lemma SentAndBackOnce() returns (w: World)
    ensures Quiet(FRESH, w, Idle, At(100), BACK_A, ROOMY, At(20)) && Newest(w, RETRY_A, At(100))
  {
    StepsOfA();
    var w3 := TwoEvents(ACTIVATED, GOAL_THREAD, FAILED_A, PENDING_ONE);
    w := SentInTick(FRESH, w3, At(100), PENDING_ONE, ROOMY, At(20), DUE_A, SENT_A, RETRY_A, BUSY, BACK_A);
  }

  /** A start dated exactly at the failure is adopted and sets back the time of the newest retry: although the failure
      was sent and its retry got a turn, a stop about it looks unsent. */
  lemma AdoptedAtFailureResends() returns (steps: seq<Step>, e: Entry)
    ensures SentAndLooksUnsent(steps, e, At(101))
  {
    var w := SentAndBackOnce();
    var v := AdoptedAndStopped(FRESH, w);
    StepsOfA();
    LogStays(FRESH, w, v);
    e := w.log[|w.log| - 1];
    steps :| ValidRun(FRESH, steps) && Run(FRESH, steps) == v;
    Start(FRESH);
  }

  // ---- a failure that is handled again ----

  const BEGUN_A: Item := ItemOf(TaskStarted("a", At(15)))
  const SKIPPED: Result := NotApplicable(NoReason, false)

  const RUNNING_A: ThreadState := EmptyThread.(
    lastStartedTurn := "a", lastStartedAt := At(15), lastExternalTurn := "a", lastExternalAt := At(15))

  const RETRY_B: Retry := FirstRetry(FAILED_A, At(15))

  function PendingAt(seen: Time, due: Time): ThreadState {
    RUNNING_A.(recoveryAttempts := 1, consecutiveRetries := 1, recoveryStartedAt := seen, lastFailureAt := At(20),
               pending := Some(Pending(RETRY_B, due)))
  }

  const SENT_B: ThreadState := PendingAt(At(100), At(100)).(
    pending := None, lastAutoRetryAt := At(100),
    awaiting := Some(Awaiting(RETRY_B, "", Dispatching, At(100), At(110), 0, 0, 0)))

  const OVER_B: ThreadState := Clear(SENT_B)
  const STOPPED_B: ThreadState := StopPending(PendingAt(At(300), At(300)), At(300), SharedDisabled)

  lemma StepsOfB()
    ensures OnEvent(EmptyThread, BEGUN_A, At(100), ROOMY) == Some(RUNNING_A)
    ensures OnEvent(RUNNING_A, FAILED_A, At(100), ROOMY) == Some(PendingAt(At(100), At(101)))
    ensures SentByHand(PendingAt(At(100), At(101)), PendingAt(At(100), At(100)), SENT_B, RETRY_B, SKIPPED, OVER_B,
                       At(100), ROOMY)
  {
  }

  lemma StepsAgain()
    ensures OnEvent(EmptyThread, BEGUN_A, At(300), NO_SHARED) == Some(RUNNING_A)
    ensures OnEvent(RUNNING_A, FAILED_A, At(300), NO_SHARED) == Some(PendingAt(At(300), At(301)))
    ensures OnCommand(PendingAt(At(300), At(301)), RetryNow, At(300), NO_SHARED) == Some(PendingAt(At(300), At(300)))
    ensures DuePending(PendingAt(At(300), At(300)), At(300)) && LooksUnsent(STOPPED_B, RETRY_B.fault.key, At(300))
  {
  }

  lemma SentAndSkipped() returns (w: World)
    ensures Quiet(FRESH, w, Idle, At(100), OVER_B, ROOMY, At(20)) && Newest(w, RETRY_B, At(100))
    ensures w.core.controller == Ready
  {
    StepsOfB();
    var w3 := TwoEvents(BEGUN_A, RUNNING_A, FAILED_A, PendingAt(At(100), At(101)));
    w := SentInTick(FRESH, w3, At(100), PendingAt(At(100), At(101)), ROOMY, At(20), PendingAt(At(100), At(100)), SENT_B,
                    RETRY_B, SKIPPED, OVER_B);
  }

  /** Pruning forgets the thread and every handled event. */
  lemma Forgotten(base: World, w: World, now: Time, th: ThreadState, cfg: Config, newest: Time) returns (v: World)
    requires Quiet(base, w, Idle, now, th, cfg, newest) && !Live(th)
    ensures Quiet(base, v, Idle, now, EmptyThread, cfg, 0) && v.log == w.log && v.core.controller == w.core.controller
  {
    Go(base, w, Prune({T}, w.core.processed.Keys));
    v := Apply(w, Prune({T}, w.core.processed.Keys));
  }

  /** The same events are handled again. */
  lemma HandledAgain(base: World, w: World) returns (v: World)
    requires Quiet(base, w, Idle, At(100), EmptyThread, ROOMY, 0) && w.core.controller == Ready
    ensures Quiet(base, v, Scanning, At(300), PendingAt(At(300), At(301)), NO_SHARED, At(20)) && v.log == w.log
    ensures v.core.controller == Failing(SharedDisabled)
  {
    StepsAgain();
    Begun(base, w, At(100), EmptyThread, ROOMY, 0, At(300), Some(NO_SHARED));
    var w1 := Apply(w, TickStart(At(300), Some(NO_SHARED), At(300)));
    assert Reloaded(EmptyThread, At(300), NO_SHARED) == EmptyThread;
    Observed(base, w1, At(300), EmptyThread, NO_SHARED, 0, BEGUN_A, RUNNING_A);
    var w2 := Apply(w1, Observe(BEGUN_A));
    Observed(base, w2, At(300), RUNNING_A, NO_SHARED, Stamp(BEGUN_A), FAILED_A, PendingAt(At(300), At(301)));
    v := Apply(w2, Observe(FAILED_A));
  }

  /** The retry is stopped for want of a transport. */
  lemma StoppedAgain(base: World, w: World) returns (v: World)
    requires Quiet(base, w, Scanning, At(300), PendingAt(At(300), At(301)), NO_SHARED, At(20))
    requires w.core.controller == Failing(SharedDisabled)
    ensures Reached(base, v) && ThreadOf(v, T) == STOPPED_B && v.log == w.log
  {
    StepsAgain();
    var w1 := RetriedInTick(base, w, At(300), PendingAt(At(300), At(301)), NO_SHARED, At(20),
        PendingAt(At(300), At(300)));
    StoppedUnsent(base, w1, At(300), PendingAt(At(300), At(300)), NO_SHARED, At(20));
    v := Apply(w1, DispatchDue([], []));
  }

  /** A failure whose key and thread were pruned is handled once more: although it was sent, its stop looks unsent. */
  lemma ForgottenFailureResends() returns (steps: seq<Step>, e: Entry)
    ensures SentAndLooksUnsent(steps, e, At(300))
  {
    var w := SentAndSkipped();
    var w1 := Forgotten(FRESH, w, At(100), OVER_B, ROOMY, At(20));
    var w2 := HandledAgain(FRESH, w1);
    var v := StoppedAgain(FRESH, w2);
    StepsAgain();
    LogStays(FRESH, w, v);
    e := w.log[|w.log| - 1];
    steps :| ValidRun(FRESH, steps) && Run(FRESH, steps) == v;
    Start(FRESH);
  }
}
