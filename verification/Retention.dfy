/** Keeping the saved state small: old entries are pruned and each table is trimmed to its limit, oldest first. */
module Retention {
  import opened Types
  import opened Policy
  import opened Sorting
  import World

  const MAX_PROCESSED: nat := 20000
  const MAX_FILES: nat := 2000
  const MAX_THREADS: nat := 500
  const DAY: int := 24 * 3600 * SECOND

  datatype FileCursor = FileCursor(offset: int, lastSeen: Time)

  type Times = map<string, Time>

  /** What a table is sorted by. */
  function CursorTimes(files: map<string, FileCursor>): Times {
    map p | p in files :: files[p].lastSeen
  }

  function Later(a: Time, b: Time): Time { if b > a then b else a }

  /** The newest lifecycle time of a thread. */
  function LastActivity(th: ThreadState): (at: Time)
    ensures at >= th.lastFailureAt && at >= th.goalUpdatedAt && at >= th.goalObservedAt && at >= th.lastAbortedAt
    ensures th.stopped.Some? ==> at >= th.stopped.value.stoppedAt
    ensures th.goalStop.Some? ==> at >= th.goalStop.value.requestedAt
    ensures at in {th.lastFailureAt, th.goalUpdatedAt, th.goalObservedAt, th.lastAbortedAt} ||
            (th.stopped.Some? && at == th.stopped.value.stoppedAt) ||
            (th.goalStop.Some? && at == th.goalStop.value.requestedAt)
  {
    var at := Later(Later(Later(th.lastFailureAt, th.goalUpdatedAt), th.goalObservedAt), th.lastAbortedAt);
    var at' := if th.stopped.Some? then Later(at, th.stopped.value.stoppedAt) else at;
    if th.goalStop.Some? then Later(at', th.goalStop.value.requestedAt) else at'
  }

  /** A retry that can still run, or a stopped entry that is still shown. */
  predicate Protected(th: ThreadState, now: Time) {
    || World.Live(th)
    || (th.stopped.Some? && !th.stopped.value.historical &&
        (th.stopped.value.stoppedAt == 0 || now - th.stopped.value.stoppedAt <= DISPLAY_WINDOW))
  }

  predicate Expired(th: ThreadState, now: Time) {
    !World.Live(th) && LastActivity(th) != 0 && LastActivity(th) < now - 30 * DAY
  }

  function Trimmable(threads: map<ThreadId, ThreadState>, now: Time): Times {
    map t | t in threads && !Protected(threads[t], now) :: LastActivity(threads[t])
  }

  // ---- what trimming means ----

  /** Exactly `count` keys leave, each of them older than every key that stays; ties go by key. */
  ghost predicate Oldest(times: Times, removed: set<string>, count: nat) {
    && removed <= times.Keys && |removed| == count
    && forall r, s :: r in removed && s in times && s !in removed ==> Before(Stamped(r, times[r]), Stamped(s, times[s]))
  }

  function Excess(size: nat, limit: nat): nat {
    if size <= limit then 0 else size - limit
  }

  /** How many threads leave: none while the protected ones alone fill the limit. */
  function ThreadExcess(threads: map<ThreadId, ThreadState>, limit: nat, now: Time): (n: nat)
    ensures n <= |Trimmable(threads, now)|
  {
    var loose := |Trimmable(threads, now)|;
    if |threads| <= limit || |threads| - loose >= limit then 0 else |threads| - limit
  }

  /** `after` is `before` without the `count` oldest of the keys listed in `times`. */
  ghost predicate TrimmedTo<V>(before: map<string, V>, times: Times, after: map<string, V>, count: nat) {
    exists removed :: Oldest(times, removed, count) && after == before - removed
  }

  /** Which keys leave does not depend on the order in which a map is walked, nor on how the sort places equal times. */
  lemma TrimmedUnique<V>(before: map<string, V>, times: Times, one: map<string, V>, other: map<string, V>, count: nat)
    requires TrimmedTo(before, times, one, count) && TrimmedTo(before, times, other, count)
    ensures one == other
  {
    var r1 :| Oldest(times, r1, count) && one == before - r1;
    var r2 :| Oldest(times, r2, count) && other == before - r2;
    forall k | k in r1 ensures k in r2 { OldestAgree(times, r1, r2, count, k); }
    forall k | k in r2 ensures k in r1 { OldestAgree(times, r2, r1, count, k); }
    assert r1 == r2;
  }

  lemma OldestAgree(times: Times, one: set<string>, other: set<string>, count: nat, k: string)
    requires Oldest(times, one, count) && Oldest(times, other, count) && k in one
    ensures k in other
  {
    if k !in other {
      var rest := one - {k};
      if other <= rest {
        SubsetCount(other, rest);
        assert false;
      } else {
        var j :| j in other && j !in rest;
        assert Before(Stamped(j, times[j]), Stamped(k, times[k]));
        assert Before(Stamped(k, times[k]), Stamped(j, times[j]));
        KeyAsymmetric(j, k);
      }
    }
  }

  lemma {:induction false} SubsetCount<T>(a: set<T>, b: set<T>)
    requires a <= b
    ensures |a| <= |b|
  {
    if a != {} {
      var x :| x in a;
      SubsetCount(a - {x}, b - {x});
    }
  }

  lemma KeyAsymmetric(a: string, b: string)
    requires KeyLess(a, b)
    ensures !KeyLess(b, a)
  {
    if KeyLess(b, a) {
      KeyTransitive(a, b, a);
      KeyIrreflexive(a);
    }
  }

  // ---- collecting, sorting and cutting ----

  ghost predicate Collected(es: seq<Stamped>, times: Times, rest: set<string>) {
    && DistinctKeys(es) && Keys(es) == times.Keys - rest
    && forall e :: e in es ==> e.key in times && e.at == times[e.key]
  }

  lemma CollectedMore(es: seq<Stamped>, times: Times, rest: set<string>, k: string)
    requires Collected(es, times, rest) && k in rest && rest <= times.Keys
    ensures Collected(es + [Stamped(k, times[k])], times, rest - {k})
  {
    var more := es + [Stamped(k, times[k])];
    assert k !in Keys(es);
    forall i, j | 0 <= i < j < |more| ensures more[i].key != more[j].key {
      if j == |es| {
        assert more[i] == es[i] && es[i] in es;
        assert es[i].key in Keys(es);
      }
    }
    forall x ensures x in Keys(more) <==> x in Keys(es) + {k} {
      if x in Keys(es) {
        var e :| e in es && e.key == x;
        assert e in more;
      }
      if x == k { assert more[|es|] in more; }
    }
  }

  lemma CutIsBefore(sorted: seq<Stamped>, times: Times, count: nat, r: string, s: string)
    requires Collected(sorted, times, {}) && Ordered(sorted) && count <= |sorted|
    requires r in Keys(sorted[..count]) && s in times && s !in Keys(sorted[..count])
    ensures Before(Stamped(r, times[r]), Stamped(s, times[s]))
  {
    var cut := sorted[..count];
    assert s in Keys(sorted);
    var e :| e in cut && e.key == r;
    var i :| 0 <= i < count && cut[i] == e;
    var f :| f in sorted && f.key == s;
    var j :| 0 <= j < |sorted| && sorted[j] == f;
    assert forall k :: 0 <= k < count ==> cut[k] == sorted[k];
    assert count <= j;
    assert sorted[i] == e && NotAfter(sorted[i], sorted[j]);
  }

  /** The first entries of the sorted list are the oldest keys. */
  lemma CutIsOldest(sorted: seq<Stamped>, times: Times, count: nat)
    requires Collected(sorted, times, {}) && Ordered(sorted) && count <= |sorted|
    ensures Oldest(times, Keys(sorted[..count]), count)
  {
    var cut := sorted[..count];
    assert forall e :: e in cut ==> e in sorted;
    assert forall i :: 0 <= i < count ==> sorted[i] == cut[i];
    KeyCount(cut);
    forall r, s | r in Keys(cut) && s in times && s !in Keys(cut)
        ensures Before(Stamped(r, times[r]), Stamped(s, times[s])) {
      CutIsBefore(sorted, times, count, r, s);
    }
  }

  method SortedEntries(times: Times) returns (es: seq<Stamped>)
    ensures Collected(es, times, {}) && Ordered(es) && |es| == |times|
  {
    es := [];
    var rest := times.Keys;
    assert Keys(es) == {};
    while rest != {}
      invariant rest <= times.Keys && Collected(es, times, rest)
      decreases rest
    {
      var k :| k in rest;
      CollectedMore(es, times, rest, k);
      es := es + [Stamped(k, times[k])];
      rest := rest - {k};
    }
    SortedKeys(es);
    es := Sort(es);
    KeyCount(es);
  }

  lemma KeysGrow(es: seq<Stamped>, i: nat)
    requires i < |es|
    ensures Keys(es[..i + 1]) == Keys(es[..i]) + {es[i].key}
  {
    var more, less := es[..i + 1], es[..i];
    assert more == less + [es[i]];
    forall x ensures x in Keys(more) <==> x in Keys(less) + {es[i].key} {
      if x in Keys(less) {
        var e :| e in less && e.key == x;
        assert e in more;
      }
      if x == es[i].key { assert es[i] in more; }
    }
  }

  /** The keys to delete. */
  method OldestKeys(times: Times, count: nat) returns (removed: set<string>)
    requires count <= |times|
    ensures Oldest(times, removed, count)
  {
    var es := SortedEntries(times);
    CutIsOldest(es, times, count);
    removed := {};
    var i := 0;
    while i < count
      invariant 0 <= i <= count <= |es|
      invariant removed == Keys(es[..i])
    {
      KeysGrow(es, i);
      removed := removed + {es[i].key};
      i := i + 1;
    }
  }

  // ---- the saved state ----

  class Store {
    var processed: Times
    var files: map<string, FileCursor>
    var threads: map<ThreadId, ThreadState>

    constructor ()
      ensures processed == map[] && files == map[] && threads == map[]
    {
      processed, files, threads := map[], map[], map[];
    }

    /** What is left keeps its value; exactly `min(size, limit)` entries are left. */
    method TrimProcessedEvents(limit: nat)
      modifies `processed
      ensures TrimmedTo(old(processed), old(processed), processed, Excess(|old(processed)|, limit))
      ensures |processed| == Min(|old(processed)|, limit)
    {
      if |processed| <= limit {
        assert Oldest(processed, {}, 0) && processed - {} == processed;
        return;
      }
      var removed := OldestKeys(processed, |processed| - limit);
      Remaining(processed, removed);
      processed := processed - removed;
    }

    method TrimFileCursors(limit: nat)
      modifies `files
      ensures TrimmedTo(old(files), CursorTimes(old(files)), files, Excess(|old(files)|, limit))
      ensures |files| == Min(|old(files)|, limit)
    {
      assert CursorTimes(files).Keys == files.Keys;
      assert |CursorTimes(files)| == |files|;
      if |files| <= limit {
        assert Oldest(CursorTimes(files), {}, 0) && files - {} == files;
        return;
      }
      var removed := OldestKeys(CursorTimes(files), |files| - limit);
      Remaining(files, removed);
      files := files - removed;
    }

    method TrimInactiveThreads(limit: nat, now: Time)
      modifies `threads
      ensures TrimmedTo(old(threads), Trimmable(old(threads), now), threads, ThreadExcess(old(threads), limit, now))
    {
      var entries := Trimmable(threads, now);
      if |threads| <= limit || |threads| - |entries| >= limit {
        assert Oldest(entries, {}, 0) && threads - {} == threads;
        return;
      }
      var removeCount := |threads| - limit;
      if removeCount > |entries| {
        removeCount := |entries|;
      }
      var removed := OldestKeys(entries, removeCount);
      Remaining(threads, removed);
      threads := threads - removed;
    }

    /** `prune`: entries that are too old leave first, then each table is trimmed. */
    method Prune(now: Time)
      modifies this
      ensures var kept := FreshTimes(old(processed), now - 14 * DAY);
        TrimmedTo(kept, kept, processed, Excess(|kept|, MAX_PROCESSED))
      ensures var kept := FreshFiles(old(files), now - 45 * DAY);
        TrimmedTo(kept, CursorTimes(kept), files, Excess(|kept|, MAX_FILES))
      ensures var kept := Unexpired(old(threads), now);
        TrimmedTo(kept, Trimmable(kept, now), threads, ThreadExcess(kept, MAX_THREADS, now))
    {
      DropOldEvents(now - 14 * DAY);
      DropOldFiles(now - 45 * DAY);
      DropOldThreads(now);
      TrimProcessedEvents(MAX_PROCESSED);
      TrimFileCursors(MAX_FILES);
      TrimInactiveThreads(MAX_THREADS, now);
    }

    method DropOldEvents(cutoff: Time)
      modifies `processed
      ensures processed == FreshTimes(old(processed), cutoff)
    {
      var todo := processed.Keys;
      while todo != {}
        invariant todo <= processed.Keys <= old(processed).Keys
        invariant forall k :: k in old(processed) ==> (k in processed <==> k in todo || old(processed)[k] >= cutoff)
        invariant forall k :: k in processed ==> processed[k] == old(processed)[k]
        decreases todo
      {
        var k :| k in todo;
        todo := todo - {k};
        if processed[k] < cutoff {
          processed := processed - {k};
        }
      }
    }

    method DropOldFiles(cutoff: Time)
      modifies `files
      ensures files == FreshFiles(old(files), cutoff)
    {
      var todo := files.Keys;
      while todo != {}
        invariant todo <= files.Keys <= old(files).Keys
        invariant forall p :: p in old(files) ==> (p in files <==> p in todo || old(files)[p].lastSeen >= cutoff)
        invariant forall p :: p in files ==> files[p] == old(files)[p]
        decreases todo
      {
        var p :| p in todo;
        todo := todo - {p};
        if files[p].lastSeen < cutoff {
          files := files - {p};
        }
      }
    }

    method DropOldThreads(now: Time)
      modifies `threads
      ensures threads == Unexpired(old(threads), now)
    {
      var todo := threads.Keys;
      while todo != {}
        invariant todo <= threads.Keys <= old(threads).Keys
        invariant forall t :: t in old(threads) ==> (t in threads <==> t in todo || !Expired(old(threads)[t], now))
        invariant forall t :: t in threads ==> threads[t] == old(threads)[t]
        decreases todo
      {
        var t :| t in todo;
        todo := todo - {t};
        var at := LastActivity(threads[t]);
        if threads[t].pending.None? && threads[t].awaiting.None? && at != 0 && at < now - 30 * DAY {
          threads := threads - {t};
        }
      }
    }
  }

  function FreshTimes(times: Times, cutoff: Time): Times {
    map k | k in times && times[k] >= cutoff :: times[k]
  }

  function FreshFiles(files: map<string, FileCursor>, cutoff: Time): map<string, FileCursor> {
    map p | p in files && files[p].lastSeen >= cutoff :: files[p]
  }

  function Unexpired(threads: map<ThreadId, ThreadState>, now: Time): map<ThreadId, ThreadState> {
    map t | t in threads && !Expired(threads[t], now) :: threads[t]
  }

  lemma Remaining<V>(m: map<string, V>, removed: set<string>)
    requires removed <= m.Keys
    ensures |m - removed| == |m| - |removed|
  {
    assert (m - removed).Keys == m.Keys - removed;
    assert |m.Keys - removed| == |m.Keys| - |removed|;
  }

  /** Trimming a table leaves exactly `min(size, limit)` entries, none of them changed. */
  lemma TrimmedSize<V>(before: map<string, V>, times: Times, after: map<string, V>, limit: nat)
    requires TrimmedTo(before, times, after, Excess(|before|, limit)) && times.Keys == before.Keys
    ensures |after| == Min(|before|, limit) && forall k :: k in after ==> k in before && after[k] == before[k]
  {
    var removed :| Oldest(times, removed, Excess(|before|, limit)) && after == before - removed;
    Remaining(before, removed);
  }

  /** Trimming threads keeps every protected one, and reaches the limit exactly when the protected ones number fewer. */
  lemma TrimmedThreads(before: map<ThreadId, ThreadState>, after: map<ThreadId, ThreadState>, limit: nat, now: Time)
    requires TrimmedTo(before, Trimmable(before, now), after, ThreadExcess(before, limit, now))
    ensures forall t :: t in before && Protected(before[t], now) ==> t in after
    ensures forall t :: t in after ==> t in before && after[t] == before[t]
    ensures |before| > limit ==>
      (|after| == limit <==> |before| - |Trimmable(before, now)| < limit) && (|after| == limit || after == before)
    ensures |before| <= limit ==> after == before
  {
    var removed :| Oldest(Trimmable(before, now), removed, ThreadExcess(before, limit, now))
        && after == before - removed;
    Remaining(before, removed);
  }

  lemma GoneAreIdle(threads: map<ThreadId, ThreadState>, after: map<ThreadId, ThreadState>, now: Time)
    requires var kept := Unexpired(threads, now);
      TrimmedTo(kept, Trimmable(kept, now), after, ThreadExcess(kept, MAX_THREADS, now))
    ensures forall t :: t in threads && t !in after ==> !World.Live(threads[t])
    ensures forall t :: t in after ==> t in threads && after[t] == threads[t]
  {
    var kept := Unexpired(threads, now);
    TrimmedThreads(kept, after, MAX_THREADS, now);
    forall t | t in threads && t !in after ensures !World.Live(threads[t]) {
      assert t in kept ==> !Protected(kept[t], now);
    }
  }

  lemma SameRest<K, V>(m: map<K, V>, after: map<K, V>)
    requires forall k :: k in after ==> k in m && after[k] == m[k]
    ensures m - (m.Keys - after.Keys) == after
  {
  }

  /** What pruning does to the threads is a `Prune` step of a run: no live thread leaves. */
  lemma PruningIsAStep(w: World.World, after: map<ThreadId, ThreadState>, now: Time, keys: set<EventKey>)
    requires w.phase.Idle?
    requires var kept := Unexpired(w.core.threads, now);
      TrimmedTo(kept, Trimmable(kept, now), after, ThreadExcess(kept, MAX_THREADS, now))
    ensures var step := World.Prune(w.core.threads.Keys - after.Keys, keys);
      World.Enabled(w, step) && World.Apply(w, step).core.threads == after
  {
    GoneAreIdle(w.core.threads, after, now);
    SameRest(w.core.threads, after);
  }

  /** What leaves is no newer than what stays. */
  lemma NewestStay<V>(before: map<string, V>, times: Times, after: map<string, V>, count: nat, gone: string,
      kept: string)
    requires TrimmedTo(before, times, after, count)
    requires gone in before && gone !in after && kept in after && kept in times
    ensures gone in times && times[gone] <= times[kept] && (times[gone] == times[kept] ==> KeyLess(gone, kept))
  {
    var removed :| Oldest(times, removed, count) && after == before - removed;
    assert gone in removed && kept !in removed;
  }

  /** After pruning there are at most 20000 events, none older than fourteen days, and a younger one is missing only
      from a full table of events that are not older. */
  lemma EventsAfterPrune(before: Times, after: Times, now: Time, key: string, other: string)
    requires var kept := FreshTimes(before, now - 14 * DAY);
      TrimmedTo(kept, kept, after, Excess(|kept|, MAX_PROCESSED))
    ensures |after| <= 20000 && (key in after ==> key in before && now - before[key] <= 14 * 86400 * SECOND)
    ensures key in before && key !in after ==>
      now - before[key] > 14 * 86400 * SECOND || (|after| == 20000 && (other in after ==> before[key] <= before[other]))
  {
    var kept := FreshTimes(before, now - 14 * DAY);
    if key in kept && key !in after && other in after {
      NewestStay(kept, kept, after, Excess(|kept|, MAX_PROCESSED), key, other);
    }
    TrimmedSize(FreshTimes(before, now - 14 * DAY), FreshTimes(before, now - 14 * DAY), after, MAX_PROCESSED);
    WholeTable(FreshTimes(before, now - 14 * DAY), FreshTimes(before, now - 14 * DAY), after, MAX_PROCESSED);
  }

  /** The same for at most 2000 files and forty-five days. */
  lemma FilesAfterPrune(before: map<string, FileCursor>, after: map<string, FileCursor>, now: Time, path: string,
      other: string)
    requires var kept := FreshFiles(before, now - 45 * DAY);
      TrimmedTo(kept, CursorTimes(kept), after, Excess(|kept|, MAX_FILES))
    ensures |after| <= 2000 && (path in after ==> path in before && now - before[path].lastSeen <= 45 * 86400 * SECOND)
    ensures path in before && path !in after ==>
      now - before[path].lastSeen > 45 * 86400 * SECOND ||
      (|after| == 2000 && (other in after ==> before[path].lastSeen <= before[other].lastSeen))
  {
    var kept := FreshFiles(before, now - 45 * DAY);
    assert CursorTimes(kept).Keys == kept.Keys;
    if path in kept && path !in after && other in after {
      NewestStay(kept, CursorTimes(kept), after, Excess(|kept|, MAX_FILES), path, other);
    }
    TrimmedSize(kept, CursorTimes(kept), after, MAX_FILES);
    WholeTable(kept, CursorTimes(kept), after, MAX_FILES);
  }

  lemma WholeTable<V>(before: map<string, V>, times: Times, after: map<string, V>, limit: nat)
    requires TrimmedTo(before, times, after, Excess(|before|, limit))
    ensures |before| <= limit ==> after == before
  {
    if |before| <= limit {
      var removed :| Oldest(times, removed, 0) && after == before - removed;
      assert removed == {};
    }
  }

  /** The thread has been silent for thirty days: some time of it is known, and none is newer. */
  predicate Silent(th: ThreadState, now: Time) {
    var times := {th.lastFailureAt, th.goalUpdatedAt, th.goalObservedAt, th.lastAbortedAt} +
                 (if th.stopped.Some? then {th.stopped.value.stoppedAt} else {}) +
                 (if th.goalStop.Some? then {th.goalStop.value.requestedAt} else {});
    && (forall at :: at in times ==> now - at > 30 * 86400 * SECOND)
    && (exists at :: at in times && at != 0 && forall b :: b in times ==> b <= at)
  }

  /** A thread leaves for its age exactly if it has no retry and has been silent for thirty days. */
  lemma ExpiresExactly(th: ThreadState, now: Time)
    ensures Expired(th, now) <==> th.pending.None? && th.awaiting.None? && Silent(th, now)
  {
    var times := {th.lastFailureAt, th.goalUpdatedAt, th.goalObservedAt, th.lastAbortedAt} +
                 (if th.stopped.Some? then {th.stopped.value.stoppedAt} else {}) +
                 (if th.goalStop.Some? then {th.goalStop.value.requestedAt} else {});
    assert LastActivity(th) in times && forall at :: at in times ==> at <= LastActivity(th);
  }

  lemma ShownIsProtected(th: ThreadState, now: Time)
    ensures Shown(th, now) <==> Protected(th, now)
  {
  }

  lemma ShownAreMany(kept: map<ThreadId, ThreadState>, now: Time)
    ensures |set u | u in kept && Shown(kept[u], now)| == |kept| - |Trimmable(kept, now)|
  {
    var loose := Trimmable(kept, now).Keys;
    forall u | u in kept ensures Shown(kept[u], now) <==> u !in loose {
      ShownIsProtected(kept[u], now);
    }
    assert (set u | u in kept && Shown(kept[u], now)) == kept.Keys - loose;
    assert loose <= kept.Keys;
  }

  /** After pruning there are more than 500 threads only if that many have a retry or a stop that is shown. */
  lemma ThreadsAfterPrune(before: map<ThreadId, ThreadState>, after: map<ThreadId, ThreadState>, now: Time, t: ThreadId)
    requires var kept := Unexpired(before, now);
      TrimmedTo(kept, Trimmable(kept, now), after, ThreadExcess(kept, MAX_THREADS, now))
    ensures t in after ==> t in before && after[t] == before[t] && !Expired(before[t], now)
    ensures t in before && t !in after && !Expired(before[t], now) ==> !Shown(before[t], now) && |after| == 500
    ensures |after| > 500 ==> |set u | u in after && Shown(after[u], now)| >= 500
  {
    var kept := Unexpired(before, now);
    TrimmedThreads(kept, after, MAX_THREADS, now);
    if t in kept { ShownIsProtected(kept[t], now); }
    if |after| > 500 {
      assert after == kept;
      ShownAreMany(kept, now);
    }
  }

  /** A thread with a retry, or with a stop of the last hour or of an unknown time that is not historical. */
  predicate Shown(th: ThreadState, now: Time) {
    || th.pending.Some? || th.awaiting.Some?
    || (th.stopped.Some? && !th.stopped.value.historical
        && (th.stopped.value.stoppedAt == 0 || now <= th.stopped.value.stoppedAt + 3600 * SECOND))
  }

  /** A recently stopped thread outlives pruning unless its stop time is missing. */
  lemma RecentStopSurvives(th: ThreadState, now: Time)
    requires th.stopped.Some? && !th.stopped.value.historical && th.stopped.value.stoppedAt != 0
    requires now - th.stopped.value.stoppedAt <= DISPLAY_WINDOW
    ensures Protected(th, now) && !Expired(th, now)
  {
  }

  /** A stopped entry without a stop time is protected from trimming but not from its age. */
  lemma UndatedStopExpires()
    ensures exists th: ThreadState, now: Time :: Protected(th, now) && Expired(th, now)
  {
    var fault := Fault(EventKey("t", CompleteKind, "a", 1, ""), "a", 1, 0, Unknown, "", "");
    var th := EmptyThread.(lastFailureAt := 1, stopped := Some(Stopped(fault, 0, 0, 1, 0, 1, RetryLimit, false, None)));
    var now := 31 * DAY;
    assert Protected(th, now) && Expired(th, now);
  }
}
