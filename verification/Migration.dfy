/** Repairing thread ids written by an old scanner: entries filed under a turn id move to their thread, and the
    entries that meet there are merged. */
module Migration {
  import opened Types
  import World

  /** Thread and turn id in the name of a rollout file; both empty if the name has neither. */
  datatype Ids = Ids(thread: ThreadId, turn: string)

  type PathIds = string -> Ids

  type Threads = map<ThreadId, ThreadState>

  function LowerChar(c: char): char {
    if 'A' <= c <= 'Z' then 'a' + (c - 'A') else c
  }

  function Lower(s: string): (l: string)
    ensures |l| == |s|
  {
    if s == "" then "" else [LowerChar(s[0])] + Lower(s[1..])
  }

  predicate IsLower(s: string) { Lower(s) == s }

  lemma {:induction false} LowerTwice(s: string)
    ensures IsLower(Lower(s))
  {
    if s != "" {
      LowerTwice(s[1..]);
      assert Lower(s)[1..] == Lower(s[1..]);
    }
  }

  // ---- ranking ----

  function RolloutPath(th: ThreadState): string {
    if th.pending.Some? && th.pending.value.retry.fault.rolloutPath != "" then th.pending.value.retry.fault.rolloutPath
    else if th.awaiting.Some? && th.awaiting.value.retry.fault.rolloutPath != ""
        then th.awaiting.value.retry.fault.rolloutPath
    else if th.stopped.Some? && th.stopped.value.fault.rolloutPath != "" then th.stopped.value.fault.rolloutPath
    else ""
  }

  function FirstSet(a: Time, b: Time): Time { if a == 0 then b else a }

  function Rank(th: ThreadState): int {
    if th.awaiting.Some? then 3 else if th.pending.Some? then 2 else if th.stopped.Some? then 1 else 0
  }

  function RankTime(th: ThreadState): Time {
    if th.awaiting.Some? then FirstSet(th.awaiting.value.dispatchStartedAt, th.awaiting.value.startedAt)
    else if th.pending.Some? then FirstSet(th.pending.value.retry.fault.failedAt, th.pending.value.dueAt)
    else if th.stopped.Some? then th.stopped.value.stoppedAt
    else th.lastFailureAt
  }

  /** `a` does not lose against `b`. */
  predicate AtLeast(a: ThreadState, b: ThreadState) {
    Rank(a) > Rank(b) || (Rank(a) == Rank(b) && RankTime(a) >= RankTime(b))
  }

  function Merge(left: ThreadState, right: ThreadState): (r: ThreadState)
    ensures r in {left, right} && AtLeast(r, left) && AtLeast(r, right)
  {
    if Rank(right) > Rank(left) || (Rank(right) == Rank(left) && RankTime(right) > RankTime(left)) then right else left
  }

  // ---- where an entry belongs ----

  /** The ids in the path of an entry, in lower case. */
  function IdsOf(th: ThreadState, paths: PathIds): Ids {
    var ids := paths(RolloutPath(th));
    Ids(Lower(ids.thread), Lower(ids.turn))
  }

  predicate Misfiled(id: ThreadId, th: ThreadState, paths: PathIds) {
    var ids := IdsOf(th, paths);
    ids.thread != "" && ids.turn != "" && Lower(id) == ids.turn && Lower(id) != ids.thread
  }

  predicate AliasFrom(id: ThreadId, th: ThreadState, paths: PathIds, alias: string, thread: ThreadId) {
    Misfiled(id, th, paths) && alias == Lower(id) && thread == IdsOf(th, paths).thread
  }

  predicate HasSource(threads: Threads, paths: PathIds, alias: string, thread: ThreadId) {
    exists id :: id in threads && AliasFrom(id, threads[id], paths, alias, thread)
  }

  /** Every alias comes from an entry, and every misfiled entry has one. */
  predicate AliasesOf(threads: Threads, paths: PathIds, aliases: map<string, ThreadId>) {
    && (forall a :: a in aliases ==> HasSource(threads, paths, a, aliases[a]))
    && (forall id :: id in threads && Misfiled(id, threads[id], paths) ==> Lower(id) in aliases)
  }

  function Target(id: ThreadId, aliases: map<string, ThreadId>): ThreadId {
    if Lower(id) in aliases && aliases[Lower(id)] != "" then aliases[Lower(id)] else Lower(id)
  }

  /** `th` is one of the entries among `ids` that belong to `t`. */
  predicate FiledFrom(threads: Threads, aliases: map<string, ThreadId>, ids: set<ThreadId>, t: ThreadId,
      th: ThreadState) {
    exists id :: id in ids && id in threads && Target(id, aliases) == t && th == threads[id]
  }

  /** Each target holds one of the entries that belong there, and none of them beats it. */
  predicate MergedFrom(threads: Threads, aliases: map<string, ThreadId>, ids: set<ThreadId>, merged: Threads) {
    && (forall id :: id in ids && id in threads ==>
          Target(id, aliases) in merged && AtLeast(merged[Target(id, aliases)], threads[id]))
    && (forall t :: t in merged ==> FiledFrom(threads, aliases, ids, t, merged[t]))
  }

  predicate MigratedBy(threads: Threads, paths: PathIds, aliases: map<string, ThreadId>, after: Threads) {
    && AliasesOf(threads, paths, aliases)
    && if aliases == map[] then after == threads else MergedFrom(threads, aliases, threads.Keys, after)
  }

  ghost predicate Migrated(threads: Threads, paths: PathIds, after: Threads) {
    exists aliases :: MigratedBy(threads, paths, aliases, after)
  }

  // ---- the migration ----

  method FindAliases(threads: Threads, paths: PathIds) returns (aliases: map<string, ThreadId>)
    ensures AliasesOf(threads, paths, aliases)
  {
    aliases := map[];
    var todo := threads.Keys;
    while todo != {}
      invariant todo <= threads.Keys
      invariant forall a :: a in aliases ==> HasSource(threads, paths, a, aliases[a])
      invariant forall id :: id in threads && id !in todo && Misfiled(id, threads[id], paths) ==> Lower(id) in aliases
      decreases todo
    {
      var id :| id in todo;
      todo := todo - {id};
      var ids := IdsOf(threads[id], paths);
      if ids.thread == "" || ids.turn == "" || Lower(id) != ids.turn || Lower(id) == ids.thread {
        continue;
      }
      assert AliasFrom(id, threads[id], paths, Lower(id), ids.thread)
          && HasSource(threads, paths, Lower(id), ids.thread);
      aliases := aliases[Lower(id) := ids.thread];
    }
  }

  method MergeEntries(threads: Threads, aliases: map<string, ThreadId>) returns (after: Threads)
    ensures MergedFrom(threads, aliases, threads.Keys, after)
  {
    after := map[];
    var todo := threads.Keys;
    while todo != {}
      invariant todo <= threads.Keys
      invariant MergedFrom(threads, aliases, threads.Keys - todo, after)
      decreases todo
    {
      var id :| id in todo;
      MergedMore(threads, aliases, threads.Keys - todo, after, id);
      assert threads.Keys - (todo - {id}) == threads.Keys - todo + {id};
      todo := todo - {id};
      var target := Target(id, aliases);
      if target in after {
        after := after[target := Merge(after[target], threads[id])];
      } else {
        after := after[target := threads[id]];
      }
    }
    assert threads.Keys - todo == threads.Keys;
  }

  // ---- processed events ----

  type Times = map<string, Time>

  /** The position of the first bar, or the length. */
  function Bar(key: string): (n: nat)
    ensures n <= |key| && (n < |key| ==> key[n] == '|') && '|' !in key[..n]
  {
    if key == "" then 0 else if key[0] == '|' then 0
    else
      var n := Bar(key[1..]);
      assert key[..n + 1] == [key[0]] + key[1..][..n];
      n + 1
  }

  /** The key under the thread that its id is an alias of. */
  function Renamed(key: string, aliases: map<string, ThreadId>): string {
    var n := Bar(key);
    if n == 0 || n == |key| || Lower(key[..n]) !in aliases || aliases[Lower(key[..n])] == "" then key
    else aliases[Lower(key[..n])] + key[n..]
  }

  /** No thread that entries move to is itself a misfiled id, and no id contains a bar. */
  predicate NoChain(aliases: map<string, ThreadId>) {
    forall a :: a in aliases ==> Lower(aliases[a]) !in aliases && '|' !in aliases[a]
  }

  lemma {:induction false} BarAfter(id: string, rest: string)
    requires '|' !in id && rest != "" && rest[0] == '|'
    ensures Bar(id + rest) == |id|
  {
    if id == "" {
      assert id + rest == rest;
    } else {
      assert (id + rest)[1..] == id[1..] + rest;
      BarAfter(id[1..], rest);
    }
  }

  lemma RenamedOnce(key: string, aliases: map<string, ThreadId>)
    requires NoChain(aliases)
    ensures Renamed(Renamed(key, aliases), aliases) == Renamed(key, aliases)
  {
    var n := Bar(key);
    if Renamed(key, aliases) != key {
      var id := aliases[Lower(key[..n])];
      BarAfter(id, key[n..]);
      assert (id + key[n..])[..|id|] == id;
    }
  }

  /** No alias applies to the key. */
  predicate NothingToRename(key: string, aliases: map<string, ThreadId>) {
    var n := Bar(key);
    n == 0 || n == |key| || Lower(key[..n]) !in aliases || aliases[Lower(key[..n])] == ""
  }

  predicate RenamesOnce(rename: string -> string, k: string) { rename(rename(k)) == rename(k) }

  predicate KeptFrom(events: Times, rename: string -> string, key: string, at: Time) {
    exists k :: k in events && rename(k) == rename(key) && at == events[k]
  }

  predicate Arrived(rename: string -> string, after: Times, k: string, at: Time) {
    (k in after && after[k] >= at) || (rename(k) in after && after[rename(k)] >= at)
  }

  /** Every event is under its new key, at the newest of the times that meet there. */
  predicate EventsMoved(events: Times, rename: string -> string, after: Times) {
    && (forall k :: k in events ==> rename(k) in after && after[rename(k)] >= events[k])
    && (forall r :: r in after ==> rename(r) == r && KeptFrom(events, rename, r, after[r]))
  }

  /** What has been moved so far; `rest` are the keys still to be visited. */
  predicate MovedSoFar(events: Times, rename: string -> string, after: Times, rest: set<string>) {
    && rest <= after.Keys
    && (forall k {:trigger Arrived(rename, after, k, events[k])} ::
        k in events ==> Arrived(rename, after, k, events[k]))
    && (forall r :: r in after ==> r in rest || rename(r) == r)
    && (forall r {:trigger KeptFrom(events, rename, r, after[r])} ::
        r in after ==> KeptFrom(events, rename, r, after[r]))
  }

  /** The loop body: the later time goes to the new key and the old key leaves. */
  function MoveOne(after: Times, key: string, target: string): (moved: Times)
    requires key in after
    ensures target != key ==> target in moved && moved[target] >= after[key]
    ensures moved.Keys == after.Keys + {target} - {key}
    ensures forall r :: r in moved && r != target ==> r in after && moved[r] == after[r]
    ensures target in moved ==> moved[target] == after[key] || (target in after && moved[target] == after[target])
    ensures target in moved && target in after ==> moved[target] >= after[target]
  {
    (if target !in after || after[key] > after[target] then after[target := after[key]] else after) - {key}
  }

  lemma KeptStays(events: Times, rename: string -> string, after: Times, key: string, r: string)
    requires key in after && RenamesOnce(rename, key) && rename(key) != key
    requires KeptFrom(events, rename, key, after[key]) && (r in after ==> KeptFrom(events, rename, r, after[r]))
    requires r in MoveOne(after, key, rename(key))
    ensures KeptFrom(events, rename, r, MoveOne(after, key, rename(key))[r])
  {
  }

  lemma ArrivedStays(rename: string -> string, after: Times, key: string, k: string, at: Time)
    requires key in after && RenamesOnce(rename, k) && rename(key) != key && Arrived(rename, after, k, at)
    ensures Arrived(rename, MoveOne(after, key, rename(key)), k, at)
  {
  }

  lemma MovedOne(events: Times, rename: string -> string, after: Times, rest: set<string>, key: string, again: bool)
    requires forall k :: RenamesOnce(rename, k)
    requires MovedSoFar(events, rename, after, rest) && key in rest && rename(key) != key
    ensures MovedSoFar(events, rename, MoveOne(after, key, rename(key)), rest - {key} + if again then {rename(key)}
        else {})
  {
    var moved := MoveOne(after, key, rename(key));
    assert RenamesOnce(rename, key);
    assert KeptFrom(events, rename, key, after[key]);
    forall r | r in moved ensures KeptFrom(events, rename, r, moved[r]) {
      assert r in after ==> KeptFrom(events, rename, r, after[r]);
      KeptStays(events, rename, after, key, r);
    }
    forall k | k in events ensures Arrived(rename, moved, k, events[k]) {
      assert RenamesOnce(rename, k) && Arrived(rename, after, k, events[k]);
      ArrivedStays(rename, after, key, k, events[k]);
    }
  }

  /** A key that stays needs no further visit. */
  lemma KeptOne(events: Times, rename: string -> string, after: Times, rest: set<string>, key: string)
    requires MovedSoFar(events, rename, after, rest) && key in rest && rename(key) == key
    ensures MovedSoFar(events, rename, after, rest - {key})
  {
  }

  lemma MovingBegins(events: Times, rename: string -> string)
    ensures MovedSoFar(events, rename, events, events.Keys)
  {
    forall k | k in events ensures KeptFrom(events, rename, k, events[k]) && Arrived(rename, events, k, events[k]) {
    }
  }

  lemma MovingEnds(events: Times, rename: string -> string, after: Times)
    requires MovedSoFar(events, rename, after, {})
    ensures EventsMoved(events, rename, after)
  {
    forall k | k in events ensures rename(k) in after && after[rename(k)] >= events[k] {
      assert Arrived(rename, after, k, events[k]);
    }
  }

  /** Walking the events in another order gives the same. */
  lemma EventsMovedUnique(events: Times, rename: string -> string, one: Times, other: Times)
    requires EventsMoved(events, rename, one) && EventsMoved(events, rename, other)
    ensures one == other
  {
    forall r | r in one ensures r in other && other[r] >= one[r] { MovedIn(events, rename, one, other, r); }
    forall r | r in other ensures r in one && one[r] >= other[r] { MovedIn(events, rename, other, one, r); }
    assert one.Keys == other.Keys;
  }

  lemma MovedIn(events: Times, rename: string -> string, one: Times, other: Times, r: string)
    requires EventsMoved(events, rename, one) && EventsMoved(events, rename, other) && r in one
    ensures r in other && other[r] >= one[r]
  {
    assert KeptFrom(events, rename, r, one[r]);
    var k :| k in events && rename(k) == rename(r) && one[r] == events[k];
  }

  // ---- aliases of aliases ----

  /** No id is its own alias up to case. */
  predicate SelfFree(aliases: map<string, ThreadId>) {
    forall a :: a in aliases ==> Lower(aliases[a]) != a
  }

  lemma AliasesAreSelfFree(threads: Threads, paths: PathIds, aliases: map<string, ThreadId>)
    requires AliasesOf(threads, paths, aliases)
    ensures SelfFree(aliases)
  {
    forall a | a in aliases ensures Lower(aliases[a]) != a {
      assert HasSource(threads, paths, a, aliases[a]);
      var id :| id in threads && AliasFrom(id, threads[id], paths, a, aliases[a]);
      LowerTwice(paths(RolloutPath(threads[id])).thread);
    }
  }

  lemma RenamesAway(key: string, aliases: map<string, ThreadId>)
    requires SelfFree(aliases) && !NothingToRename(key, aliases)
    ensures Renamed(key, aliases) != key
  {
    var n := Bar(key);
    var id := aliases[Lower(key[..n])];
    assert (id + key[n..])[..|id|] == id;
  }

  /** `r` is the name of `k` after `n` aliases have been applied one after the other. */
  predicate Follows(k: string, r: string, aliases: map<string, ThreadId>, n: nat)
    decreases n
  {
    if n == 0 then r == k else !NothingToRename(k, aliases) && Follows(Renamed(k, aliases), r, aliases, n - 1)
  }

  lemma {:induction false} FollowsOn(k: string, r: string, aliases: map<string, ThreadId>, n: nat)
    requires Follows(k, r, aliases, n) && !NothingToRename(r, aliases)
    ensures Follows(k, Renamed(r, aliases), aliases, n + 1)
    decreases n
  {
    if n == 0 {
      assert Follows(Renamed(r, aliases), Renamed(r, aliases), aliases, 0);
    } else {
      FollowsOn(Renamed(k, aliases), r, aliases, n - 1);
    }
  }

  ghost predicate CameFrom(events: Times, aliases: map<string, ThreadId>, r: string, at: Time) {
    exists k, n: nat :: k in events && Follows(k, r, aliases, n) && events[k] == at
  }

  ghost predicate WentTo(aliases: map<string, ThreadId>, after: Times, k: string, at: Time) {
    exists r, n: nat :: r in after && Follows(k, r, aliases, n) && after[r] >= at
  }

  /** An alias has led to this name. */
  ghost predicate Named(events: Times, aliases: map<string, ThreadId>, r: string) {
    exists k, n: nat :: k in events && n > 0 && Follows(k, r, aliases, n)
  }

  /** Every event is found along its aliases at its time or a later one, whatever is there came along aliases with its
      time, and a name that still has an alias is a name that an alias led to, or is in `rest`. */
  ghost predicate Followed(events: Times, aliases: map<string, ThreadId>, after: Times, rest: set<string>) {
    && (forall k {:trigger WentTo(aliases, after, k, events[k])} ::
          k in events ==> WentTo(aliases, after, k, events[k]))
    && (forall r {:trigger CameFrom(events, aliases, r, after[r])} ::
          r in after ==> CameFrom(events, aliases, r, after[r]))
    && (forall r {:trigger Named(events, aliases, r)} ::
          r in after ==> r in rest || NothingToRename(r, aliases) || Named(events, aliases, r))
  }

  lemma FollowingBegins(events: Times, aliases: map<string, ThreadId>)
    ensures Followed(events, aliases, events, events.Keys)
  {
    forall k | k in events ensures WentTo(aliases, events, k, events[k]) && CameFrom(events, aliases, k, events[k]) {
      assert Follows(k, k, aliases, 0);
    }
  }

  lemma WentOn(aliases: map<string, ThreadId>, after: Times, key: string, k: string, at: Time)
    requires key in after && !NothingToRename(key, aliases) && Renamed(key, aliases) != key
    requires WentTo(aliases, after, k, at)
    ensures WentTo(aliases, MoveOne(after, key, Renamed(key, aliases)), k, at)
  {
    var moved := MoveOne(after, key, Renamed(key, aliases));
    var r, n: nat :| r in after && Follows(k, r, aliases, n) && after[r] >= at;
    if r == key {
      FollowsOn(k, key, aliases, n);
      assert Renamed(key, aliases) in moved && Follows(k, Renamed(key, aliases), aliases, n + 1);
    } else {
      assert r in moved && moved[r] >= at;
    }
  }

  lemma CameOn(events: Times, aliases: map<string, ThreadId>, key: string, at: Time)
    requires CameFrom(events, aliases, key, at) && !NothingToRename(key, aliases)
    ensures CameFrom(events, aliases, Renamed(key, aliases), at) && Named(events, aliases, Renamed(key, aliases))
  {
    var k, n: nat :| k in events && Follows(k, key, aliases, n) && events[k] == at;
    FollowsOn(k, key, aliases, n);
    assert n + 1 > 0 && Follows(k, Renamed(key, aliases), aliases, n + 1);
  }

  lemma FollowedOne(events: Times, aliases: map<string, ThreadId>, after: Times, rest: set<string>, key: string,
      more: set<string>)
    requires Followed(events, aliases, after, rest) && key in after && Renamed(key, aliases) != key
    requires !NothingToRename(key, aliases)
    ensures Followed(events, aliases, MoveOne(after, key, Renamed(key, aliases)), rest - {key} + more)
  {
    var moved := MoveOne(after, key, Renamed(key, aliases));
    assert CameFrom(events, aliases, key, after[key]);
    CameOn(events, aliases, key, after[key]);
    forall k | k in events ensures WentTo(aliases, moved, k, events[k]) {
      assert WentTo(aliases, after, k, events[k]);
      WentOn(aliases, after, key, k, events[k]);
    }
    forall r | r in moved ensures CameFrom(events, aliases, r, moved[r]) {
      assert r in after ==> CameFrom(events, aliases, r, after[r]);
    }
    forall r | r in moved
      ensures r in rest - {key} + more || NothingToRename(r, aliases) || Named(events, aliases, r)
    {
      assert r in after ==> r in rest || NothingToRename(r, aliases) || Named(events, aliases, r);
    }
  }

  lemma FollowedSame(events: Times, aliases: map<string, ThreadId>, after: Times, rest: set<string>, key: string)
    requires Followed(events, aliases, after, rest) && NothingToRename(key, aliases)
    ensures Followed(events, aliases, after, rest - {key})
  {
  }

  lemma RenameTwice(aliases: map<string, ThreadId>, rename: string -> string)
    requires NoChain(aliases) && forall k :: rename(k) == Renamed(k, aliases)
    ensures forall k :: RenamesOnce(rename, k)
  {
    forall k ensures RenamesOnce(rename, k) { RenamedOnce(k, aliases); }
  }

  /** The event keys, walked in any order; a key that is added on the way may be visited too, or not. */
  method MoveEvents(events: Times, aliases: map<string, ThreadId>) returns (after: Times)
    requires SelfFree(aliases)
    ensures Followed(events, aliases, after, {})
    ensures NoChain(aliases) ==> EventsMoved(events, k => Renamed(k, aliases), after)
  {
    ghost var rename := k => Renamed(k, aliases);
    after := events;
    var todo := events.Keys;
    var visits: nat := *;
    MovingBegins(events, rename);
    FollowingBegins(events, aliases);
    if NoChain(aliases) { RenameTwice(aliases, rename); }
    while todo != {}
      invariant todo <= after.Keys
      invariant Followed(events, aliases, after, todo)
      invariant NoChain(aliases) ==> MovedSoFar(events, rename, after, todo)
      decreases visits, todo
    {
      var key :| key in todo;
      if NothingToRename(key, aliases) {
        FollowedSame(events, aliases, after, todo, key);
        if NoChain(aliases) { KeptOne(events, rename, after, todo, key); }
        todo := todo - {key};
        continue;
      }
      var target := Renamed(key, aliases);
      var again := false;
      if visits > 0 && target !in after {
        again := *;
      }
      RenamesAway(key, aliases);
      FollowedOne(events, aliases, after, todo, key, if again then {target} else {});
      if NoChain(aliases) { MovedOne(events, rename, after, todo, key, again); }
      after := MoveOne(after, key, target);
      todo := todo - {key} + if again then {target} else {};
      if again {
        visits := visits - 1;
      }
    }
    if NoChain(aliases) { MovingEnds(events, rename, after); }
  }

  /** `migrateCodex153ThreadIDs`: the thread map and the keys of the processed events, walked in any order. */
  method MigrateThreadIds(threads: Threads, events: Times, paths: PathIds)
    returns (after: Threads, moved: Times, aliases: map<string, ThreadId>)
    ensures MigratedBy(threads, paths, aliases, after) && Migrated(threads, paths, after)
    ensures aliases == map[] ==> moved == events
    ensures Followed(events, aliases, moved, {})
    ensures NoChain(aliases) ==> EventsMoved(events, k => Renamed(k, aliases), moved)
  {
    aliases := map[];
    if threads != map[] {
      aliases := FindAliases(threads, paths);
    }
    if aliases == map[] {
      assert MigratedBy(threads, paths, aliases, threads);
      FollowingBegins(events, aliases);
      return threads, events, aliases;
    }
    after := MergeEntries(threads, aliases);
    assert MigratedBy(threads, paths, aliases, after);
    AliasesAreSelfFree(threads, paths, aliases);
    moved := MoveEvents(events, aliases);
  }

  lemma MergedMore(threads: Threads, aliases: map<string, ThreadId>, ids: set<ThreadId>, merged: Threads, id: ThreadId)
    requires MergedFrom(threads, aliases, ids, merged) && id in threads && id !in ids
    ensures var t := Target(id, aliases);
      MergedFrom(threads, aliases, ids + {id},
          merged[t := if t in merged then Merge(merged[t], threads[id]) else threads[id]])
  {
    var t := Target(id, aliases);
    var more := merged[t := if t in merged then Merge(merged[t], threads[id]) else threads[id]];
    forall u | u in more ensures FiledFrom(threads, aliases, ids + {id}, u, more[u]) {
      if u != t || (t in merged && more[t] == merged[t]) {
        assert FiledFrom(threads, aliases, ids, u, merged[u]);
        var k :| k in ids && k in threads && Target(k, aliases) == u && merged[u] == threads[k];
        assert k in ids + {id};
      } else {
        assert id in ids + {id};
      }
    }
  }

  // ---- what it guarantees ----

  predicate LowerCase(threads: Threads) {
    forall id :: id in threads ==> IsLower(id)
  }

  /** The thread an entry belongs to. */
  function Home(id: ThreadId, th: ThreadState, paths: PathIds): ThreadId {
    if Misfiled(id, th, paths) then IdsOf(th, paths).thread else id
  }

  lemma TargetIsHome(threads: Threads, paths: PathIds, aliases: map<string, ThreadId>, id: ThreadId)
    requires LowerCase(threads) && AliasesOf(threads, paths, aliases) && id in threads
    ensures Target(id, aliases) == Home(id, threads[id], paths)
  {
    assert IsLower(id);
    if id in aliases {
      assert HasSource(threads, paths, id, aliases[id]);
      var k :| k in threads && AliasFrom(k, threads[k], paths, id, aliases[id]);
      assert IsLower(k);
    }
  }

  ghost predicate Keeps(threads: Threads, paths: PathIds, t: ThreadId, th: ThreadState) {
    && (exists id :: id in threads && Home(id, threads[id], paths) == t && th == threads[id])
    && (forall id :: id in threads && Home(id, threads[id], paths) == t ==> AtLeast(th, threads[id]))
  }

  /** A thread is left exactly if some entry belongs to it, and what is left is one of those entries that none of
      the others beats, whatever order the map was walked in. */
  lemma KeptIsMaximal(threads: Threads, paths: PathIds, after: Threads, t: ThreadId)
    requires LowerCase(threads) && Migrated(threads, paths, after)
    ensures t in after <==> exists id :: id in threads && Home(id, threads[id], paths) == t
    ensures t in after ==> Keeps(threads, paths, t, after[t])
  {
    var aliases :| MigratedBy(threads, paths, aliases, after);
    forall id | id in threads
      ensures Home(id, threads[id], paths) in after && AtLeast(after[Home(id, threads[id], paths)], threads[id])
    {
      TargetIsHome(threads, paths, aliases, id);
    }
    if t in after {
      var id := Filed(threads, paths, aliases, after, t);
      assert Home(id, threads[id], paths) == t;
    }
  }

  /** The files that the entries of a thread name: that of a pending one, an awaiting one and a stop. */
  function Files(th: ThreadState): seq<string> {
    [if th.pending.Some? then th.pending.value.retry.fault.rolloutPath else "",
     if th.awaiting.Some? then th.awaiting.value.retry.fault.rolloutPath else "",
     if th.stopped.Some? then th.stopped.value.fault.rolloutPath else ""]
  }

  /** The first of them that is named. */
  function FirstNamed(files: seq<string>): string {
    if files == [] then "" else if files[0] != "" then files[0] else FirstNamed(files[1..])
  }

  lemma FirstOf(a: string, b: string, c: string)
    ensures FirstNamed([a, b, c]) == if a != "" then a else if b != "" then b else c
  {
    assert [a, b, c][1..] == [b, c] && [b, c][1..] == [c] && [c][1..] == [];
    assert FirstNamed([c]) == c;
    assert FirstNamed([b, c]) == if b != "" then b else FirstNamed([c]);
  }

  lemma NamedIs(th: ThreadState)
    ensures FirstNamed(Files(th)) == RolloutPath(th)
  {
    var files := Files(th);
    assert files == [files[0], files[1], files[2]];
    FirstOf(files[0], files[1], files[2]);
  }

  lemma HomeIs(id: ThreadId, th: ThreadState, paths: PathIds)
    requires IsLower(id)
    ensures var named := paths(RolloutPath(th));
      Home(id, th, paths) ==
        if named.thread != "" && named.turn != "" && id == Lower(named.turn) && id != Lower(named.thread)
        then Lower(named.thread) else id
  {
    var named := paths(RolloutPath(th));
    assert |Lower(named.thread)| == |named.thread| && |Lower(named.turn)| == |named.turn|;
    assert IdsOf(th, paths) == Ids(Lower(named.thread), Lower(named.turn));
  }

  /** An entry moves exactly if its id is the turn in the name of its file, up to case, and not the thread there; and
      then it moves to that thread. */
  lemma MovesExactly(threads: Threads, paths: PathIds, after: Threads, id: ThreadId)
    requires LowerCase(threads) && Migrated(threads, paths, after) && id in threads
    ensures var named := paths(FirstNamed(Files(threads[id])));
      Home(id, threads[id], paths) ==
        if named.thread != "" && named.turn != "" && id == Lower(named.turn) && id != Lower(named.thread)
        then Lower(named.thread) else id
    ensures Home(id, threads[id], paths) in after
  {
    HomeIs(id, threads[id], paths);
    NamedIs(threads[id]);
    KeptIsMaximal(threads, paths, after, Home(id, threads[id], paths));
  }

  /** When the entry of an awaiting, pending or stopped thread is from. */
  function EntryTime(th: ThreadState): Time {
    if th.awaiting.Some? then
      if th.awaiting.value.dispatchStartedAt != 0 then th.awaiting.value.dispatchStartedAt
      else th.awaiting.value.startedAt
    else if th.pending.Some? then
      if th.pending.value.retry.fault.failedAt != 0 then th.pending.value.retry.fault.failedAt
      else th.pending.value.dueAt
    else if th.stopped.Some? then th.stopped.value.stoppedAt
    else th.lastFailureAt
  }

  /** Neither in use, nor waiting, nor stopped when the other is; and of the same kind only if not older. */
  predicate Beats(kept: ThreadState, th: ThreadState) {
    && (th.awaiting.Some? ==> kept.awaiting.Some?)
    && (th.pending.Some? ==> kept.awaiting.Some? || kept.pending.Some?)
    && (th.stopped.Some? ==> kept.awaiting.Some? || kept.pending.Some? || kept.stopped.Some?)
    && (SameKind(kept, th) ==> EntryTime(th) <= EntryTime(kept))
  }

  predicate SameKind(a: ThreadState, b: ThreadState) {
    if a.awaiting.Some? || b.awaiting.Some? then a.awaiting.Some? && b.awaiting.Some?
    else if a.pending.Some? || b.pending.Some? then a.pending.Some? && b.pending.Some?
    else a.stopped.Some? <==> b.stopped.Some?
  }

  lemma AtLeastBeats(kept: ThreadState, th: ThreadState)
    requires AtLeast(kept, th)
    ensures Beats(kept, th)
  {
  }

  /** What is left of the entries of a thread: an awaiting one before a pending one before a stopped one, and the newest
      of them. */
  lemma MostActiveStays(threads: Threads, paths: PathIds, after: Threads, id: ThreadId)
    requires LowerCase(threads) && Migrated(threads, paths, after) && id in threads
    ensures var t := Home(id, threads[id], paths); t in after && Beats(after[t], threads[id])
  {
    var t := Home(id, threads[id], paths);
    KeptIsMaximal(threads, paths, after, t);
    assert Keeps(threads, paths, t, after[t]);
    AtLeastBeats(after[t], threads[id]);
  }

  lemma Filed(threads: Threads, paths: PathIds, aliases: map<string, ThreadId>, after: Threads, t: ThreadId)
      returns (id: ThreadId)
    requires LowerCase(threads) && MigratedBy(threads, paths, aliases, after) && t in after
    ensures id in threads && Home(id, threads[id], paths) == t && after[t] == threads[id]
  {
    if aliases == map[] {
      id := t;
    } else {
      assert FiledFrom(threads, aliases, threads.Keys, t, after[t]);
      id :| id in threads.Keys && id in threads && Target(id, aliases) == t && after[t] == threads[id];
    }
    TargetIsHome(threads, paths, aliases, id);
    assert IsLower(id);
  }

  /** No two ids are the same up to case. */
  predicate NoCaseClash(threads: Threads) {
    forall a, b :: a in threads && b in threads && Lower(a) == Lower(b) ==> a == b
  }

  /** Whatever entry got filed under `t`, it is not misfiled there. */
  lemma SettledAfter(threads: Threads, paths: PathIds, after: Threads, t: ThreadId)
    requires NoCaseClash(threads) && Migrated(threads, paths, after) && t in after
    ensures !Misfiled(t, after[t], paths)
  {
    var aliases :| MigratedBy(threads, paths, aliases, after);
    if aliases != map[] {
      assert FiledFrom(threads, aliases, threads.Keys, t, after[t]);
      var id :| id in threads.Keys && id in threads && Target(id, aliases) == t && after[t] == threads[id];
      LowerTwice(paths(RolloutPath(threads[id])).thread);
      LowerTwice(id);
      if Lower(id) in aliases {
        assert HasSource(threads, paths, Lower(id), aliases[Lower(id)]);
        var id' :| id' in threads && AliasFrom(id', threads[id'], paths, Lower(id), aliases[Lower(id)]);
        assert t == IdsOf(threads[id], paths).thread;
      }
    }
  }

  /** A second migration finds nothing to move, so it leaves threads and event keys alone. */
  lemma NothingMisfiledAfter(threads: Threads, paths: PathIds, after: Threads, aliases: map<string, ThreadId>)
    requires NoCaseClash(threads) && Migrated(threads, paths, after) && AliasesOf(after, paths, aliases)
    ensures aliases == map[]
  {
    forall a | a in aliases ensures false {
      assert HasSource(after, paths, a, aliases[a]);
      var id :| id in after && AliasFrom(id, after[id], paths, a, aliases[a]);
      SettledAfter(threads, paths, after, id);
    }
  }

  /** Migrating twice is migrating once. */
  lemma MigratingTwice(threads: Threads, paths: PathIds, after: Threads, again: Threads)
    requires NoCaseClash(threads) && Migrated(threads, paths, after) && Migrated(after, paths, again)
    ensures again == after
  {
    var aliases :| MigratedBy(after, paths, aliases, again);
    NothingMisfiledAfter(threads, paths, after, aliases);
  }

  lemma LowerCaseHasNoClash(threads: Threads)
    requires LowerCase(threads)
    ensures NoCaseClash(threads)
  {
    forall a, b | a in threads && b in threads && Lower(a) == Lower(b) ensures a == b {
      assert IsLower(a) && IsLower(b);
    }
  }

  /** One alias, one target, and the entry `winner` at it. */
  lemma MovesTo(threads: Threads, paths: PathIds, aliases: map<string, ThreadId>, id: ThreadId, after: Threads,
      winner: ThreadId)
    requires id in threads && winner in threads
        && AliasFrom(id, threads[id], paths, Lower(id), IdsOf(threads[id], paths).thread)
    requires aliases == map[Lower(id) := IdsOf(threads[id], paths).thread]
        && after == map[IdsOf(threads[id], paths).thread := threads[winner]]
    requires forall k :: k in threads ==> Lower(k) == Lower(id) && AtLeast(threads[winner], threads[k])
    ensures Migrated(threads, paths, after)
  {
    var t := IdsOf(threads[id], paths).thread;
    assert AliasesOf(threads, paths, aliases) by {
      assert HasSource(threads, paths, Lower(id), t);
    }
    assert MergedFrom(threads, aliases, threads.Keys, after) by {
      assert Target(winner, aliases) == t;
      assert FiledFrom(threads, aliases, threads.Keys, t, threads[winner]);
    }
    assert MigratedBy(threads, paths, aliases, after);
  }

  function StoppedAt(path: string, at: Time): ThreadState {
    EmptyThread.(stopped := Some(Stopped(
      Fault(EventKey("t", CompleteKind, "", 1, ""), "", 1, 0, Unknown, "", path), at, 0, 1, 0, 1, RetryLimit, false,
          None)))
  }

  function MixedPaths(p: string): Ids {
    if p == "one" then Ids("c", "b") else if p == "two" then Ids("b", "a") else Ids("", "")
  }

  const NEWER: ThreadState := StoppedAt("one", 2)
  const OLDER: ThreadState := StoppedAt("two", 1)

  lemma MixedIds()
    ensures IdsOf(NEWER, MixedPaths) == Ids("c", "b") && IdsOf(OLDER, MixedPaths) == Ids("b", "a")
    ensures Lower("A") == "a" && Lower("a") == "a" && Lower("b") == "b"
  {
    assert Lower("c") == "c" && Lower("b") == "b" && Lower("a") == "a" && Lower("") == "";
  }

  lemma FirstMove()
    ensures Migrated(map["A" := NEWER, "a" := OLDER], MixedPaths, map["b" := NEWER])
  {
    MixedIds();
    MovesTo(map["A" := NEWER, "a" := OLDER], MixedPaths, map["a" := "b"], "a", map["b" := NEWER], "A");
  }

  lemma SecondMove()
    ensures Migrated(map["b" := NEWER], MixedPaths, map["c" := NEWER])
  {
    MixedIds();
    MovesTo(map["b" := NEWER], MixedPaths, map["b" := "c"], "b", map["c" := NEWER], "b");
  }

  /** With two ids that are the same up to case, a merged entry may be misfiled again. */
  lemma MixedCaseMovesAgain()
    ensures var once, twice := map["b" := NEWER], map["c" := NEWER];
      Migrated(map["A" := NEWER, "a" := OLDER], MixedPaths, once) && Migrated(once, MixedPaths, twice) && twice != once
  {
    FirstMove();
    SecondMove();
    assert "c" in map["c" := NEWER] && "c" !in map["b" := NEWER];
  }

  /** A retry that is live is never replaced by one that is not. */
  lemma LiveRetryWins(threads: Threads, paths: PathIds, aliases: map<string, ThreadId>, after: Threads, id: ThreadId)
    requires MergedFrom(threads, aliases, threads.Keys, after) && id in threads && World.Live(threads[id])
    ensures Target(id, aliases) in after && World.Live(after[Target(id, aliases)])
  {
  }

  /** Nothing appears from nowhere: every entry that is left was there before, under an id that belongs here. */
  lemma NothingInvented(threads: Threads, paths: PathIds, after: Threads, t: ThreadId)
    requires Migrated(threads, paths, after) && t in after
    ensures exists id :: id in threads && threads[id] == after[t]
  {
    var aliases :| MigratedBy(threads, paths, aliases, after);
    if aliases == map[] {
      assert t in threads;
    } else {
      assert FiledFrom(threads, aliases, threads.Keys, t, after[t]);
    }
  }
}
