/** Filling the free slots: the due threads are collected, sorted by due time and cut to the room that is left. */
module Slots {
  import opened Types
  import opened Policy
  import opened Sorting
  import C = Core

  function DueTime(due: map<ThreadId, Time>, t: ThreadId): Time {
    if t in due then due[t] else 0
  }

  /** Which of two functions that agree on the due threads gives the due times does not matter. */
  lemma SameDueTimes(taken: seq<ThreadId>, due: set<ThreadId>, room: int, f: ThreadId -> Time, g: ThreadId -> Time)
    requires C.EarliestFirst(taken, due, room, f) && forall t :: t in due ==> f(t) == g(t)
    ensures C.EarliestFirst(taken, due, room, g)
  {
    forall t | t in taken ensures t in due {
      assert t in C.Elements(taken);
    }
    forall i, j | 0 <= i < j < |taken| ensures g(taken[i]) <= g(taken[j]) {
      assert taken[i] in due && taken[j] in due;
    }
  }

  /** One entry per due thread. */
  ghost predicate Listed(es: seq<Stamped>, due: map<ThreadId, Time>, rest: set<ThreadId>) {
    && DistinctKeys(es) && Keys(es) == due.Keys - rest && |es| + |rest| == |due|
    && forall e :: e in es ==> e.key in due && e.at == due[e.key]
  }

  lemma ListedMore(es: seq<Stamped>, due: map<ThreadId, Time>, rest: set<ThreadId>, t: ThreadId)
    requires Listed(es, due, rest) && t in rest && rest <= due.Keys
    ensures Listed(es + [Stamped(t, due[t])], due, rest - {t})
  {
    var more := es + [Stamped(t, due[t])];
    assert t !in Keys(es);
    forall i, j | 0 <= i < j < |more| ensures more[i].key != more[j].key {
      if j == |es| {
        assert more[i] == es[i] && es[i] in es;
        assert es[i].key in Keys(es);
      }
    }
    assert Keys(more) == Keys(es) + {t} by {
      forall k ensures k in Keys(more) <==> k in Keys(es) + {t} {
        if k in Keys(es) {
          var e :| e in es && e.key == k;
          assert e in more;
        }
        if k == t { assert more[|es|] in more; }
      }
    }
  }

  function Firsts(es: seq<Stamped>, n: nat): (ts: seq<ThreadId>)
    requires n <= |es|
    ensures |ts| == n && forall i :: 0 <= i < n ==> ts[i] == es[i].key
  {
    seq(n, i requires 0 <= i < n => es[i].key)
  }

  /** No thread that is left out is due before one that is taken. */
  lemma NoneLeftEarlier(es: seq<Stamped>, due: map<ThreadId, Time>, n: nat, t: ThreadId, u: ThreadId)
    requires Listed(es, due, {}) && Ordered(es) && n <= |es|
    requires t in Firsts(es, n) && u in due.Keys && u !in Firsts(es, n)
    ensures DueTime(due, t) <= DueTime(due, u)
  {
    var ts := Firsts(es, n);
    assert forall i :: 0 <= i < n ==> ts[i] in ts && es[i].key in ts;
    var i :| 0 <= i < n && ts[i] == t;
    assert u in Keys(es);
    var e :| e in es && e.key == u;
    var j :| 0 <= j < |es| && es[j] == e;
    assert es[i] in es && NotAfter(es[i], es[j]);
  }

  lemma FirstsAreEarliest(es: seq<Stamped>, due: map<ThreadId, Time>, n: nat, room: nat)
    requires Listed(es, due, {}) && Ordered(es) && n == Min(room, |es|)
    ensures C.EarliestFirst(Firsts(es, n), due.Keys, room, t => DueTime(due, t))
  {
    var ts := Firsts(es, n);
    assert forall i :: 0 <= i < |es| ==> es[i] in es;
    forall t | t in C.Elements(ts) ensures t in due.Keys {
      var i :| 0 <= i < n && ts[i] == t;
      assert es[i] in es;
    }
    forall t, u | t in ts && u in due.Keys && u !in ts ensures DueTime(due, t) <= DueTime(due, u) {
      NoneLeftEarlier(es, due, n, t, u);
    }
    forall i, j | 0 <= i < j < n ensures DueTime(due, ts[i]) <= DueTime(due, ts[j]) {
      assert NotAfter(es[i], es[j]);
    }
  }

  /** The earliest due threads, no more than the room left. */
  method TakeEarliest(due: map<ThreadId, Time>, room: nat) returns (taken: seq<ThreadId>)
    ensures C.EarliestFirst(taken, due.Keys, room, t => DueTime(due, t))
  {
    var es: seq<Stamped> := [];
    var rest := due.Keys;
    assert Keys(es) == {};
    while rest != {}
      invariant rest <= due.Keys && Listed(es, due, rest)
      decreases rest
    {
      var t :| t in rest;
      ListedMore(es, due, rest, t);
      es := es + [Stamped(t, due[t])];
      rest := rest - {t};
    }
    var sorted := Sort(es);
    SortedKeys(es);
    var n := if room < |sorted| then room else |sorted|;
    FirstsAreEarliest(sorted, due, n, room);
    taken := Firsts(sorted, n);
  }
}
