/** Sorting by time, ties by key: the order the trim functions use, and one order dispatch may use. */
module Sorting {
  import opened Types

  datatype Stamped = Stamped(key: string, at: Time)

  /** Lexicographic order on strings. */
  predicate KeyLess(a: string, b: string) {
    if b == "" then false
    else if a == "" then true
    else a[0] < b[0] || (a[0] == b[0] && KeyLess(a[1..], b[1..]))
  }

  lemma {:induction false} KeyTrichotomy(a: string, b: string)
    ensures KeyLess(a, b) || a == b || KeyLess(b, a)
  {
    if a != "" && b != "" {
      KeyTrichotomy(a[1..], b[1..]);
      assert a == [a[0]] + a[1..] && b == [b[0]] + b[1..];
    }
  }

  lemma {:induction false} KeyTransitive(a: string, b: string, c: string)
    requires KeyLess(a, b) && KeyLess(b, c)
    ensures KeyLess(a, c)
  {
    if a != "" && a[0] == b[0] == c[0] {
      KeyTransitive(a[1..], b[1..], c[1..]);
    }
  }

  lemma {:induction false} KeyIrreflexive(a: string)
    ensures !KeyLess(a, a)
  {
    if a != "" { KeyIrreflexive(a[1..]); }
  }

  /** The comparison of the trim functions. */
  predicate Before(x: Stamped, y: Stamped) {
    x.at < y.at || (x.at == y.at && KeyLess(x.key, y.key))
  }

  predicate NotAfter(x: Stamped, y: Stamped) { x == y || Before(x, y) }

  lemma BeforeTransitive(x: Stamped, y: Stamped, z: Stamped)
    requires NotAfter(x, y) && NotAfter(y, z)
    ensures NotAfter(x, z)
  {
    if x.at == y.at == z.at && x != y && y != z { KeyTransitive(x.key, y.key, z.key); }
  }

  lemma BeforeTotal(x: Stamped, y: Stamped)
    ensures NotAfter(x, y) || NotAfter(y, x)
  {
    KeyTrichotomy(x.key, y.key);
  }

  predicate Ordered(es: seq<Stamped>) {
    forall i, j :: 0 <= i < j < |es| ==> NotAfter(es[i], es[j])
  }

  function Insert(e: Stamped, es: seq<Stamped>): (r: seq<Stamped>)
    requires Ordered(es)
    ensures multiset(r) == multiset(es) + multiset{e}
    ensures Ordered(r)
  {
    if es == [] then [e]
    else if NotAfter(e, es[0]) then
      assert forall j :: 0 <= j < |es| ==> NotAfter(e, es[j]) by {
        forall j | 0 <= j < |es| ensures NotAfter(e, es[j]) { BeforeTransitive(e, es[0], es[j]); }
      }
      [e] + es
    else
      BeforeTotal(e, es[0]);
      assert es == [es[0]] + es[1..];
      var rest := Insert(e, es[1..]);
      assert forall x :: x in rest ==> NotAfter(es[0], x) by {
        forall x | x in rest ensures NotAfter(es[0], x) {
          assert x in multiset(rest);
          assert x in multiset(es[1..]) || x == e;
        }
      }
      [es[0]] + rest
  }

  /** The library's sort. */
  function Sort(es: seq<Stamped>): (r: seq<Stamped>)
    ensures multiset(r) == multiset(es)
    ensures Ordered(r)
  {
    if es == [] then []
    else
      assert es == [es[0]] + es[1..];
      Insert(es[0], Sort(es[1..]))
  }

  lemma SameMembers(es: seq<Stamped>, rs: seq<Stamped>)
    requires multiset(es) == multiset(rs)
    ensures |es| == |rs| && forall e :: e in es <==> e in rs
  {
    assert |multiset(es)| == |es| && |multiset(rs)| == |rs|;
    forall e ensures e in es <==> e in rs {
      assert e in es <==> e in multiset(es);
      assert e in rs <==> e in multiset(rs);
    }
  }

  predicate DistinctKeys(es: seq<Stamped>) {
    forall i, j :: 0 <= i < j < |es| ==> es[i].key != es[j].key
  }

  function Keys(es: seq<Stamped>): (ks: set<string>) {
    set e | e in es :: e.key
  }

  lemma {:induction false} KeyCount(es: seq<Stamped>)
    requires DistinctKeys(es)
    ensures |Keys(es)| == |es|
  {
    if es == [] {
      assert Keys(es) == {};
    } else {
      KeyCount(es[1..]);
      assert es == [es[0]] + es[1..];
      assert Keys(es) == {es[0].key} + Keys(es[1..]);
    }
  }

  /** As many keys as entries means that no key repeats. */
  lemma {:induction false} CountedKeysDistinct(es: seq<Stamped>)
    requires |Keys(es)| == |es|
    ensures DistinctKeys(es)
  {
    if es != [] {
      assert es == [es[0]] + es[1..];
      assert Keys(es) == {es[0].key} + Keys(es[1..]);
      assert es[0].key in Keys(es[1..]) ==> Keys(es) == Keys(es[1..]);
      KeysAtMost(es[1..]);
      CountedKeysDistinct(es[1..]);
      forall j | 0 < j < |es| ensures es[0].key != es[j].key {
        assert es[1..][j - 1] == es[j];
      }
    }
  }

  lemma {:induction false} KeysAtMost(es: seq<Stamped>)
    ensures |Keys(es)| <= |es|
  {
    if es != [] {
      assert es == [es[0]] + es[1..];
      assert Keys(es) == {es[0].key} + Keys(es[1..]);
      KeysAtMost(es[1..]);
    }
  }

  /** Sorting keeps the keys and their distinctness. */
  lemma SortedKeys(es: seq<Stamped>)
    requires DistinctKeys(es)
    ensures DistinctKeys(Sort(es)) && Keys(Sort(es)) == Keys(es) && |Sort(es)| == |es|
    ensures forall e :: e in Sort(es) <==> e in es
  {
    SameMembers(es, Sort(es));
    assert Keys(Sort(es)) == Keys(es);
    KeyCount(es);
    CountedKeysDistinct(Sort(es));
  }
}
