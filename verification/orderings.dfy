/** Lists in the order of a hash table, filtered and sorted. */
module Orderings {
  import opened Wrappers

  // The order has each of the keys once.
  ghost predicate Lists<T(!new)>(order: seq<T>, keys: set<T>) {
    NoRepeats(order) && forall x {:trigger x in order} {:trigger x in keys} :: x in order <==> x in keys
  }

  // The elements of a list that are in a set.
  function Listed<T(==)>(order: seq<T>, keys: set<T>): seq<T> {
    if order == [] then []
    else
      var n := |order| - 1;
      if order[n] in keys then Listed(order[..n], keys) + [order[n]] else Listed(order[..n], keys)
  }

  function At<T(==)>(rank: map<T, real>, x: T): real {
    if x in rank then rank[x] else 0.0
  }

  // Puts x behind all that rank no lower.
  function PutDown<T(==)>(s: seq<T>, rank: map<T, real>, x: T): seq<T> {
    if s == [] || At(rank, s[0]) < At(rank, x) then [x] + s else [s[0]] + PutDown(s[1..], rank, x)
  }

  function SortDown<T(==)>(s: seq<T>, rank: map<T, real>): seq<T> {
    if s == [] then [] else PutDown(SortDown(s[..|s| - 1], rank), rank, s[|s| - 1])
  }

  ghost predicate Falling<T>(s: seq<T>, rank: map<T, real>) {
    forall i, j {:trigger s[i], s[j]} | 0 <= i < j < |s| :: At(rank, s[i]) >= At(rank, s[j])
  }

  lemma {:induction false} ListedMembers<T>(order: seq<T>, keys: set<T>)
    ensures forall x {:trigger x in Listed(order, keys)} :: x in Listed(order, keys) <==> x in order && x in keys
  {
    if order != [] {
      var n := |order| - 1;
      ListedMembers(order[..n], keys);
      assert order == order[..n] + [order[n]];
    }
  }

  lemma {:induction false} ListedNoRepeats<T>(order: seq<T>, keys: set<T>)
    requires NoRepeats(order)
    ensures NoRepeats(Listed(order, keys))
  {
    if order != [] {
      var n := |order| - 1;
      assert NoRepeats(order[..n]);
      ListedNoRepeats(order[..n], keys);
      ListedMembers(order[..n], keys);
      var before := Listed(order[..n], keys);
      assert order[n] !in order[..n];
      forall i | 0 <= i < |before| ensures before[i] != order[n] {
        assert before[i] in before;
      }
    }
  }

  lemma {:induction false} PutDownMembers<T>(s: seq<T>, rank: map<T, real>, x: T)
    ensures multiset(PutDown(s, rank, x)) == multiset(s) + multiset{x}
  {
    hide At;
    if s != [] && At(rank, s[0]) >= At(rank, x) {
      PutDownMembers(s[1..], rank, x);
      assert s == [s[0]] + s[1..];
    }
  }

  lemma {:induction false} PutDownFalls<T>(s: seq<T>, rank: map<T, real>, x: T)
    requires Falling(s, rank)
    ensures Falling(PutDown(s, rank, x), rank)
  {
    hide At;
    if s != [] && At(rank, s[0]) >= At(rank, x) {
      PutDownFalls(s[1..], rank, x);
      var r := PutDown(s[1..], rank, x);
      forall j | 0 <= j < |r| ensures At(rank, s[0]) >= At(rank, r[j]) {
        PutDownMembers(s[1..], rank, x);
        assert r[j] in multiset(r);
        assert r[j] in s[1..] || r[j] == x;
      }
    }
  }

  /** Sorting keeps the elements. */
  lemma {:induction false} SortDownPermutes<T>(s: seq<T>, rank: map<T, real>)
    ensures multiset(SortDown(s, rank)) == multiset(s)
  {
    hide PutDown;
    if s != [] {
      var n := |s| - 1;
      SortDownPermutes(s[..n], rank);
      PutDownMembers(SortDown(s[..n], rank), rank, s[n]);
      assert s == s[..n] + [s[n]];
    }
  }

  /** It puts them in falling order of rank. */
  lemma {:induction false} SortDownFalls<T>(s: seq<T>, rank: map<T, real>)
    ensures Falling(SortDown(s, rank), rank)
  {
    if s != [] {
      hide Falling, PutDown;
      var n := |s| - 1;
      SortDownFalls(s[..n], rank);
      PutDownFalls(SortDown(s[..n], rank), rank, s[n]);
    }
  }

  lemma PermutedNoRepeats<T>(s: seq<T>, r: seq<T>)
    requires NoRepeats(s) && multiset(s) == multiset(r)
    ensures NoRepeats(r) && forall x {:trigger x in r} {:trigger x in s} :: x in r <==> x in s
  {
    forall x ensures x in r <==> x in s {
      assert x in multiset(r) <==> x in multiset(s);
    }
    forall i, j | 0 <= i < j < |r| ensures r[i] != r[j] {
      if r[i] == r[j] {
        assert r == r[..i] + [r[i]] + r[i + 1..j] + [r[j]] + r[j + 1..];
        assert multiset(s)[r[i]] >= 2;
        assert r[i] in s;
        Once(s, r[i]);
      }
    }
  }

  lemma Once<T>(s: seq<T>, x: T)
    requires NoRepeats(s) && x in s
    ensures multiset(s)[x] == 1
  {
    var k :| 0 <= k < |s| && s[k] == x;
    var a, b := s[..k], s[k + 1..];
    assert x !in a && x !in b;
    hide NoRepeats;
    Between(a, x, b);
    assert s == a + [x] + b;
  }

  lemma Between<T>(a: seq<T>, x: T, b: seq<T>)
    requires x !in a && x !in b
    ensures multiset(a + [x] + b)[x] == 1
  {
    assert multiset(a)[x] == 0 && multiset(b)[x] == 0;
    assert multiset(a + [x] + b) == multiset(a) + multiset{x} + multiset(b);
  }

  /** The keys of a map in falling order of value, each once. */
  lemma SortedKeys<T>(order: seq<T>, rank: map<T, real>)
    requires NoRepeats(order)
    ensures var r := SortDown(Listed(order, rank.Keys), rank);
      NoRepeats(r) && Falling(r, rank) && forall x {:trigger x in r} :: x in r <==> x in order && x in rank
  {
    ListedMembers(order, rank.Keys);
    ListedNoRepeats(order, rank.Keys);
    hide NoRepeats, Falling, Listed, SortDown;
    SortDownPermutes(Listed(order, rank.Keys), rank);
    SortDownFalls(Listed(order, rank.Keys), rank);
    PermutedNoRepeats(Listed(order, rank.Keys), SortDown(Listed(order, rank.Keys), rank));
  }
}
