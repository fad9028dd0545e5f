/** What it means to rank the entries of a finite map by a compare key. */
module Ranking {
  import opened Wrappers

  // The keys whose entry has a compare key below x.
  ghost function Below<K(!new), V>(m: map<K, V>, ck: V -> int, x: int): set<K> {
    set k | k in m && ck(m[k]) < x
  }

  // The keys whose entry has a compare key of at most x.
  ghost function AtMost<K(!new), V>(m: map<K, V>, ck: V -> int, x: int): set<K> {
    set k | k in m && ck(m[k]) <= x
  }

  /** ks lists some keys of m at most once, in nondecreasing order of their compare keys. */
  ghost predicate SortedKeys<K, V>(ks: seq<K>, m: map<K, V>, ck: V -> int) {
    && NoRepeats(ks)
    && (forall i {:trigger ks[i]} | 0 <= i < |ks| :: ks[i] in m)
    && (forall i, j {:trigger ks[i], ks[j]} | 0 <= i <= j < |ks| :: ck(m[ks[i]]) <= ck(m[ks[j]]))
  }

  /** ks lists all keys of m that way. */
  ghost predicate IsRanking<K, V>(ks: seq<K>, m: map<K, V>, ck: V -> int) {
    SortedKeys(ks, m, ck) && forall k {:trigger k in m} | k in m :: k in ks
  }

  lemma {:induction false} PrefixSize<K>(ks: seq<K>, i: nat)
    requires NoRepeats(ks) && i <= |ks|
    ensures |set j | 0 <= j < i :: ks[j]| == i
  {
    var s := set j | 0 <= j < i :: ks[j];
    if i > 0 {
      PrefixSize(ks, i - 1);
      var t := set j | 0 <= j < i - 1 :: ks[j];
      assert s == t + {ks[i - 1]};
    }
  }

  /** Where a ranking changes from below x to not below x is the number of keys below x. */
  lemma CountBelow<K(!new), V>(ks: seq<K>, m: map<K, V>, ck: V -> int, x: int, i: nat)
    requires IsRanking(ks, m, ck) && i <= |ks|
    requires forall j {:trigger ks[j]} | 0 <= j < i :: ck(m[ks[j]]) < x
    requires forall j {:trigger ks[j]} | i <= j < |ks| :: ck(m[ks[j]]) >= x
    ensures |Below(m, ck, x)| == i
  {
    PrefixSize(ks, i);
    assert Below(m, ck, x) == set j | 0 <= j < i :: ks[j];
  }

  lemma RankingSize<K, V>(ks: seq<K>, m: map<K, V>, ck: V -> int)
    requires IsRanking(ks, m, ck)
    ensures |ks| == |m|
  {
    PrefixSize(ks, |ks|);
    assert m.Keys == set j | 0 <= j < |ks| :: ks[j];
  }

  lemma AtMostIsBelow<K(!new), V>(m: map<K, V>, ck: V -> int, x: int)
    ensures AtMost(m, ck, x) == Below(m, ck, x + 1)
  {
  }

  lemma SubsetSize<T>(a: set<T>, b: set<T>)
    requires a <= b
    ensures |a| <= |b|
  {
    assert b == a + (b - a);
  }

  /** The key at rank r has at most r keys below it and more than r keys up to it. */
  lemma RankBounds<K(!new), V>(ks: seq<K>, m: map<K, V>, ck: V -> int, r: nat)
    requires IsRanking(ks, m, ck) && r < |ks|
    ensures ks[r] in m
    ensures |Below(m, ck, ck(m[ks[r]]))| <= r < |AtMost(m, ck, ck(m[ks[r]]))|
  {
    PrefixSize(ks, r);
    SubsetSize(Below(m, ck, ck(m[ks[r]])), set j | 0 <= j < r :: ks[j]);
    PrefixSize(ks, r + 1);
    SubsetSize(set j | 0 <= j < r + 1 :: ks[j], AtMost(m, ck, ck(m[ks[r]])));
  }

  /** Two rankings of the same map may order ties differently, but agree on the compare key at every rank. */
  lemma RankKeyUnique<K(!new), V>(ks: seq<K>, ks': seq<K>, m: map<K, V>, ck: V -> int, r: nat)
    requires IsRanking(ks, m, ck) && IsRanking(ks', m, ck) && r < |m|
    ensures r < |ks| && r < |ks'| && ks[r] in m && ks'[r] in m && ck(m[ks[r]]) == ck(m[ks'[r]])
  {
    RankingSize(ks, m, ck);
    RankingSize(ks', m, ck);
    RankBounds(ks, m, ck, r);
    RankBounds(ks', m, ck, r);
    var x, y := ck(m[ks[r]]), ck(m[ks'[r]]);
    if x < y {
      SubsetSize(AtMost(m, ck, x), Below(m, ck, y));
    } else if y < x {
      SubsetSize(AtMost(m, ck, y), Below(m, ck, x));
    }
  }
}

/** The O(n) map: a hash map whose rank queries count entries. */
module NaiveRankedMap {
  import opened Wrappers
  import opened Ranking

  lemma InsertAdds<K>(s: seq<K>, i: nat, k: K)
    requires i <= |s|
    ensures multiset(s[..i] + [k] + s[i..]) == multiset(s) + multiset{k}
  {
    assert s == s[..i] + s[i..];
  }

  lemma InsertedAt<K>(s: seq<K>, i: nat, k: K, a: nat)
    requires i <= |s| && a <= |s|
    ensures (s[..i] + [k] + s[i..])[a] == if a < i then s[a] else if a == i then k else s[a - 1]
  {
  }

  lemma InsertKeepsSorted<K, V>(s: seq<K>, i: nat, k: K, m: map<K, V>, ck: V -> int)
    requires SortedKeys(s, m, ck) && k in m && k !in s && i <= |s|
    requires i > 0 ==> ck(m[s[i - 1]]) <= ck(m[k])
    requires forall j {:trigger s[j]} | i <= j < |s| :: ck(m[s[j]]) > ck(m[k])
    ensures SortedKeys(s[..i] + [k] + s[i..], m, ck)
  {
    var t := s[..i] + [k] + s[i..];
    forall a, b | 0 <= a < b < |t| ensures t[a] != t[b] && t[a] in m && t[b] in m && ck(m[t[a]]) <= ck(m[t[b]]) {
      InsertedAt(s, i, k, a);
      InsertedAt(s, i, k, b);
      if a == i {
        assert s[b - 1] in m;
      } else if b == i {
        assert s[a] in m && ck(m[s[a]]) <= ck(m[s[i - 1]]);
      } else {
        var a', b' := if a < i then a else a - 1, if b < i then b else b - 1;
        assert s[a'] != s[b'];
      }
    }
  }

  // Puts k behind every key with a smaller or equal compare key.
  method InsertByKey<K, V>(s: seq<K>, k: K, m: map<K, V>, ck: V -> int) returns (t: seq<K>)
    requires SortedKeys(s, m, ck) && k in m && k !in s
    ensures SortedKeys(t, m, ck)
    ensures multiset(t) == multiset(s) + multiset{k}
  {
    var i := |s|;
    while i > 0 && ck(m[s[i - 1]]) > ck(m[k])
      invariant 0 <= i <= |s|
      invariant forall j {:trigger s[j]} | i <= j < |s| :: ck(m[s[j]]) > ck(m[k])
    {
      i := i - 1;
    }
    t := s[..i] + [k] + s[i..];
    InsertAdds(s, i, k);
    InsertKeepsSorted(s, i, k, m, ck);
  }

  class ValueRankedHashMap<K(==, !new), V> {
    const ck: V -> int
    var entries: map<K, V>

    constructor (ck: V -> int)
      ensures this.ck == ck && entries == map[]
    {
      this.ck := ck;
      entries := map[];
    }

    method Upsert(key: K, value: V)
      modifies this
      ensures entries == old(entries)[key := value]
    {
      entries := entries[key := value];
    }

    method Remove(key: K)
      modifies this
      ensures entries == old(entries) - {key}
    {
      entries := entries - {key};
    }

    method GetByKey(key: K) returns (r: Option<V>)
      ensures r == if key in entries then Some(entries[key]) else None
    {
      if key in entries {
        return Some(entries[key]);
      }
      return None;
    }

    /** The entry that stands at `rank` in some ranking; ties may be broken either way. */
    method GetByRank(rank: nat) returns (r: Option<(K, V)>)
      ensures r.None? <==> rank >= |entries|
      ensures r.Some? ==> r.value.0 in entries && r.value.1 == entries[r.value.0]
      ensures r.Some? ==> exists ks :: IsRanking(ks, entries, ck) && rank < |ks| && ks[rank] == r.value.0
    {
      if rank >= |entries| {
        return None;
      }
      var v: seq<K> := [];
      var todo := entries.Keys;
      while todo != {}
        invariant todo <= entries.Keys && multiset(v) == multiset(entries.Keys - todo)
        invariant SortedKeys(v, entries, ck)
        decreases |todo|
      {
        var k :| k in todo;
        assert k !in multiset(v);
        v := InsertByKey(v, k, entries, ck);
        todo := todo - {k};
      }
      forall k | k in entries ensures k in v {
        assert k in multiset(v);
      }
      RankingSize(v, entries, ck);
      return Some((v[rank], entries[v[rank]]));
    }

    method Rank(key: K) returns (r: Option<nat>)
      ensures r == if key in entries then Some(|Below(entries, ck, ck(entries[key]))|) else None
    {
      if key !in entries {
        return None;
      }
      var rank, todo := 0, entries.Keys;
      ghost var seen: set<K> := {};
      while todo != {}
        invariant todo <= entries.Keys
        invariant seen == set k | k in entries && k !in todo && ck(entries[k]) < ck(entries[key])
        invariant rank == |seen|
        decreases |todo|
      {
        var k :| k in todo;
        if ck(entries[k]) < ck(entries[key]) {
          rank := rank + 1;
          seen := seen + {k};
        }
        todo := todo - {k};
      }
      assert seen == Below(entries, ck, ck(entries[key]));
      return Some(rank);
    }

    method CountLessEqual(x: int) returns (cnt: nat)
      ensures cnt == |AtMost(entries, ck, x)|
    {
      cnt := 0;
      var todo := entries.Keys;
      ghost var seen: set<K> := {};
      while todo != {}
        invariant todo <= entries.Keys
        invariant seen == set k | k in entries && k !in todo && ck(entries[k]) <= x
        invariant cnt == |seen|
        decreases |todo|
      {
        var k :| k in todo;
        if ck(entries[k]) <= x {
          cnt := cnt + 1;
          seen := seen + {k};
        }
        todo := todo - {k};
      }
      assert seen == AtMost(entries, ck, x);
    }
  }
}

/** The splay map: a hash map from keys to the nodes of a splay tree. */
module SplayRankedMap {
  import opened Wrappers
  import opened Ranking
  import opened SplayShape
  import opened SplayHeap

  // The hash map sends every key to the one node that carries it.
  ghost predicate Indexes<K, V>(index: map<K, Node<K, V>>, nodes: set<Node<K, V>>) {
    && (forall k {:trigger index[k]} | k in index :: index[k] in nodes && index[k].key == k)
    && (forall n {:trigger n in nodes} | n in nodes :: n.key in index && index[n.key] == n)
  }

  ghost function ValuesOf<K, V>(index: map<K, Node<K, V>>): map<K, V> {
    map k | k in index :: index[k].value
  }

  ghost function KeysOf<K, V>(order: seq<Node<K, V>>): (ks: seq<K>)
    ensures |ks| == |order| && forall i {:trigger ks[i]} | 0 <= i < |ks| :: ks[i] == order[i].key
  {
    seq(|order|, i requires 0 <= i < |order| => order[i].key)
  }

  /** The in-order sequence of the tree is a ranking of the entries. */
  lemma InOrderIsRanking<K, V>(
    h: Shape<K, V>, order: seq<Node<K, V>>, root: Node?<K, V>, index: map<K, Node<K, V>>, ck: V -> int)
    requires Links(h, order, root) && Sorted(order, ck) && Indexes(index, h.Keys)
    ensures IsRanking(KeysOf(order), ValuesOf(index), ck) && |order| == |index|
  {
    var ks, m := KeysOf(order), ValuesOf(index);
    forall i | 0 <= i < |ks| ensures ks[i] in m && m[ks[i]] == order[i].value && index[ks[i]] == order[i] &&
      h[order[i]].pos == i {
      assert order[i] in h && h[order[i]].pos == i;
    }
    forall k | k in m ensures k in ks {
      assert Linked(h, order, root, index[k]);
      assert ks[h[index[k]].pos] == k;
    }
    RankingSize(ks, m, ck);
    assert m.Keys == index.Keys;
  }

  lemma IndexWithout<K, V>(index: map<K, Node<K, V>>, nodes: set<Node<K, V>>, key: K)
    requires Indexes(index, nodes) && key in index
    ensures Indexes(index - {key}, nodes - {index[key]})
    ensures ValuesOf(index - {key}) == ValuesOf(index) - {key}
  {
  }

  lemma IndexWith<K, V>(index: map<K, Node<K, V>>, nodes: set<Node<K, V>>, x: Node<K, V>)
    requires Indexes(index, nodes) && x.key !in index
    ensures Indexes(index[x.key := x], nodes + {x})
    ensures ValuesOf(index[x.key := x]) == ValuesOf(index)[x.key := x.value]
  {
  }

  lemma Overwrite<K, V>(m: map<K, V>, key: K, value: V)
    ensures (m - {key})[key := value] == m[key := value]
  {
  }

  class ValueRankedSplayMap<K(==, !new), V> {
    const ck: V -> int
    var root: Node?<K, V>
    var index: map<K, Node<K, V>>
    ghost var h: Shape<K, V>
    ghost var order: seq<Node<K, V>>

    ghost predicate Valid()
      reads this, h.Keys
    {
      Tree(h, order, root) && Sorted(order, ck) && Indexes(index, h.Keys)
    }

    ghost function Entries(): map<K, V>
      reads this
    {
      ValuesOf(index)
    }

    constructor (ck: V -> int)
      ensures Valid() && this.ck == ck && Entries() == map[] && h.Keys == {}
    {
      this.ck := ck;
      root, index, h, order := null, map[], map[], [];
    }

    // What the queries keep: a splay changes neither the entries nor the ranking.
    twostate predicate OnlySplayed()
      reads this, h.Keys
    {
      Valid() && index == old(index) && order == old(order) && h.Keys == old(h.Keys)
    }

    method Upsert(key: K, value: V)
      requires Valid()
      modifies this, h.Keys
      ensures Valid() && fresh(h.Keys - old(h.Keys))
      ensures Entries() == old(Entries())[key := value]
    {
      ghost var m := Entries();
      if key in index {
        Remove(key);
      }
      Overwrite(m, key, value);
      Add(key, value);
    }

    // Upsert of a key that is not there.
    method Add(key: K, value: V)
      requires Valid() && key !in index
      modifies this, h.Keys
      ensures Valid() && fresh(h.Keys - old(h.Keys))
      ensures Entries() == old(Entries())[key := value]
    {
      hide Sorted, Tree, Indexes;
      var x;
      ghost var h', order';
      x, h', order' := InsertSorted(key, value, root, ck, h, order);
      IndexWith(index, h.Keys, x);
      assert Indexes(index[key := x], h'.Keys);
      root, h, order, index := x, h', order', index[key := x];
      assert Tree(h', order', x);
    }

    method Remove(key: K)
      requires Valid()
      modifies this, h.Keys
      ensures Valid() && h.Keys <= old(h.Keys)
      ensures Entries() == old(Entries()) - {key}
    {
      hide Sorted, Tree;
      if key in index {
        var x, r := index[key], null;
        ghost var h', order';
        IndexWithout(index, h.Keys, key);
        r, h', order' := RemoveSorted(x, root, ck, h, order);
        root, h, order, index := r, h', order', index - {key};
      }
    }

    method Size() returns (n: nat)
      requires Valid()
      ensures n == |Entries()|
    {
      n := |index|;
      assert index.Keys == Entries().Keys;
    }

    method Contains(key: K) returns (b: bool)
      requires Valid()
      ensures b <==> key in Entries()
    {
      b := key in index;
    }

    method GetByKey(key: K) returns (r: Option<V>)
      requires Valid()
      modifies this, h.Keys
      ensures OnlySplayed()
      ensures r == if key in Entries() then Some(Entries()[key]) else None
    {
      if key !in index {
        return None;
      }
      var x := index[key];
      root, h := Splay(x, null, root, h, order);
      return Some(x.value);
    }

    /** The entry at place `rank` of the ranking. */
    method GetByRank(rank: nat) returns (r: Option<(K, V)>)
      requires Valid()
      modifies this, h.Keys
      ensures OnlySplayed()
      ensures r == if rank < |order| then Some((order[rank].key, order[rank].value)) else None
    {
      InOrderIsRanking(h, order, root, index, ck);
      if rank >= |index| {
        return None;
      }
      var x;
      x, h := GetNthNode(rank, root, h, order);
      root := x;
      return Some((x.key, x.value));
    }

    /** The place of the key in the ranking. */
    method Rank(key: K) returns (r: Option<nat>)
      requires Valid()
      modifies this, h.Keys
      ensures OnlySplayed()
      ensures r.None? <==> key !in Entries()
      ensures r.Some? ==> r.value < |order| && order[r.value].key == key
    {
      if key !in index {
        return None;
      }
      var x, place := index[key], 0;
      place, h := PlaceOf(x, root, h, order);
      root := x;
      return Some(place);
    }

    method CountLessEqual(x: int) returns (cnt: nat)
      requires Valid()
      modifies this, h.Keys
      ensures OnlySplayed()
      ensures cnt == |AtMost(Entries(), ck, x)|
    {
      hide AtMost;
      ghost var h0, root0 := h, root;
      cnt, root, h := CountAtMost(root, ck, x, h, order);
      CountIs(h0, order, root0, index, ck, x, cnt);
    }
  }

  lemma CountIs<K(!new), V>(h: Shape<K, V>, order: seq<Node<K, V>>, root: Node?<K, V>, index: map<K, Node<K, V>>,
                            ck: V -> int, x: int, cnt: nat)
    requires Links(h, order, root) && Sorted(order, ck) && Indexes(index, h.Keys) && Splits(order, ck, x + 1, cnt, cnt)
    ensures cnt == |AtMost(ValuesOf(index), ck, x)|
  {
    InOrderIsRanking(h, order, root, index, ck);
    forall i | 0 <= i < |order| ensures order[i].key in index && index[order[i].key] == order[i] {
      assert order[i] in h;
    }
    hide IsRanking, Links, Indexes;
    CountPlaces(order, index, ck, x, cnt);
  }

  lemma CountPlaces<K(!new), V>(order: seq<Node<K, V>>, index: map<K, Node<K, V>>, ck: V -> int, x: int, cnt: nat)
    requires IsRanking(KeysOf(order), ValuesOf(index), ck) && Splits(order, ck, x + 1, cnt, cnt)
    requires forall i {:trigger order[i]} | 0 <= i < |order| :: order[i].key in index && index[order[i].key] == order[i]
    ensures cnt == |AtMost(ValuesOf(index), ck, x)|
  {
    var ks := KeysOf(order);
    forall i | 0 <= i < |ks| ensures ks[i] in index && index[ks[i]] == order[i] {
    }
    AtMostIsBelow(ValuesOf(index), ck, x);
    CountBelow(ks, ValuesOf(index), ck, x + 1, cnt);
  }
}
