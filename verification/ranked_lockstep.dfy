/**
 Both maps driven by the same operations: for every sequence of calls, the splay
 map answers as the counting map does.
 */
module RankedLockstep {
  import opened Wrappers
  import opened Ranking
  import opened SplayShape
  import opened SplayHeap
  import Naive = NaiveRankedMap
  import Splayed = SplayRankedMap

  datatype Op<K, V> =
    | Upsert(key: K, value: V) | Remove(key: K)
    | Size | Contains(key: K) | GetByKey(key: K) | GetByRank(rank: nat) | Rank(key: K) | CountLessEqual(x: int)

  datatype Answer<V> =
    | Done | Count(n: nat) | Flag(b: bool) | Found(value: Option<V>)
    | CompareKeyAt(key: Option<int>) | RankIs(r: Option<nat>)

  // The entries after a sequence of operations.
  ghost function After<K, V>(ops: seq<Op<K, V>>): map<K, V> {
    if ops == [] then map[] else
      var m := After(ops[..|ops| - 1]);
      match ops[|ops| - 1]
      case Upsert(k, v) => m[k := v]
      case Remove(k) => m - {k}
      case _ => m
  }

  // The answer to op that the entries m determine. A rank is determined up to ties.
  ghost predicate Correct<K(!new), V(!new)>(op: Op<K, V>, m: map<K, V>, ck: V -> int, a: Answer<V>) {
    match op
    case Upsert(_, _) => a == Done
    case Remove(_) => a == Done
    case Size => a == Count(|m|)
    case Contains(k) => a == Flag(k in m)
    case GetByKey(k) => a == Found(if k in m then Some(m[k]) else None)
    case GetByRank(r) =>
      && a.CompareKeyAt? && (a.key.None? <==> r >= |m|)
      && (a.key.Some? ==> |Below(m, ck, a.key.value)| <= r < |AtMost(m, ck, a.key.value)|)
    case Rank(k) =>
      && a.RankIs? && (a.r.None? <==> k !in m)
      && (a.r.Some? ==> |Below(m, ck, ck(m[k]))| <= a.r.value < |AtMost(m, ck, ck(m[k]))|)
    case CountLessEqual(x) => a == Count(|AtMost(m, ck, x)|)
  }

  /** Only a rank among ties is left open by Correct. */
  lemma AnswersAgree<K(!new), V(!new)>(op: Op<K, V>, m: map<K, V>, ck: V -> int, a: Answer<V>, b: Answer<V>)
    requires Correct(op, m, ck, a) && Correct(op, m, ck, b)
    ensures !op.Rank? ==> a == b
  {
    if op.GetByRank? && a.key.Some? {
      var x, y := a.key.value, b.key.value;
      if x < y {
        SubsetSize(AtMost(m, ck, x), Below(m, ck, y));
      } else if y < x {
        SubsetSize(AtMost(m, ck, y), Below(m, ck, x));
      }
    }
  }

  method AskNaive<K(!new), V(!new)>(s: Naive.ValueRankedHashMap<K, V>, op: Op<K, V>) returns (a: Answer<V>)
    modifies s
    ensures Correct(op, old(s.entries), s.ck, a)
    ensures s.entries ==
      match op
      case Upsert(k, v) => old(s.entries)[k := v]
      case Remove(k) => old(s.entries) - {k}
      case _ => old(s.entries)
    ensures op.Rank? && a.r.Some? ==> a.r.value == |Below(s.entries, s.ck, s.ck(s.entries[op.key]))|
  {
    match op
    case Upsert(k, v) => s.Upsert(k, v); a := Done;
    case Remove(k) => s.Remove(k); a := Done;
    case Size => a := Count(|s.entries|);
    case Contains(k) => a := Flag(k in s.entries);
    case GetByKey(k) => var v := s.GetByKey(k); a := Found(v);
    case GetByRank(r) =>
      var e := s.GetByRank(r);
      a := CompareKeyAt(if e.Some? then Some(s.ck(e.value.1)) else None);
      if e.Some? {
        ghost var ks :| IsRanking(ks, s.entries, s.ck) && r < |ks| && ks[r] == e.value.0;
        RankBounds(ks, s.entries, s.ck, r);
      }
    case Rank(k) =>
      var r := s.Rank(k);
      a := RankIs(r);
      if r.Some? {
        var x := s.ck(s.entries[k]);
        assert k in AtMost(s.entries, s.ck, x) && k !in Below(s.entries, s.ck, x);
        SubsetSize(Below(s.entries, s.ck, x) + {k}, AtMost(s.entries, s.ck, x));
      }
    case CountLessEqual(x) => var n := s.CountLessEqual(x); a := Count(n);
  }

  // The entry at place r of the splay map's ranking has its place within the bounds its compare key allows.
  lemma PlaceBounds<K(!new), V>(
    h: Shape<K, V>, order: seq<Node<K, V>>, root: Node?<K, V>, index: map<K, Node<K, V>>, ck: V -> int, r: nat)
    requires Links(h, order, root) && Sorted(order, ck) && Splayed.Indexes(index, h.Keys) && r < |order|
    ensures var m := Splayed.ValuesOf(index);
      && order[r].key in m && m[order[r].key] == order[r].value
      && |Below(m, ck, ck(order[r].value))| <= r < |AtMost(m, ck, ck(order[r].value))|
  {
    Splayed.InOrderIsRanking(h, order, root, index, ck);
    var ks := Splayed.KeysOf(order);
    assert ks[r] == order[r].key && order[r] in h;
    RankBounds(ks, Splayed.ValuesOf(index), ck, r);
  }

  // The two queries whose answers depend on the order of ties.
  method AskByRank<K(!new), V(!new)>(s: Splayed.ValueRankedSplayMap<K, V>, op: Op<K, V>) returns (a: Answer<V>)
    requires s.Valid() && op.GetByRank?
    modifies s, s.h.Keys
    ensures s.Valid() && s.h.Keys == old(s.h.Keys) && s.Entries() == old(s.Entries())
    ensures Correct(op, s.Entries(), s.ck, a)
  {
    Splayed.InOrderIsRanking(s.h, s.order, s.root, s.index, s.ck);
    assert s.index.Keys == s.Entries().Keys;
    if op.rank < |s.order| {
      PlaceBounds(s.h, s.order, s.root, s.index, s.ck, op.rank);
    }
    var e := s.GetByRank(op.rank);
    a := CompareKeyAt(if e.Some? then Some(s.ck(e.value.1)) else None);
  }

  method AskRank<K(!new), V(!new)>(s: Splayed.ValueRankedSplayMap<K, V>, op: Op<K, V>) returns (a: Answer<V>)
    requires s.Valid() && op.Rank?
    modifies s, s.h.Keys
    ensures s.Valid() && s.h.Keys == old(s.h.Keys) && s.Entries() == old(s.Entries())
    ensures Correct(op, s.Entries(), s.ck, a)
  {
    Splayed.InOrderIsRanking(s.h, s.order, s.root, s.index, s.ck);
    assert s.index.Keys == s.Entries().Keys;
    var r := s.Rank(op.key);
    a := RankIs(r);
    if r.Some? {
      PlaceBounds(s.h, s.order, s.root, s.index, s.ck, r.value);
    }
  }

  method AskSplay<K(!new), V(!new)>(s: Splayed.ValueRankedSplayMap<K, V>, op: Op<K, V>) returns (a: Answer<V>)
    requires s.Valid()
    modifies s, s.h.Keys
    ensures s.Valid() && fresh(s.h.Keys - old(s.h.Keys))
    ensures Correct(op, old(s.Entries()), s.ck, a)
    ensures s.Entries() ==
      match op
      case Upsert(k, v) => old(s.Entries())[k := v]
      case Remove(k) => old(s.Entries()) - {k}
      case _ => old(s.Entries())
  {
    match op
    case Upsert(k, v) => s.Upsert(k, v); a := Done;
    case Remove(k) => s.Remove(k); a := Done;
    case Size => var n := s.Size(); a := Count(n);
    case Contains(k) => var b := s.Contains(k); a := Flag(b);
    case GetByKey(k) => var v := s.GetByKey(k); a := Found(v);
    case GetByRank(_) => a := AskByRank(s, op);
    case Rank(_) => a := AskRank(s, op);
    case CountLessEqual(x) => var n := s.CountLessEqual(x); a := Count(n);
  }

  // Both maps answered operation i of ops correctly, and equally unless it was a rank query.
  ghost predicate AnsweredAt<K(!new), V(!new)>(
    ops: seq<Op<K, V>>, ck: V -> int, i: nat, x: Answer<V>, y: Answer<V>)
    requires i < |ops|
  {
    && Correct(ops[i], After(ops[..i]), ck, x) && Correct(ops[i], After(ops[..i]), ck, y)
    && (!ops[i].Rank? ==> x == y)
    && (ops[i].Rank? && y.r.Some? ==>
          y.r.value == |Below(After(ops[..i]), ck, ck(After(ops[..i])[ops[i].key]))|)
  }

  // The answers so far, newest last.
  ghost predicate Answered<K(!new), V(!new)>(ops: seq<Op<K, V>>, ck: V -> int, xs: seq<Answer<V>>, ys: seq<Answer<V>>) {
    && |xs| == |ys| <= |ops|
    && (xs != [] ==>
          var n := |xs| - 1;
          Answered(ops, ck, xs[..n], ys[..n]) && AnsweredAt(ops, ck, n, xs[n], ys[n]))
  }

  lemma {:induction false} AnsweredEverywhere<K(!new), V(!new)>(
    ops: seq<Op<K, V>>, ck: V -> int, xs: seq<Answer<V>>, ys: seq<Answer<V>>, i: nat)
    requires Answered(ops, ck, xs, ys) && i < |xs|
    ensures AnsweredAt(ops, ck, i, xs[i], ys[i])
  {
    var n := |xs| - 1;
    if i < n {
      AnsweredEverywhere(ops, ck, xs[..n], ys[..n], i);
    }
  }

  method AskBoth<K(!new), V(!new)>(
    a: Splayed.ValueRankedSplayMap<K, V>, b: Naive.ValueRankedHashMap<K, V>, ops: seq<Op<K, V>>, n: nat)
    returns (x: Answer<V>, y: Answer<V>)
    requires a.Valid() && n < |ops| && a.ck == b.ck && a.Entries() == b.entries == After(ops[..n])
    modifies a, a.h.Keys, b
    ensures a.Valid() && fresh(a.h.Keys - old(a.h.Keys)) && a.Entries() == b.entries == After(ops[..n + 1])
    ensures AnsweredAt(ops, a.ck, n, x, y)
  {
    x := AskSplay(a, ops[n]);
    y := AskNaive(b, ops[n]);
    AnswersAgree(ops[n], After(ops[..n]), a.ck, x, y);
    assert ops[..n + 1][..n] == ops[..n];
  }

  /**
   For every sequence of operations on two initially empty maps: both answer each
   call correctly for the entries at that point. All answers are equal, except
   that the splay map's rank of a key may exceed the counting map's by less than
   the number of ties.
   */
  method Lockstep<K(==, !new), V(!new)>(ops: seq<Op<K, V>>, ck: V -> int)
    returns (splay: seq<Answer<V>>, naive: seq<Answer<V>>)
    ensures |splay| == |naive| == |ops|
    ensures forall i {:trigger splay[i]} | 0 <= i < |ops| :: AnsweredAt(ops, ck, i, splay[i], naive[i])
  {
    hide AnsweredAt, Splayed.ValueRankedSplayMap.Valid, Splayed.ValueRankedSplayMap.Entries;
    var a := new Splayed.ValueRankedSplayMap<K, V>(ck);
    var b := new Naive.ValueRankedHashMap<K, V>(ck);
    splay, naive := [], [];
    for n := 0 to |ops|
      invariant a.Valid() && fresh(a) && fresh(a.h.Keys) && fresh(b) && a.ck == b.ck == ck
      invariant a.Entries() == b.entries == After(ops[..n])
      invariant |splay| == n && Answered(ops, ck, splay, naive)
    {
      var x, y := AskBoth(a, b, ops, n);
      assert (splay + [x])[..n] == splay && (naive + [y])[..n] == naive;
      splay, naive := splay + [x], naive + [y];
    }
    forall i | 0 <= i < |ops| ensures AnsweredAt(ops, ck, i, splay[i], naive[i]) {
      AnsweredEverywhere(ops, ck, splay, naive, i);
    }
    assert ops[..|ops|] == ops;
  }

  /** Rank undoes GetByRank, ties or not. */
  method RankOfKeyAtRank<K(!new), V>(s: Splayed.ValueRankedSplayMap<K, V>, rank: nat) returns (r: Option<nat>)
    requires s.Valid() && rank < |s.Entries()|
    modifies s, s.h.Keys
    ensures s.Valid() && r == Some(rank)
  {
    Splayed.InOrderIsRanking(s.h, s.order, s.root, s.index, s.ck);
    assert s.index.Keys == s.Entries().Keys;
    ghost var ks := Splayed.KeysOf(s.order);
    var e := s.GetByRank(rank);
    assert ks[rank] == e.value.0;
    r := s.Rank(e.value.0);
    assert ks[r.value] == ks[rank];
  }

  /** And GetByRank undoes Rank. */
  method KeyAtRankOfKey<K(!new), V>(s: Splayed.ValueRankedSplayMap<K, V>, key: K) returns (e: Option<(K, V)>)
    requires s.Valid() && key in s.Entries()
    modifies s, s.h.Keys
    ensures s.Valid() && e == Some((key, old(s.Entries())[key]))
  {
    var r := s.Rank(key);
    PlaceBounds(s.h, s.order, s.root, s.index, s.ck, r.value);
    e := s.GetByRank(r.value);
  }
}
