/**
 What the batching policy does, said outright and without its steps: which inputs it lets go of, which
 queries it drops, and which it takes.
 */
module PolicyLaws {
  import opened ModelProfiles
  import opened QueryLists
  import opened BatchPolicy

  // Query d is too late for a batch of n started at exec.
  predicate TooLate(p: Profile, exec: int, n: nat, d: Query) {
    p.Covers(n) && d.deadline < exec + Nanos(p.Forward(n)) + Nanos(p.pre.Total()) + Nanos(p.post.Total())
  }

  // Query d is in time for one.
  predicate InTime(p: Profile, exec: int, n: nat, d: Query) {
    p.Covers(n) && d.deadline >= exec + Nanos(p.Forward(n)) + Nanos(p.pre.Total()) + Nanos(p.post.Total())
  }

  function Max(a: int, b: int): int {
    if a >= b then a else b
  }

  /**
   Phase 1 said outright: of the inputs, r lacks those that cannot finish with all the inputs after
   them, up to the first one that can.
   */
  ghost predicate Trimmed(p: Profile, exec: int, w: Window, r: Window) {
    var k := |w.inputs| - |r.inputs|;
    && k >= 0 && r == Window(w.queries, w.inputs[k..], w.drops + w.inputs[..k])
    && (forall j {:trigger w.inputs[j]} | 0 <= j < k :: TooLate(p, exec, |w.inputs| - j, w.inputs[j]))
    && (r.inputs != [] ==> InTime(p, exec, |r.inputs|, r.inputs[0]))
  }

  // The queries that r has dropped since w.
  ghost function Newly(w: Window, r: Window): seq<Query> {
    if |w.drops| <= |r.drops| then r.drops[|w.drops|..] else []
  }

  // The inputs and the first c queries.
  ghost function Taken(w: Window, c: nat): multiset<Query>
    requires c <= |w.queries|
  {
    multiset(w.inputs + w.queries[..c])
  }

  // Some queries in order, the drops before the others.
  ghost predicate Parted(drops: seq<Query>, inputs: seq<Query>, all: multiset<Query>) {
    Ascending(drops + inputs) && multiset(drops + inputs) == all
  }

  // The first queries have been divided into drops and inputs: the drops are the most urgent of all.
  ghost predicate Divides(w: Window, r: Window) {
    && |r.queries| <= |w.queries|
    && var c := |w.queries| - |r.queries|;
       && r.queries == w.queries[c..] && w.drops <= r.drops && |Newly(w, r)| <= c
       && Parted(Newly(w, r), r.inputs, Taken(w, c))
  }

  // In turn, each is too late for a batch up to the target of it and what is left.
  ghost predicate AllLate(p: Profile, exec: int, target: nat, all: nat, drops: seq<Query>) {
    |drops| <= all &&
    forall i {:trigger drops[i]} | 0 <= i < |drops| :: TooLate(p, exec, Min(target, all - i), drops[i])
  }

  /**
   Each drop is too late for the batch aimed at when its turn comes: up to the target, and no more
   than are left. Whatever heads the inputs then is in time for that.
   */
  ghost predicate DropsLate(p: Profile, exec: int, target: nat, w: Window, r: Window) {
    var d, all := Newly(w, r), |w.inputs| + |w.queries|;
    && AllLate(p, exec, target, all, d)
    && (|w.inputs| >= target ==> d == [])
    && (|w.inputs| < target && r.inputs != [] ==> InTime(p, exec, Min(target, all - |d|), r.inputs[0]))
  }

  // Each input beyond the target was added because the head finishes before its deadline even then.
  ghost predicate FreeLunch(p: Profile, exec: int, target: nat, w: Window, r: Window) {
    forall n: nat {:trigger p.Covers(n)} | Max(target, |w.inputs|) < n <= |r.inputs| ::
      p.Covers(n) && Finish(p, exec, n) < r.inputs[0].deadline
  }

  /** Phase 2 said outright. */
  ghost predicate Filled(p: Profile, exec: int, target: nat, w: Window, r: Window) {
    && Divides(w, r) && DropsLate(p, exec, target, w, r) && FreeLunch(p, exec, target, w, r)
    && Settled(p, exec, target, r)
  }

  // Two ordered lists of the same queries are the same list.
  lemma {:induction false} AscendingUnique(a: seq<Query>, b: seq<Query>)
    requires Ascending(a) && Ascending(b) && multiset(a) == multiset(b)
    ensures a == b
  {
    if a == [] {
      assert |multiset(b)| == 0;
    } else {
      assert a[0] in multiset(b) && |multiset(b)| > 0;
      assert b[0] in multiset(a);
      HeadTail(a);
      HeadTail(b);
      HeadIsFirst(a, b[0]);
      HeadIsFirst(b, a[0]);
      assert multiset(a[1..]) == multiset(a) - multiset{a[0]};
      assert multiset(b[1..]) == multiset(b) - multiset{b[0]};
      AscendingUnique(a[1..], b[1..]);
    }
  }

  lemma HeadIsFirst(a: seq<Query>, x: Query)
    requires Ascending(a) && x in a
    ensures a[0] == x || Before(a[0], x)
  {
    var k :| 0 <= k < |a| && a[k] == x;
  }

  // The most urgent of all that waits.
  function Head(w: Window): Query
    requires w.queries != []
  {
    if w.inputs == [] || Before(w.queries[0], w.inputs[0]) then w.queries[0] else w.inputs[0]
  }

  lemma HeadFirst(w: Window, c: nat, x: Query)
    requires Good(w) && w.queries != [] && c <= |w.queries| && x in Taken(w, c)
    ensures Head(w) == x || Before(Head(w), x)
  {
    assert x in w.inputs + w.queries[..c];
    if x in w.inputs {
      HeadIsFirst(w.inputs, x);
    } else {
      assert x in w.queries;
      HeadIsFirst(w.queries, x);
    }
  }

  lemma TakenMoved(w: Window, c: nat)
    requires Good(w) && c < |w.queries|
    ensures Taken(Moved(w), c) == Taken(w, c + 1)
  {
    HeadTail(w.queries);
    assert w.queries[0] in w.queries;
    InsertNew(w.inputs, w.queries[0]);
    assert w.queries[..c + 1] == [w.queries[0]] + w.queries[1..][..c];
  }

  lemma TakenDropped(w: Window, c: nat)
    requires Good(w) && c < |w.queries|
    ensures Moved(w).inputs != [] && Moved(w).inputs[0] == Head(w)
    ensures Taken(HeadDropped(Moved(w)), c) == Taken(w, c + 1) - multiset{Head(w)} && Head(w) in Taken(w, c + 1)
  {
    MovedGood(w);
    TakenMoved(w, c);
    HeadTail(Moved(w).inputs);
    hide Moved;
    OneLess(Moved(w).inputs, Moved(w).queries[..c]);
  }

  lemma OneLess(a: seq<Query>, b: seq<Query>)
    requires a != []
    ensures multiset(a + b) == multiset{a[0]} + multiset(a[1..] + b)
  {
    assert a + b == [a[0]] + (a[1..] + b);
  }

  lemma RestOf(s: seq<Query>, c: nat)
    requires c < |s|
    ensures s[1..][c..] == s[c + 1..]
  {
  }

  // One more query is taken and none dropped.
  lemma DividesMoved(w: Window, r: Window)
    requires Good(w) && w.queries != []
    ensures Divides(Moved(w), r) ==> Divides(w, r)
    ensures Divides(w, r) && |r.queries| < |w.queries| && Newly(w, r) == [] ==> Divides(Moved(w), r)
  {
    hide Good, Moved, Newly, Taken, Parted;
    MovedIs(w);
    SameNewly(w, Moved(w), r);
    if |r.queries| < |w.queries| {
      TakenMoved(w, |w.queries| - |r.queries| - 1);
      SameDivision(w, Moved(w), r);
    }
  }

  lemma MovedIs(w: Window)
    requires w.queries != []
    ensures Moved(w).queries == w.queries[1..] && Moved(w).drops == w.drops
  {
  }

  lemma SameNewly(w: Window, w': Window, r: Window)
    requires w.drops == w'.drops
    ensures Newly(w, r) == Newly(w', r)
  {
  }

  lemma SameDivision(w: Window, w': Window, r: Window)
    requires |r.queries| < |w.queries| && w'.queries == w.queries[1..] && w'.drops == w.drops
    requires Newly(w, r) == Newly(w', r)
    requires var c := |w.queries| - |r.queries|; Taken(w', c - 1) == Taken(w, c)
    ensures Divides(w', r) ==> Divides(w, r)
    ensures Divides(w, r) && Newly(w, r) == [] ==> Divides(w', r)
  {
    hide Newly, Taken, Parted;
    RestOf(w.queries, |w.queries| - |r.queries| - 1);
  }

  // What is newly dropped beyond the head.
  lemma NewlyBeyond(w: Window, r: Window, h: Query, w': Window)
    requires w'.drops == w.drops + [h]
    ensures w'.drops <= r.drops ==> w.drops <= r.drops && Newly(w, r) == [h] + Newly(w', r)
  {
    if w'.drops <= r.drops {
      assert r.drops == w.drops + [h] + r.drops[|w'.drops|..];
    }
  }

  lemma NewlyFirst(w: Window, r: Window, w': Window)
    requires w.drops <= r.drops && Newly(w, r) != [] && w'.drops == w.drops + [Newly(w, r)[0]]
    ensures w'.drops <= r.drops
  {
    assert r.drops == w.drops + Newly(w, r);
    assert w'.drops == r.drops[..|w'.drops|];
  }

  // Query h comes before all the others.
  ghost predicate Leads(h: Query, others: multiset<Query>) {
    forall x {:trigger others[x]} | others[x] > 0 :: Before(h, x)
  }

  lemma PartedMore(h: Query, drops: seq<Query>, inputs: seq<Query>, others: multiset<Query>)
    requires Parted(drops, inputs, others) && Leads(h, others)
    ensures Parted([h] + drops, inputs, others + multiset{h})
  {
    var rest := drops + inputs;
    assert [h] + drops + inputs == [h] + rest;
    forall i | 0 <= i < |rest| ensures Before(h, rest[i]) {
      assert rest[i] in rest;
      assert others[rest[i]] > 0;
    }
  }

  lemma PartedLess(drops: seq<Query>, inputs: seq<Query>, all: multiset<Query>)
    requires drops != [] && Parted(drops, inputs, all)
    ensures Parted(drops[1..], inputs, all - multiset{drops[0]})
  {
    HeadTail(drops + inputs);
    assert (drops + inputs)[1..] == drops[1..] + inputs;
  }

  lemma DroppedIs(w: Window)
    requires Good(w) && w.queries != []
    ensures Moved(w).inputs != []
    ensures var w' := HeadDropped(Moved(w)); w'.drops == w.drops + [Head(w)] && w'.queries == w.queries[1..]
  {
    MovedGood(w);
  }

  // Query h is taken off and dropped.
  lemma DividesMore(w: Window, w': Window, r: Window, h: Query)
    requires w.queries != [] && w'.queries == w.queries[1..] && w'.drops == w.drops + [h] && Divides(w', r)
    requires var c := |w'.queries| - |r.queries|;
      Taken(w, c + 1) == Taken(w', c) + multiset{h} && Leads(h, Taken(w', c))
    ensures Divides(w, r) && Newly(w, r) == [h] + Newly(w', r)
  {
    hide Newly, Taken, Parted, Leads;
    var c := |w'.queries| - |r.queries|;
    NewlyBeyond(w, r, h, w');
    PartedMore(h, Newly(w', r), r.inputs, Taken(w', c));
    RestOf(w.queries, c);
  }

  // One more query is taken and the head dropped.
  lemma DividesDropped(w: Window, r: Window)
    requires Good(w) && w.queries != [] && Divides(HeadDropped(Moved(w)), r)
    ensures Divides(w, r) && Newly(w, r) == [Head(w)] + Newly(HeadDropped(Moved(w)), r)
  {
    hide Newly, Taken, Good, Head, Parted, Moved, HeadDropped, Leads;
    DroppedIs(w);
    var w' := HeadDropped(Moved(w));
    var c := DividesCount(w', r);
    TakenDropped(w, c);
    HeadLeads(w, c);
    hide Divides;
    DividesMore(w, w', r, Head(w));
  }

  lemma DividesCount(w: Window, r: Window) returns (c: nat)
    requires Divides(w, r)
    ensures c == |w.queries| - |r.queries| <= |w.queries|
  {
    c := |w.queries| - |r.queries|;
  }

  lemma HeadLeads(w: Window, c: nat)
    requires Good(w) && c < |w.queries|
    ensures Moved(w).inputs != [] && Leads(Head(w), Taken(HeadDropped(Moved(w)), c))
  {
    TakenDropped(w, c);
    var others := Taken(HeadDropped(Moved(w)), c);
    forall x | others[x] > 0 ensures Before(Head(w), x) {
      HeadFirst(w, c + 1, x);
      TakenOnce(w, c + 1, x);
    }
  }

  lemma TakenOnce(w: Window, c: nat, x: Query)
    requires Good(w) && c <= |w.queries|
    ensures Taken(w, c)[x] <= 1
  {
    OnceIn(w.inputs, x);
    OnceIn(w.queries[..c], x);
    assert x in w.queries[..c] ==> x in w.queries;
  }

  lemma {:induction false} OnceIn(a: seq<Query>, x: Query)
    requires Ascending(a)
    ensures multiset(a)[x] <= 1 && (x !in a ==> multiset(a)[x] == 0)
  {
    if a != [] {
      HeadTail(a);
      OnceIn(a[1..], x);
    }
  }

  // The first of an ordered list of what was taken is the head.
  lemma FirstIsHead(w: Window, c: nat, drops: seq<Query>, inputs: seq<Query>)
    requires Good(w) && 0 < c <= |w.queries| && Parted(drops, inputs, Taken(w, c))
    ensures drops + inputs != [] && (drops + inputs)[0] == Head(w)
    ensures if drops != [] then drops[0] == Head(w) else inputs != [] && inputs[0] == Head(w)
  {
    hide Good, Head, Moved, HeadDropped, Taken;
    var a := drops + inputs;
    TakenDropped(w, c - 1);
    assert Head(w) in multiset(a);
    HeadIsFirst(a, Head(w));
    assert a[0] in multiset(a);
    HeadFirst(w, c, a[0]);
  }

  lemma UndroppedHead(w: Window, r: Window)
    requires Good(w) && w.queries != [] && Divides(w, r) && Newly(w, r) != []
    ensures Newly(w, r)[0] == Head(w) && Moved(w).inputs != []
    ensures var w' := HeadDropped(Moved(w)); w'.drops <= r.drops && Newly(w, r)[1..] == Newly(w', r)
  {
    DroppedIs(w);
    hide Newly, Taken, Good, Head, Parted, Moved, HeadDropped;
    var d, w' := Newly(w, r), HeadDropped(Moved(w));
    FirstIsHead(w, |w.queries| - |r.queries|, d, r.inputs);
    NewlyFirst(w, r, w');
    NewlyBeyond(w, r, Head(w), w');
    assert d[1..] == Newly(w', r);
  }

  lemma DividesLess(w: Window, w': Window, r: Window, h: Query)
    requires w.queries != [] && w'.queries == w.queries[1..] && Divides(w, r) && Newly(w, r) != []
    requires Newly(w, r)[0] == h && w'.drops <= r.drops && Newly(w, r)[1..] == Newly(w', r)
    requires var c := |w.queries| - |r.queries|; c > 0 && Taken(w', c - 1) == Taken(w, c) - multiset{h}
    ensures Divides(w', r)
  {
    hide Newly, Taken, Parted;
    var c := |w.queries| - |r.queries|;
    PartedLess(Newly(w, r), r.inputs, Taken(w, c));
    RestOf(w.queries, c - 1);
  }

  lemma DividesUndropped(w: Window, r: Window)
    requires Good(w) && w.queries != [] && Divides(w, r) && Newly(w, r) != []
    ensures Moved(w).inputs != [] && Divides(HeadDropped(Moved(w)), r)
  {
    hide Newly, Taken, Good, Head, Parted, Moved, HeadDropped;
    DroppedIs(w);
    UndroppedHead(w, r);
    var c := DividesCount(w, r);
    assert c > 0;
    TakenDropped(w, c - 1);
    hide Divides;
    DividesLess(w, HeadDropped(Moved(w)), r, Head(w));
  }

  // How many queries a step leaves.
  lemma MovedCount(w: Window)
    requires Good(w) && w.queries != []
    ensures |Moved(w).inputs| == |w.inputs| + 1 && |Moved(w).queries| == |w.queries| - 1 && Moved(w).drops == w.drops
    ensures Moved(w).inputs[0] == Head(w)
  {
    MovedGood(w);
  }

  // Without drops, the head stays the head.
  lemma HeadStays(w: Window, r: Window)
    requires Good(w) && Divides(w, r) && Newly(w, r) == [] && |r.queries| < |w.queries|
    ensures r.inputs != [] && r.inputs[0] == Head(w)
  {
    hide Good, Head, Parted, Taken, Newly;
    FirstIsHead(w, |w.queries| - |r.queries|, Newly(w, r), r.inputs);
  }

  lemma DividedCount(w: Window, r: Window)
    requires Divides(w, r)
    ensures |Newly(w, r)| + |r.inputs| == |w.inputs| + |w.queries| - |r.queries|
  {
    var all := Newly(w, r) + r.inputs;
    assert |multiset(all)| == |all|;
    hide Newly;
  }

  // Below the target something is taken as long as there is something.
  lemma TakesSome(p: Profile, exec: int, target: nat, w: Window, r: Window)
    requires Filled(p, exec, target, w, r) && w.queries != [] && |w.inputs| < target
    ensures |r.queries| < |w.queries|
  {
    DividedCount(w, r);
    hide Parted, Taken, DropsLate, FreeLunch;
  }

  lemma AllLateMore(p: Profile, exec: int, target: nat, all: nat, h: Query, drops: seq<Query>)
    requires all > 0 && TooLate(p, exec, Min(target, all), h)
    ensures AllLate(p, exec, target, all, [h] + drops) <==> AllLate(p, exec, target, all - 1, drops)
  {
    hide TooLate;
    var d := [h] + drops;
    if AllLate(p, exec, target, all, d) {
      forall i | 0 <= i < |drops| ensures TooLate(p, exec, Min(target, all - 1 - i), drops[i]) {
        assert drops[i] == d[i + 1];
      }
    }
    if AllLate(p, exec, target, all - 1, drops) {
      forall i | 0 <= i < |d| ensures TooLate(p, exec, Min(target, all - i), d[i]) {
        assert i > 0 ==> d[i] == drops[i - 1];
      }
    }
  }

  lemma LateDropped(p: Profile, exec: int, target: nat, w: Window, w': Window, r: Window)
    requires |w'.inputs| == |w.inputs| < target && |w'.queries| == |w.queries| - 1
    requires Newly(w, r) == [Head(w)] + Newly(w', r) && TooLate(p, exec, Min(target, |w.inputs| + |w.queries|), Head(w))
    ensures DropsLate(p, exec, target, w, r) <==> DropsLate(p, exec, target, w', r)
  {
    hide TooLate, InTime, Newly, Head, AllLate;
    AllLateMore(p, exec, target, |w.inputs| + |w.queries|, Head(w), Newly(w', r));
  }

  lemma FillDropIff(p: Profile, exec: int, target: nat, w: Window, r: Window)
    requires Good(w) && w.queries != [] && |w.inputs| < target
    requires TooLate(p, exec, Min(target, |w.inputs| + |w.queries|), Head(w))
    ensures Moved(w).inputs != []
    ensures Filled(p, exec, target, w, r) <==> Filled(p, exec, target, HeadDropped(Moved(w)), r)
  {
    MovedCount(w);
    DroppedIs(w);
    var w' := HeadDropped(Moved(w));
    assert |w'.inputs| == |w.inputs|;
    hide Divides, DropsLate, FreeLunch, Settled, Good, Head, Newly, TooLate, Moved, HeadDropped;
    if Filled(p, exec, target, w, r) {
      TakesSome(p, exec, target, w, r);
      LateHasDrop(p, exec, target, w, r);
      DividesUndropped(w, r);
    }
    if Divides(w', r) {
      DividesDropped(w, r);
      LateDropped(p, exec, target, w, w', r);
      SameLunch(p, exec, target, w, w', r);
    }
  }

  lemma SameLunch(p: Profile, exec: int, target: nat, w: Window, w': Window, r: Window)
    requires Max(target, |w.inputs|) == Max(target, |w'.inputs|)
    ensures FreeLunch(p, exec, target, w, r) <==> FreeLunch(p, exec, target, w', r)
  {
  }

  // If the head is too late it is dropped.
  lemma LateHasDrop(p: Profile, exec: int, target: nat, w: Window, r: Window)
    requires Good(w) && Divides(w, r) && DropsLate(p, exec, target, w, r) && |r.queries| < |w.queries|
    requires |w.inputs| < target && TooLate(p, exec, Min(target, |w.inputs| + |w.queries|), Head(w))
    ensures Newly(w, r) != []
  {
    hide Good, Divides, Newly, Head;
    if Newly(w, r) == [] {
      HeadStays(w, r);
    }
  }

  lemma LateMoved(p: Profile, exec: int, target: nat, w: Window, w': Window, r: Window)
    requires |w'.inputs| == |w.inputs| + 1 <= target && |w'.queries| == |w.queries| - 1 && w'.drops == w.drops
    requires Newly(w, r) == [] ==> r.inputs != [] && InTime(p, exec, Min(target, |w.inputs| + |w.queries|), r.inputs[0])
    ensures DropsLate(p, exec, target, w', r) ==> DropsLate(p, exec, target, w, r)
    ensures DropsLate(p, exec, target, w, r) && Newly(w, r) == [] ==> DropsLate(p, exec, target, w', r)
  {
    hide TooLate, InTime, AllLate;
  }

  lemma FillKeepIff(p: Profile, exec: int, target: nat, w: Window, r: Window)
    requires Good(w) && w.queries != [] && |w.inputs| < target
    requires InTime(p, exec, Min(target, |w.inputs| + |w.queries|), Head(w))
    ensures Filled(p, exec, target, w, r) <==> Filled(p, exec, target, Moved(w), r)
  {
    MovedCount(w);
    DividesMoved(w, r);
    var w' := Moved(w);
    SameLunch(p, exec, target, w, w', r);
    if Filled(p, exec, target, w, r) {
      TakesSome(p, exec, target, w, r);
      TimelyHasNone(p, exec, target, w, r);
    }
    if Divides(w, r) && |r.queries| < |w.queries| {
      if Newly(w, r) == [] {
        HeadStays(w, r);
      }
      hide Divides, DropsLate, FreeLunch, Settled, Good, Head, InTime, Moved;
      LateMoved(p, exec, target, w, w', r);
    }
    hide DropsLate, FreeLunch, Settled, Good, Head, InTime, Moved;
  }

  // If the head is in time nothing is dropped.
  lemma TimelyHasNone(p: Profile, exec: int, target: nat, w: Window, r: Window)
    requires Good(w) && Divides(w, r) && DropsLate(p, exec, target, w, r) && |r.queries| < |w.queries|
    requires |w.inputs| < target && InTime(p, exec, Min(target, |w.inputs| + |w.queries|), Head(w))
    ensures Newly(w, r) == []
  {
    hide Good, Newly, Head, Parted, Taken, AllLate;
    if Newly(w, r) != [] {
      FirstIsLate(p, exec, target, |w.inputs| + |w.queries|, Newly(w, r));
      FirstIsHead(w, |w.queries| - |r.queries|, Newly(w, r), r.inputs);
    }
  }

  lemma FirstIsLate(p: Profile, exec: int, target: nat, all: nat, drops: seq<Query>)
    requires AllLate(p, exec, target, all, drops) && drops != []
    ensures TooLate(p, exec, Min(target, all), drops[0])
  {
    hide TooLate;
  }

  lemma LunchMoved(p: Profile, exec: int, target: nat, w: Window, w': Window, r: Window)
    requires |w'.inputs| == |w.inputs| + 1 > target && r.inputs != [] && p.Covers(|w.inputs| + 1)
    requires Finish(p, exec, |w.inputs| + 1) < r.inputs[0].deadline
    ensures FreeLunch(p, exec, target, w, r) <==> FreeLunch(p, exec, target, w', r)
  {
    hide Finish;
  }

  // Beyond the target nothing is dropped.
  lemma FullMoved(p: Profile, exec: int, target: nat, w: Window, w': Window, r: Window)
    requires |w.inputs| >= target && |w'.inputs| >= target && w'.drops == w.drops
    ensures DropsLate(p, exec, target, w, r) <==> DropsLate(p, exec, target, w', r)
    ensures DropsLate(p, exec, target, w, r) ==> Newly(w, r) == []
  {
    hide TooLate, InTime;
  }

  // Nothing is taken: all stays as it is.
  lemma NothingTaken(w: Window, r: Window)
    requires Good(w) && Divides(w, r) && |r.queries| == |w.queries|
    ensures r == w
  {
    assert w.inputs + w.queries[..0] == w.inputs;
    assert Newly(w, r) + r.inputs == r.inputs;
    AscendingUnique(w.inputs, r.inputs);
    assert w.queries[0..] == w.queries;
  }

  lemma FillLunchIff(p: Profile, exec: int, target: nat, w: Window, r: Window)
    requires Good(w) && w.queries != [] && |w.inputs| >= target >= 1 && p.Covers(|w.inputs| + 1)
    requires Finish(p, exec, |w.inputs| + 1) < Min(w.inputs[0].deadline, w.queries[0].deadline)
    ensures Filled(p, exec, target, w, r) <==> Filled(p, exec, target, Moved(w), r)
  {
    hide Good, Head, Moved, Finish;
    MovedCount(w);
    DividesMoved(w, r);
    var w' := Moved(w);
    FullMoved(p, exec, target, w, w', r);
    HeadDeadline(w);
    if Filled(p, exec, target, w, r) && |r.queries| == |w.queries| {
      NothingTaken(w, r);
    }
    if Divides(w, r) && |r.queries| < |w.queries| && Newly(w, r) == [] {
      HeadStays(w, r);
      hide Divides, DropsLate, FreeLunch, Settled;
      LunchMoved(p, exec, target, w, w', r);
    }
    hide DropsLate, FreeLunch;
  }

  lemma HeadDeadline(w: Window)
    requires w.inputs != [] && w.queries != []
    ensures Head(w).deadline >= Min(w.inputs[0].deadline, w.queries[0].deadline)
  {
  }

  lemma FillStopIff(p: Profile, exec: int, target: nat, w: Window, r: Window)
    requires Good(w) && w.queries != [] && |w.inputs| >= target >= 1 && p.Covers(|w.inputs| + 1)
    requires Finish(p, exec, |w.inputs| + 1) >= Min(w.inputs[0].deadline, w.queries[0].deadline)
    ensures Filled(p, exec, target, w, r) <==> r == w
  {
    hide Taken;
    DividesSelf(w);
    if Filled(p, exec, target, w, r) {
      FullMoved(p, exec, target, w, w, r);
      if |r.queries| < |w.queries| {
        HeadStays(w, r);
        DividedCount(w, r);
      } else {
        NothingTaken(w, r);
      }
    }
  }

  lemma DividesSelf(w: Window)
    requires Good(w)
    ensures Divides(w, w) && Newly(w, w) == []
  {
    assert Newly(w, w) + w.inputs == w.inputs == w.inputs + w.queries[..0];
    assert w.queries[0..] == w.queries;
  }

  // Without a latency for the batch aimed at there is no result.
  lemma FillAborts(p: Profile, exec: int, target: nat, w: Window, r: Window)
    requires Good(w) && w.queries != [] && target >= 1
    requires !p.Covers(if |w.inputs| < target then Min(target, |w.inputs| + |w.queries|) else |w.inputs| + 1)
    ensures !Filled(p, exec, target, w, r)
  {
    hide Taken, Head;
    if Filled(p, exec, target, w, r) {
      DividedCount(w, r);
      if |w.inputs| < target {
        TakesSome(p, exec, target, w, r);
        AbortsBelow(p, exec, target, w, r);
      } else {
        FullMoved(p, exec, target, w, w, r);
        hide DropsLate;
        if |r.queries| == |w.queries| {
          NothingTaken(w, r);
        }
      }
    }
  }

  lemma AbortsBelow(p: Profile, exec: int, target: nat, w: Window, r: Window)
    requires Good(w) && |r.queries| < |w.queries| && |w.inputs| < target && Divides(w, r)
    requires DropsLate(p, exec, target, w, r)
    ensures p.Covers(Min(target, |w.inputs| + |w.queries|))
  {
    hide Taken, Head, Parted;
    if Newly(w, r) == [] {
      HeadStays(w, r);
    } else {
      assert TooLate(p, exec, Min(target, |w.inputs| + |w.queries|), Newly(w, r)[0]);
    }
  }

  lemma FillNoneIff(p: Profile, exec: int, target: nat, w: Window, r: Window)
    requires Good(w) && w.queries == [] && (HeadFits(p, exec, w) || Committed(p, exec, target, w))
    ensures Filled(p, exec, target, w, r) <==> r == w
  {
    DividesSelf(w);
    if Filled(p, exec, target, w, r) {
      NothingTaken(w, r);
    }
  }

  // A step taken backwards and forwards.
  lemma FillStepIff(p: Profile, exec: int, target: nat, w: Window, r: Window)
    requires Good(w) && w.queries != [] && target >= 1
    ensures match FillStep(p, exec, target, w)
      case Abort => !Filled(p, exec, target, w, r)
      case Stop => Filled(p, exec, target, w, r) <==> r == w
      case Next(w') => Filled(p, exec, target, w, r) <==> Filled(p, exec, target, w', r)
  {
    hide Filled;
    MovedCount(w);
    var all := |w.inputs| + |w.queries|;
    if |w.inputs| < target {
      if !p.Covers(Min(target, all)) {
        FillAborts(p, exec, target, w, r);
      } else if TooLate(p, exec, Min(target, all), Head(w)) {
        FillDropIff(p, exec, target, w, r);
      } else {
        FillKeepIff(p, exec, target, w, r);
      }
    } else if !p.Covers(|w.inputs| + 1) {
      FillAborts(p, exec, target, w, r);
    } else if Finish(p, exec, |w.inputs| + 1) < Min(w.inputs[0].deadline, w.queries[0].deadline) {
      FillLunchIff(p, exec, target, w, r);
    } else {
      FillStopIff(p, exec, target, w, r);
    }
  }

  /**
   Phase 2 does exactly what it should: it ends with r if and only if r has the most urgent queries
   dropped because they are too late, the head in time for the batch aimed at, the free lunch
   beyond the target taken, and nothing left to do.
   */
  lemma {:induction false} FillIff(p: Profile, exec: int, target: nat, w: Window, r: Window)
    requires Good(w) && target >= 1 && (HeadFits(p, exec, w) || Committed(p, exec, target, w))
    ensures Fill(p, exec, target, w) == Done(r) <==> Filled(p, exec, target, w, r)
    decreases |w.queries|
  {
    hide Filled;
    if w.queries == [] {
      FillNoneIff(p, exec, target, w, r);
    } else {
      FillStepIff(p, exec, target, w, r);
      if FillStep(p, exec, target, w).Next? {
        StepKeeps(p, exec, target, w);
        StepFits(p, exec, target, w);
        hide HeadFits, Committed, FillStep;
        FillIff(p, exec, target, FillStep(p, exec, target, w).w, r);
      }
    }
  }

  /** Phase 1 likewise. */
  lemma {:induction false} DropLateIff(p: Profile, exec: int, w: Window, r: Window)
    ensures DropLate(p, exec, w) == Done(r) <==> Trimmed(p, exec, w, r)
    decreases |w.inputs|
  {
    if w.inputs == [] || !p.Covers(|w.inputs|) || w.inputs[0].deadline >= Finish(p, exec, |w.inputs|) {
      TrimNone(p, exec, w, r);
    } else {
      DropLateIff(p, exec, HeadDropped(w), r);
      TrimFirst(p, exec, w, r);
    }
  }

  lemma TrimNone(p: Profile, exec: int, w: Window, r: Window)
    requires w.inputs == [] || !TooLate(p, exec, |w.inputs|, w.inputs[0])
    ensures Trimmed(p, exec, w, r) <==> r == w && (w.inputs != [] ==> p.Covers(|w.inputs|))
  {
    assert w.inputs[0..] == w.inputs && w.drops + w.inputs[..0] == w.drops;
    assert w.inputs != [] ==> w.inputs[0] in w.inputs;
  }

  lemma TrimFirst(p: Profile, exec: int, w: Window, r: Window)
    requires w.inputs != [] && TooLate(p, exec, |w.inputs|, w.inputs[0])
    ensures Trimmed(p, exec, w, r) <==> Trimmed(p, exec, HeadDropped(w), r)
  {
    assert !InTime(p, exec, |w.inputs|, w.inputs[0]);
    hide TooLate, InTime;
    var n, k := |w.inputs|, |w.inputs| - |r.inputs|;
    if k >= 1 {
      assert w.inputs[1..][k - 1..] == w.inputs[k..];
      assert w.drops + [w.inputs[0]] + w.inputs[1..][..k - 1] == w.drops + w.inputs[..k];
      LateFirst(p, exec, w.inputs, k);
    }
  }

  lemma LateFirst(p: Profile, exec: int, inputs: seq<Query>, k: nat)
    requires 0 < k <= |inputs| && TooLate(p, exec, |inputs|, inputs[0])
    ensures (forall j {:trigger inputs[j]} | 0 <= j < k :: TooLate(p, exec, |inputs| - j, inputs[j]))
      <==> (forall j {:trigger inputs[1..][j]} | 0 <= j < k - 1 :: TooLate(p, exec, |inputs| - 1 - j, inputs[1..][j]))
  {
    hide TooLate;
    var rest := inputs[1..];
    if forall j {:trigger rest[j]} | 0 <= j < k - 1 :: TooLate(p, exec, |inputs| - 1 - j, rest[j]) {
      forall j | 0 <= j < k ensures TooLate(p, exec, |inputs| - j, inputs[j]) {
        assert j > 0 ==> inputs[j] == rest[j - 1];
      }
    }
  }

  /**
   The whole policy, said outright: it ends with r if and only if r comes from w by letting go of the
   inputs that are too late and filling up. So every query it drops is too late for the batch that
   was aimed at.
   */
  lemma PolicyIff(p: Profile, exec: int, target: nat, w: Window, r: Window)
    requires Good(w) && target >= 1
    ensures Expanded(p, exec, target, w) == Done(r) <==>
      exists mid {:trigger Trimmed(p, exec, w, mid)} :: Trimmed(p, exec, w, mid) && Filled(p, exec, target, mid, r)
  {
    hide Trimmed, Filled;
    PolicySafe(p, exec, target, w);
    var first := DropLate(p, exec, w);
    if first.Done? {
      DropLateKeeps(p, exec, w);
      var k := DropLateIsPrefix(p, exec, w);
      DropLateIff(p, exec, w, first.w);
      FillIff(p, exec, target, first.w, r);
      if Fill(p, exec, target, first.w).Done? {
        FillFits(p, exec, target, first.w);
      }
      hide Fill;
    }
    forall mid | Trimmed(p, exec, w, mid) ensures first == Done(mid) {
      DropLateIff(p, exec, w, mid);
    }
  }

  // Some batch of the queries that wait, with d among them, would end after the deadline of d.
  ghost predicate Late(p: Profile, exec: int, w: Window, d: Query) {
    exists n: nat {:trigger TooLate(p, exec, n, d)} :: n <= |w.inputs| + |w.queries| && TooLate(p, exec, n, d)
  }

  lemma TrimDropsLate(p: Profile, exec: int, w: Window, r: Window, i: nat)
    requires Trimmed(p, exec, w, r) && |w.drops| <= i < |r.drops|
    ensures Late(p, exec, w, r.drops[i])
  {
    var j := i - |w.drops|;
    assert r.drops[i] == w.inputs[j];
    assert TooLate(p, exec, |w.inputs| - j, w.inputs[j]);
  }

  lemma FillDropsLate(p: Profile, exec: int, target: nat, w: Window, r: Window, i: nat)
    requires Filled(p, exec, target, w, r) && |w.drops| <= i < |r.drops|
    ensures Late(p, exec, w, r.drops[i])
  {
    hide TooLate, Parted, Taken, Settled, FreeLunch;
    var j, d, all := i - |w.drops|, Newly(w, r), |w.inputs| + |w.queries|;
    assert r.drops[i] == d[j];
    assert TooLate(p, exec, Min(target, all - j), d[j]);
  }

  lemma StillLate(p: Profile, exec: int, w: Window, w': Window, d: Query)
    requires Late(p, exec, w', d) && |w'.inputs| + |w'.queries| <= |w.inputs| + |w.queries|
    ensures Late(p, exec, w, d)
  {
  }

  /** Whatever the policy drops is late: it cannot make its deadline in a batch of some of those that wait. */
  lemma PolicyDropsLate(p: Profile, exec: int, target: nat, w: Window, i: nat)
    requires Good(w) && target >= 1 && Expanded(p, exec, target, w).Done?
    ensures w.drops <= Expanded(p, exec, target, w).w.drops
    ensures |w.drops| <= i < |Expanded(p, exec, target, w).w.drops| ==>
      Late(p, exec, w, Expanded(p, exec, target, w).w.drops[i])
  {
    var r := Expanded(p, exec, target, w).w;
    PolicyIff(p, exec, target, w, r);
    var mid :| Trimmed(p, exec, w, mid) && Filled(p, exec, target, mid, r);
    assert w.drops <= mid.drops && |mid.inputs| <= |w.inputs| && mid.queries == w.queries;
    hide Expanded, Late, TooLate, InTime, DropsLate, FreeLunch, Settled, Parted, Newly;
    if |w.drops| <= i < |mid.drops| {
      TrimDropsLate(p, exec, w, mid, i);
      assert r.drops[i] == mid.drops[i];
    } else if |mid.drops| <= i < |r.drops| {
      FillDropsLate(p, exec, target, mid, r, i);
      StillLate(p, exec, w, mid, r.drops[i]);
    }
  }
}
