/** Queries ordered by deadline, ties by global id: the SortedQueryList. */
module QueryLists {

  datatype Query = Query(deadline: int, id: nat)

  predicate Before(a: Query, b: Query) {
    a.deadline < b.deadline || (a.deadline == b.deadline && a.id < b.id)
  }

  // The elements of an ordered set, first element first.
  ghost predicate Ascending(s: seq<Query>) {
    forall i, j {:trigger s[i], s[j]} | 0 <= i < j < |s| :: Before(s[i], s[j])
  }

  // Insertion into the ordered set: an equal key is already there and stays.
  function Insert(s: seq<Query>, q: Query): (r: seq<Query>)
    ensures r != [] && |s| <= |r| <= |s| + 1
  {
    if s == [] || Before(q, s[0]) then [q] + s
    else if q == s[0] then s
    else [s[0]] + Insert(s[1..], q)
  }

  lemma {:induction false} InsertMembers(s: seq<Query>, q: Query, x: Query)
    ensures x in Insert(s, q) <==> x in s || x == q
  {
    if s != [] && !Before(q, s[0]) && q != s[0] {
      InsertMembers(s[1..], q, x);
      assert s == [s[0]] + s[1..];
    }
  }

  // An earlier query may be put in front.
  lemma ConsAscending(q: Query, s: seq<Query>)
    requires Ascending(s) && (s != [] ==> Before(q, s[0]))
    ensures Ascending([q] + s)
  {
  }

  /** Insertion keeps the order, and the first query is the earlier of the new one and the old first. */
  lemma {:induction false} InsertAscending(s: seq<Query>, q: Query)
    requires Ascending(s)
    ensures Ascending(Insert(s, q))
    ensures Insert(s, q)[0] == if s == [] || Before(q, s[0]) then q else s[0]
  {
    if s == [] || Before(q, s[0]) {
      ConsAscending(q, s);
    } else if q != s[0] {
      assert Ascending(s[1..]);
      InsertAscending(s[1..], q);
      ConsAscending(s[0], Insert(s[1..], q));
    }
  }

  /** A new key is added once, to the other keys. */
  lemma {:induction false} InsertNew(s: seq<Query>, q: Query)
    requires Ascending(s) && q !in s
    ensures multiset(Insert(s, q)) == multiset(s) + multiset{q} && |Insert(s, q)| == |s| + 1
  {
    if s == [] || Before(q, s[0]) {
    } else {
      InsertNew(s[1..], q);
      assert s == [s[0]] + s[1..];
    }
  }

  /** A key that is already there is swallowed. */
  lemma {:induction false} InsertTwice(s: seq<Query>, q: Query)
    requires Ascending(s) && q in s
    ensures Insert(s, q) == s
  {
    if q != s[0] {
      assert q in s[1..] && Before(s[0], q);
      assert Ascending(s[1..]);
      InsertTwice(s[1..], q);
      hide Ascending;
      assert s == [s[0]] + s[1..];
    }
  }

  ghost predicate Disjoint(a: seq<Query>, b: seq<Query>) {
    forall x {:trigger x in a} {:trigger x in b} :: !(x in a && x in b)
  }

  // Everything in a comes before everything in b.
  ghost predicate AllBefore(a: seq<Query>, b: seq<Query>) {
    forall x, y {:trigger x in a, y in b} | x in a && y in b :: Before(x, y)
  }
}
