/**
 The shape of the pointer splay tree inside ValueRankedSplayMap, as a value.

 A `Shape` maps every node to its three pointers and to three labels: `pos`, its
 place in the in-order sequence `order`, and `lo`..`hi`, the range of places its
 subtree covers. With these labels every structural fact is local to a node and
 its neighbours: links are mutual, ranges split at `pos`, and ranges shrink
 downwards, so there are no cycles.
 */
module SplayShape {

  class Node<K, V> {
    const key: K
    const value: V
    var parent: Node?<K, V>
    var left: Node?<K, V>
    var right: Node?<K, V>
    var size: nat

    constructor (key: K, value: V)
      ensures this.key == key && this.value == value
      ensures parent == null && left == null && right == null && size == 1
    {
      this.key, this.value := key, value;
      parent, left, right, size := null, null, null, 1;
    }

    function Child(c: nat): Node?<K, V>
      reads this
    {
      if c == 0 then left else right
    }

    method SetChild(c: nat, n: Node?<K, V>)
      modifies this`left, this`right
      ensures left == if c == 0 then n else old(left)
      ensures right == if c == 0 then old(right) else n
    {
      if c == 0 {
        left := n;
      } else {
        right := n;
      }
    }
  }

  datatype Cell<K, V> = Cell(
    parent: Node?<K, V>, left: Node?<K, V>, right: Node?<K, V>, lo: int, pos: int, hi: int)
  {
    // The subtree covers place p.
    predicate Covers(p: int) {
      lo <= p < hi
    }

    function Child(c: nat): Node?<K, V> {
      if c == 0 then left else right
    }
  }

  type Shape<K, V> = map<Node<K, V>, Cell<K, V>>

  /** Node n agrees with its neighbours and with its place in `order`. */
  ghost predicate Linked<K, V>(h: Shape<K, V>, order: seq<Node<K, V>>, top: Node?<K, V>, n: Node<K, V>)
    requires n in h
  {
    var Cell(parent, left, right, lo, pos, hi) := h[n];
    && 0 <= lo <= pos < hi <= |order|
    && order[pos] == n
    && (if left == null then lo == pos else
          left in h && h[left].parent == n && h[left].lo == lo && h[left].hi == pos)
    && (if right == null then pos + 1 == hi else
          right in h && h[right].parent == n && h[right].lo == pos + 1 && h[right].hi == hi)
    && (if parent == null then n == top && lo == 0 && hi == |order| else
          parent in h && (h[parent].left == n || h[parent].right == n))
  }

  /** The nodes form one tree rooted at `top` whose in-order sequence is `order`. */
  ghost predicate Links<K, V>(h: Shape<K, V>, order: seq<Node<K, V>>, top: Node?<K, V>)
  {
    && (forall n {:trigger Linked(h, order, top, n)} | n in h :: Linked(h, order, top, n))
    && (forall i {:trigger order[i]} | 0 <= i < |order| :: order[i] in h && h[order[i]].pos == i)
    && (if order == [] then h.Keys == {} && top == null else top in h && h[top].parent == null)
  }

  /** No other node's range covers the root's place. */
  lemma {:induction false} TopExcludes<K, V>(h: Shape<K, V>, order: seq<Node<K, V>>, top: Node<K, V>, m: Node<K, V>)
    requires Links(h, order, top) && m in h && top in h && m != top
    ensures !h[m].Covers(h[top].pos)
    decreases |order| - (h[m].hi - h[m].lo)
  {
    assert Linked(h, order, top, m);
    var p := h[m].parent;
    assert Linked(h, order, top, p);
    if p != top {
      TopExcludes(h, order, top, p);
    }
  }

  /** Nor, apart from the root, does any other node's range cover the place of the root's left child. */
  lemma {:induction false} LeftOfTopExcludes<K, V>(
    h: Shape<K, V>, order: seq<Node<K, V>>, top: Node<K, V>, v: Node<K, V>, m: Node<K, V>)
    requires Links(h, order, top) && m in h && top in h && v in h && h[top].left == v && m != top && m != v
    ensures !h[m].Covers(h[v].pos)
    decreases |order| - (h[m].hi - h[m].lo)
  {
    assert Linked(h, order, top, m) && Linked(h, order, top, top) && Linked(h, order, top, v);
    var p := h[m].parent;
    assert Linked(h, order, top, p);
    if p != top && p != v {
      LeftOfTopExcludes(h, order, top, v, p);
    }
  }

  /** The in-order sequence read off the child pointers alone. */
  ghost function InOrder<K, V>(
      h: Shape<K, V>, order: seq<Node<K, V>>, top: Node?<K, V>, n: Node?<K, V>): seq<Node<K, V>>
    requires Links(h, order, top) && (n != null ==> n in h)
    decreases if n == null then 0 else h[n].hi - h[n].lo
  {
    if n == null then [] else
      assert Linked(h, order, top, n);
      assert h[n].left != null ==> Linked(h, order, top, h[n].left);
      assert h[n].right != null ==> Linked(h, order, top, h[n].right);
      InOrder(h, order, top, h[n].left) + [n] + InOrder(h, order, top, h[n].right)
  }

  lemma SliceAt<T>(s: seq<T>, lo: int, pos: int, hi: int)
    requires 0 <= lo <= pos < hi <= |s|
    ensures s[lo..hi] == s[lo..pos] + [s[pos]] + s[pos + 1..hi]
  {
  }

  /** The labels mean what they say: they are the places found by walking the pointers. */
  lemma {:induction false} InOrderIsRange<K, V>(h: Shape<K, V>, order: seq<Node<K, V>>, top: Node?<K, V>, n: Node<K, V>)
    requires Links(h, order, top) && n in h
    ensures 0 <= h[n].lo <= h[n].hi <= |order|
    ensures InOrder(h, order, top, n) == order[h[n].lo..h[n].hi]
    decreases h[n].hi - h[n].lo
  {
    assert Linked(h, order, top, n);
    var left, right, lo, pos, hi := h[n].left, h[n].right, h[n].lo, h[n].pos, h[n].hi;
    assert InOrder(h, order, top, left) == order[lo..pos] by {
      if left != null {
        assert Linked(h, order, top, left);
        InOrderIsRange(h, order, top, left);
      }
    }
    assert InOrder(h, order, top, right) == order[pos + 1..hi] by {
      if right != null {
        assert Linked(h, order, top, right);
        InOrderIsRange(h, order, top, right);
      }
    }
    SliceAt(order, lo, pos, hi);
  }

  /** Side c is where the parent of x goes when x is rotated above it. */
  ghost predicate CanRotate<K, V>(h: Shape<K, V>, x: Node<K, V>, c: nat) {
    && x in h && h[x].parent != null && h[x].parent in h && c <= 1
    && h[h[x].parent].Child(1 - c) == x
  }

  /**
   One rotation of x over its parent y: y takes x's child on side c and goes
   below x on that side; x takes y's place under y's parent and y's range.
   */
  ghost function Rotate<K, V>(h: Shape<K, V>, x: Node<K, V>, c: nat): (h': Shape<K, V>)
    requires CanRotate(h, x, c)
    ensures h'.Keys == h.Keys
  {
    var y := h[x].parent;
    var b := h[x].Child(c);
    var g := h[y].parent;
    map n | n in h ::
      if n == x then
        Cell(g, if c == 0 then y else h[x].left, if c == 0 then h[x].right else y, h[y].lo, h[x].pos, h[y].hi)
      else if n == y then
        Cell(x, if c == 0 then h[y].left else b, if c == 0 then b else h[y].right,
             if c == 0 then h[y].lo else h[x].pos + 1, h[y].pos, if c == 0 then h[x].pos else h[y].hi)
      else
        h[n].(parent := if n == b then y else h[n].parent,
              left := if n == g && h[n].right != y then x else h[n].left,
              right := if n == g && h[n].right == y then x else h[n].right)
  }

  // The nodes a rotation touches are different nodes of the tree.
  lemma {:induction false} RotateNeighbours<K, V>(
    h: Shape<K, V>, order: seq<Node<K, V>>, top: Node?<K, V>, x: Node<K, V>, c: nat)
    requires Links(h, order, top) && CanRotate(h, x, c)
    ensures var y := h[x].parent;
      var b, w, g := h[x].Child(c), h[y].Child(c), h[y].parent;
      && y != x
      && (b != null ==> b in h && b != x && b != y)
      && (w != null ==> w in h && w != x && w != y)
      && (g != null ==> g in h && g != x && g != y)
  {
    var y := h[x].parent;
    assert Linked(h, order, top, x) && Linked(h, order, top, y);
    assert h[y].parent != null ==> Linked(h, order, top, h[y].parent);
  }

  // Rotating x over y moves only y out of the way: neither the child that changes
  // sides nor y's other child covers a place p that stays with x.
  lemma {:induction false} RotateClears<K, V>(
    h: Shape<K, V>, order: seq<Node<K, V>>, top: Node?<K, V>, x: Node<K, V>, c: nat, p: int)
    requires Links(h, order, top) && CanRotate(h, x, c)
    requires h[x].Covers(p) && (if c == 0 then h[x].pos <= p else p <= h[x].pos)
    ensures var y := h[x].parent;
      var b, w := h[x].Child(c), h[y].Child(c);
      && h[y].Covers(p)
      && (b != null ==> b in h && !h[b].Covers(p))
      && (w != null ==> w in h && !h[w].Covers(p))
  {
    assert Linked(h, order, top, x) && Linked(h, order, top, h[x].parent);
  }

  // The root after rotating x.
  ghost function TopAfter<K, V>(h: Shape<K, V>, top: Node?<K, V>, x: Node<K, V>, c: nat): Node?<K, V>
    requires CanRotate(h, x, c)
  {
    if h[h[x].parent].parent == null then x else top
  }

  lemma {:induction false} RotateLinksX<K, V>(
    h: Shape<K, V>, order: seq<Node<K, V>>, top: Node?<K, V>, x: Node<K, V>, c: nat)
    requires Links(h, order, top) && CanRotate(h, x, c)
    ensures Linked(Rotate(h, x, c), order, TopAfter(h, top, x, c), x)
  {
    var y := h[x].parent;
    assert Linked(h, order, top, x) && Linked(h, order, top, y);
    var g := h[y].parent;
    assert g != null ==> Linked(h, order, top, g);
  }

  lemma {:induction false} RotateLinksY<K, V>(
    h: Shape<K, V>, order: seq<Node<K, V>>, top: Node?<K, V>, x: Node<K, V>, c: nat)
    requires Links(h, order, top) && CanRotate(h, x, c)
    ensures Linked(Rotate(h, x, c), order, TopAfter(h, top, x, c), h[x].parent)
  {
    var y := h[x].parent;
    assert Linked(h, order, top, x) && Linked(h, order, top, y);
  }

  lemma {:induction false} RotateLinksOther<K, V>(
    h: Shape<K, V>, order: seq<Node<K, V>>, top: Node?<K, V>, x: Node<K, V>, c: nat, n: Node<K, V>)
    requires Links(h, order, top) && CanRotate(h, x, c) && n in h && n != x && n != h[x].parent
    ensures Linked(Rotate(h, x, c), order, TopAfter(h, top, x, c), n)
  {
    var y := h[x].parent;
    assert Linked(h, order, top, n) && Linked(h, order, top, x) && Linked(h, order, top, y);
  }

  /** A rotation keeps the tree well formed and leaves the in-order sequence alone. */
  lemma {:induction false} RotateKeepsLinks<K, V>(
      h: Shape<K, V>, order: seq<Node<K, V>>, top: Node?<K, V>, x: Node<K, V>, c: nat)
    requires Links(h, order, top) && CanRotate(h, x, c)
    ensures Links(Rotate(h, x, c), order, TopAfter(h, top, x, c))
  {
    RotateLinksX(h, order, top, x, c);
    RotateLinksY(h, order, top, x, c);
    forall n | n in h && n != x && n != h[x].parent
      ensures Linked(Rotate(h, x, c), order, TopAfter(h, top, x, c), n)
    {
      RotateLinksOther(h, order, top, x, c, n);
    }
    assert Linked(h, order, top, x);
  }

  // The place x gets when it becomes child c of p.
  ghost function PlaceUnder<K, V>(h: Shape<K, V>, p: Node<K, V>, c: nat): int
    requires p in h
  {
    if c == 0 then h[p].pos else h[p].pos + 1
  }

  ghost predicate CanAttach<K, V>(h: Shape<K, V>, p: Node<K, V>, c: nat, x: Node<K, V>) {
    p in h && x !in h && c <= 1 && h[p].Child(c) == null
  }

  // A place, an end of a range and a cell after a leaf has come in at place i on side c.
  function Later(place: int, i: int): int {
    if place >= i then place + 1 else place
  }

  function LaterEnd(end: int, i: int, c: nat): int {
    if end > i || (end == i && c == 1) then end + 1 else end
  }

  ghost function LaterCell<K, V>(cell: Cell<K, V>, i: int, c: nat): Cell<K, V> {
    cell.(lo := LaterEnd(cell.lo, i, c), pos := Later(cell.pos, i), hi := LaterEnd(cell.hi, i, c))
  }

  ghost function HangUnder<K, V>(cell: Cell<K, V>, c: nat, x: Node<K, V>): Cell<K, V> {
    if c == 0 then cell.(left := x) else cell.(right := x)
  }

  /** Hangs the new leaf x under p on side c; every later place moves up by one. */
  ghost function Attach<K, V>(h: Shape<K, V>, p: Node<K, V>, c: nat, x: Node<K, V>): (h': Shape<K, V>)
    requires CanAttach(h, p, c, x)
    ensures h'.Keys == h.Keys + {x}
  {
    var i := PlaceUnder(h, p, c);
    map n | n in h.Keys + {x} ::
      if n == x then Cell(p, null, null, i, i, i + 1)
      else if n == p then HangUnder(LaterCell(h[n], i, c), c, x)
      else LaterCell(h[n], i, c)
  }

  /** Removes the leaf x; every later place moves down by one. */
  ghost function Detach<K, V>(h: Shape<K, V>, x: Node<K, V>): (h': Shape<K, V>)
    requires x in h
    ensures h'.Keys == h.Keys - {x}
  {
    var i := h[x].pos;
    (map n | n in h ::
       var Cell(parent, left, right, lo, pos, hi) := h[n];
       Cell(parent,
            if left == x then null else left,
            if right == x then null else right,
            if lo > i then lo - 1 else lo,
            if pos > i then pos - 1 else pos,
            if hi > i then hi - 1 else hi)) - {x}
  }

  function InsertAt<T>(s: seq<T>, i: int, x: T): seq<T>
    requires 0 <= i <= |s|
  {
    s[..i] + [x] + s[i..]
  }

  function RemoveAt<T>(s: seq<T>, i: int): seq<T>
    requires 0 <= i < |s|
  {
    s[..i] + s[i + 1..]
  }

  lemma InsertMoves<T>(s: seq<T>, i: int, x: T, k: int)
    requires 0 <= i <= |s| && 0 <= k < |s|
    ensures |InsertAt(s, i, x)| == |s| + 1 && InsertAt(s, i, x)[Later(k, i)] == s[k]
  {
  }

  lemma AttachedCell<K, V>(h: Shape<K, V>, p: Node<K, V>, c: nat, x: Node<K, V>, n: Node<K, V>)
    requires CanAttach(h, p, c, x) && n in h
    ensures var cell := LaterCell(h[n], PlaceUnder(h, p, c), c);
      Attach(h, p, c, x)[n] == if n == p then HangUnder(cell, c, x) else cell
  {
  }

  lemma {:induction false} AttachLinked<K, V>(
    h: Shape<K, V>, order: seq<Node<K, V>>, top: Node?<K, V>, p: Node<K, V>, c: nat, x: Node<K, V>, n: Node<K, V>)
    requires Links(h, order, top) && CanAttach(h, p, c, x) && n in h && n != p
    requires 0 <= PlaceUnder(h, p, c) <= |order|
    ensures Linked(Attach(h, p, c, x), InsertAt(order, PlaceUnder(h, p, c), x), top, n)
  {
    assert Linked(h, order, top, n) && Linked(h, order, top, p);
    assert order[h[n].pos] == n && order[h[p].pos] == p;
    var Cell(parent, left, right, lo, pos, hi) := h[n];
    hide Links, Attach, InsertAt;
    InsertMoves(order, PlaceUnder(h, p, c), x, pos);
    AttachedCell(h, p, c, x, n);
    if left != null {
      AttachedCell(h, p, c, x, left);
    }
    if right != null {
      AttachedCell(h, p, c, x, right);
    }
    if parent != null {
      AttachedCell(h, p, c, x, parent);
    }
  }

  lemma {:induction false} AttachLinkedP<K, V>(
    h: Shape<K, V>, order: seq<Node<K, V>>, top: Node?<K, V>, p: Node<K, V>, c: nat, x: Node<K, V>)
    requires Links(h, order, top) && CanAttach(h, p, c, x)
    requires 0 <= PlaceUnder(h, p, c) <= |order|
    ensures Linked(Attach(h, p, c, x), InsertAt(order, PlaceUnder(h, p, c), x), top, p)
  {
    assert Linked(h, order, top, p);
    var Cell(parent, left, right, lo, pos, hi) := h[p];
    hide Links, Attach, InsertAt;
    InsertMoves(order, PlaceUnder(h, p, c), x, pos);
    AttachedCell(h, p, c, x, p);
    AttachedLeaf(h, p, c, x);
    var other := h[p].Child(1 - c);
    if other != null {
      AttachedCell(h, p, c, x, other);
    }
    if parent != null {
      AttachedCell(h, p, c, x, parent);
    }
  }

  lemma AttachedLeaf<K, V>(h: Shape<K, V>, p: Node<K, V>, c: nat, x: Node<K, V>)
    requires CanAttach(h, p, c, x)
    ensures var i := PlaceUnder(h, p, c); Attach(h, p, c, x)[x] == Cell(p, null, null, i, i, i + 1)
  {
  }

  lemma {:induction false} AttachLinkedX<K, V>(
    h: Shape<K, V>, order: seq<Node<K, V>>, top: Node?<K, V>, p: Node<K, V>, c: nat, x: Node<K, V>)
    requires Links(h, order, top) && CanAttach(h, p, c, x)
    requires 0 <= PlaceUnder(h, p, c) <= |order|
    ensures Linked(Attach(h, p, c, x), InsertAt(order, PlaceUnder(h, p, c), x), top, x)
  {
  }

  lemma {:induction false} AttachPlaces<K, V>(
    h: Shape<K, V>, order: seq<Node<K, V>>, top: Node?<K, V>, p: Node<K, V>, c: nat, x: Node<K, V>, j: int)
    requires Links(h, order, top) && CanAttach(h, p, c, x)
    requires 0 <= PlaceUnder(h, p, c) <= |order| && 0 <= j <= |order|
    ensures var n := InsertAt(order, PlaceUnder(h, p, c), x)[j];
      n in Attach(h, p, c, x) && Attach(h, p, c, x)[n].pos == j
  {
  }

  /** Attaching a leaf inserts it into the in-order sequence and changes nothing else. */
  lemma {:induction false} AttachKeepsLinks<K, V>(
    h: Shape<K, V>, order: seq<Node<K, V>>, top: Node?<K, V>, p: Node<K, V>, c: nat, x: Node<K, V>)
    requires Links(h, order, top) && CanAttach(h, p, c, x)
    ensures 0 <= PlaceUnder(h, p, c) <= |order|
    ensures Links(Attach(h, p, c, x), InsertAt(order, PlaceUnder(h, p, c), x), top)
  {
    assert Linked(h, order, top, p);
    var h', order' := Attach(h, p, c, x), InsertAt(order, PlaceUnder(h, p, c), x);
    forall n | n in h' ensures Linked(h', order', top, n) {
      if n == x {
        AttachLinkedX(h, order, top, p, c, x);
      } else if n == p {
        AttachLinkedP(h, order, top, p, c, x);
      } else {
        AttachLinked(h, order, top, p, c, x, n);
      }
    }
    forall j | 0 <= j < |order'| ensures order'[j] in h' && h'[order'[j]].pos == j {
      AttachPlaces(h, order, top, p, c, x, j);
    }
  }

  lemma {:induction false} DetachLinked<K, V>(
    h: Shape<K, V>, order: seq<Node<K, V>>, top: Node?<K, V>, x: Node<K, V>, n: Node<K, V>)
    requires Links(h, order, top) && x in h && h[x].left == null && h[x].right == null && h[x].parent != null
    requires n in h && n != x
    requires 0 <= h[x].pos < |order|
    ensures Linked(Detach(h, x), RemoveAt(order, h[x].pos), top, n)
  {
    assert Linked(h, order, top, n) && Linked(h, order, top, x) && Linked(h, order, top, h[x].parent);
    assert order[h[n].pos] == n && order[h[h[x].parent].pos] == h[x].parent;
  }

  lemma {:induction false} DetachPlaces<K, V>(
    h: Shape<K, V>, order: seq<Node<K, V>>, top: Node?<K, V>, x: Node<K, V>, j: int)
    requires Links(h, order, top) && x in h && 0 <= h[x].pos < |order| && order[h[x].pos] == x && 0 <= j < |order| - 1
    ensures var n := RemoveAt(order, h[x].pos)[j];
      n in Detach(h, x) && Detach(h, x)[n].pos == j
  {
  }

  /** Detaching a leaf takes it out of the in-order sequence and changes nothing else. */
  lemma {:induction false} DetachKeepsLinks<K, V>(
    h: Shape<K, V>, order: seq<Node<K, V>>, top: Node?<K, V>, x: Node<K, V>)
    requires Links(h, order, top) && x in h && h[x].left == null && h[x].right == null && h[x].parent != null
    ensures 0 <= h[x].pos < |order|
    ensures Links(Detach(h, x), RemoveAt(order, h[x].pos), top)
  {
    assert Linked(h, order, top, x) && Linked(h, order, top, h[x].parent);
    var h', order' := Detach(h, x), RemoveAt(order, h[x].pos);
    forall n | n in h' ensures Linked(h', order', top, n) {
      DetachLinked(h, order, top, x, n);
    }
    forall j | 0 <= j < |order'| ensures order'[j] in h' && h'[order'[j]].pos == j {
      DetachPlaces(h, order, top, x, j);
    }
  }

  // x is a child of y, and y the child of z on side 1 - c.
  ghost predicate Grandchild<K, V>(h: Shape<K, V>, x: Node<K, V>, y: Node<K, V>, z: Node<K, V>, c: nat) {
    && x in h && y in h && z in h && h[x].parent == y && h[y].parent == z && c <= 1
    && h[z].Child(1 - c) == y
  }

  lemma {:induction false} GrandchildSides<K, V>(
    h: Shape<K, V>, order: seq<Node<K, V>>, top: Node?<K, V>, x: Node<K, V>, y: Node<K, V>, z: Node<K, V>, c: nat)
    requires Links(h, order, top) && Grandchild(h, x, y, z, c)
    ensures x != y && y != z && x != z
    ensures h[z].Child(c) != y && h[x].left != z && h[x].right != z
    ensures h[y].Child(c) == x || h[y].Child(1 - c) == x
    ensures h[x].Covers(h[x].pos)
  {
    assert Linked(h, order, top, x) && Linked(h, order, top, y) && Linked(h, order, top, z);
  }

  // In h' node x stands where z stood in h, and all in-order places are the same.
  ghost predicate TookPlace<K, V>(
    h: Shape<K, V>, h': Shape<K, V>, top: Node?<K, V>, top': Node?<K, V>, x: Node<K, V>, z: Node<K, V>)
  {
    && h'.Keys == h.Keys && x in h && z in h
    && (forall n {:trigger h'[n]} | n in h :: h'[n].pos == h[n].pos)
    && h'[x].parent == h[z].parent && h'[x].lo == h[z].lo && h'[x].hi == h[z].hi
    && top' == (if h[z].parent == null then x else top)
  }

  lemma {:induction false} RotateTakesPlace<K, V>(
    h: Shape<K, V>, order: seq<Node<K, V>>, top: Node?<K, V>, x: Node<K, V>, c: nat)
    requires Links(h, order, top) && CanRotate(h, x, c)
    ensures TookPlace(h, Rotate(h, x, c), top, TopAfter(h, top, x, c), x, h[x].parent)
  {
  }

  /** Zig-zag: x is on the inner side, and is rotated twice. */
  lemma {:induction false} ZigZag<K, V>(
    h: Shape<K, V>, order: seq<Node<K, V>>, top: Node?<K, V>, x: Node<K, V>, y: Node<K, V>, z: Node<K, V>, c: nat)
    requires Links(h, order, top) && Grandchild(h, x, y, z, c) && h[y].Child(c) == x
    ensures CanRotate(h, x, 1 - c)
    ensures var h1 := Rotate(h, x, 1 - c);
      CanRotate(h1, x, c) && h1[x].parent == z && h1[x].pos == h[x].pos && h1[x].Covers(h[x].pos) &&
      TookPlace(h, Rotate(h1, x, c), top, TopAfter(h1, TopAfter(h, top, x, 1 - c), x, c), x, z)
  {
    GrandchildSides(h, order, top, x, y, z, c);
    RotateKeepsLinks(h, order, top, x, 1 - c);
    RotateTakesPlace(h, order, top, x, 1 - c);
    var h1 := Rotate(h, x, 1 - c);
    assert Linked(h1, order, TopAfter(h, top, x, 1 - c), x);
    RotateTakesPlace(h1, order, TopAfter(h, top, x, 1 - c), x, c);
  }

  /** Zig-zig: x is on the outer side, and y is rotated before x. */
  lemma {:induction false} ZigZig<K, V>(
    h: Shape<K, V>, order: seq<Node<K, V>>, top: Node?<K, V>, x: Node<K, V>, y: Node<K, V>, z: Node<K, V>, c: nat)
    requires Links(h, order, top) && Grandchild(h, x, y, z, c) && h[y].Child(1 - c) == x
    ensures CanRotate(h, y, c) && h[y].Covers(h[x].pos)
    ensures if c == 0 then h[y].pos <= h[x].pos else h[x].pos <= h[y].pos
    ensures var h1 := Rotate(h, y, c);
      CanRotate(h1, x, c) && h1[x].parent == y && h1[x].pos == h[x].pos && h1[x].Covers(h[x].pos) &&
      TookPlace(h, Rotate(h1, x, c), top, TopAfter(h1, TopAfter(h, top, y, c), x, c), x, z)
  {
    GrandchildSides(h, order, top, x, y, z, c);
    assert Linked(h, order, top, x) && Linked(h, order, top, y);
    RotateKeepsLinks(h, order, top, y, c);
    RotateTakesPlace(h, order, top, y, c);
    var h1 := Rotate(h, y, c);
    RotateTakesPlace(h1, order, TopAfter(h, top, y, c), x, c);
  }

  // What the splay loop knows about x below its goal.
  lemma {:induction false} SplayRound<K, V>(
    h: Shape<K, V>, order: seq<Node<K, V>>, top: Node?<K, V>, x: Node<K, V>, goal: Node?<K, V>)
    requires Links(h, order, top) && x in h && h[x].parent != goal && (goal != null ==> goal == top && x != goal)
    ensures h[x].Covers(h[x].pos) && 0 <= h[x].lo && h[x].hi <= |order|
    ensures var y := h[x].parent;
      && y != null && y in h && y != x && CanRotate(h, x, if h[y].left == x then 1 else 0)
      && (h[y].parent != goal ==>
            var z := h[y].parent;
            && z != null && z in h && h[z].hi - h[z].lo > h[x].hi - h[x].lo
            && (goal != null ==> h[z].parent != null)
            && var c := if h[z].left == y then 1 else 0;
            && Grandchild(h, x, y, z, c)
            && (h[y].Child(c) == x || h[y].Child(1 - c) == x))
  {
    assert Linked(h, order, top, x);
    var y := h[x].parent;
    assert Linked(h, order, top, y);
    if h[y].parent != null {
      assert Linked(h, order, top, h[y].parent);
    }
  }

  lemma {:induction false} NarrowIsLeaf<K, V>(h: Shape<K, V>, order: seq<Node<K, V>>, top: Node?<K, V>, x: Node<K, V>)
    requires Links(h, order, top) && x in h && h[x].hi - h[x].lo == 1
    ensures h[x].left == null && h[x].right == null
  {
    assert Linked(h, order, top, x);
    assert h[x].left != null ==> Linked(h, order, top, h[x].left);
    assert h[x].right != null ==> Linked(h, order, top, h[x].right);
  }

  /**
   Once the successor is the root and the predecessor its child, x is the leaf
   between them, and only these three ranges cover its place.
   */
  lemma {:induction false} BetweenIsLeaf<K, V>(
    h: Shape<K, V>, order: seq<Node<K, V>>, succ: Node<K, V>, prev: Node<K, V>, x: Node<K, V>)
    requires Links(h, order, succ) && x in h && succ in h && prev in h
    requires h[prev].pos + 1 == h[x].pos == h[succ].pos - 1 && h[prev].parent == succ
    ensures h[succ].left == prev && h[prev].right == x
    ensures h[x].left == null && h[x].right == null && h[x].parent == prev
  {
    assert Linked(h, order, succ, x) && Linked(h, order, succ, succ) && Linked(h, order, succ, prev);
    var r := h[prev].right;
    assert r != null && Linked(h, order, succ, r);
    NarrowIsLeaf(h, order, succ, x);
  }

  lemma {:induction false} BetweenCovers<K, V>(
    h: Shape<K, V>, order: seq<Node<K, V>>, succ: Node<K, V>, prev: Node<K, V>, x: Node<K, V>, n: Node<K, V>)
    requires Links(h, order, succ) && x in h && succ in h && prev in h && n in h
    requires h[prev].pos + 1 == h[x].pos == h[succ].pos - 1 && h[prev].parent == succ && h[succ].left == prev
    ensures h[n].Covers(h[x].pos) <==> n == x || n == prev || n == succ
  {
    assert Linked(h, order, succ, n) && Linked(h, order, succ, x);
    assert Linked(h, order, succ, succ) && Linked(h, order, succ, prev);
    if n != succ && n != prev {
      TopExcludes(h, order, succ, n);
      LeftOfTopExcludes(h, order, succ, prev, n);
    }
  }

  /** With no successor, the predecessor becomes the root and x its right leaf. */
  lemma {:induction false} LastIsLeaf<K, V>(
    h: Shape<K, V>, order: seq<Node<K, V>>, prev: Node<K, V>, x: Node<K, V>)
    requires Links(h, order, prev) && x in h && prev in h
    requires h[prev].pos + 1 == h[x].pos == |order| - 1
    ensures h[prev].right == x && h[x].left == null && h[x].right == null && h[x].parent == prev
    ensures forall n | n in h :: h[n].Covers(h[x].pos) <==> n == x || n == prev
  {
    assert Linked(h, order, prev, x) && Linked(h, order, prev, prev);
    var r := h[prev].right;
    assert r != null && Linked(h, order, prev, r);
    NarrowIsLeaf(h, order, prev, x);
    forall n | n in h ensures h[n].Covers(h[x].pos) <==> n == x || n == prev {
      assert Linked(h, order, prev, n);
      if n != prev {
        TopExcludes(h, order, prev, n);
      }
    }
  }

  /** With no predecessor, the successor becomes the root and x its left leaf. */
  lemma {:induction false} FirstIsLeaf<K, V>(
    h: Shape<K, V>, order: seq<Node<K, V>>, succ: Node<K, V>, x: Node<K, V>)
    requires Links(h, order, succ) && x in h && succ in h
    requires h[x].pos == 0 && h[succ].pos == 1
    ensures h[succ].left == x && h[x].left == null && h[x].right == null && h[x].parent == succ
    ensures forall n | n in h :: h[n].Covers(0) <==> n == x || n == succ
  {
    assert Linked(h, order, succ, x) && Linked(h, order, succ, succ);
    var l := h[succ].left;
    assert l != null && Linked(h, order, succ, l);
    NarrowIsLeaf(h, order, succ, x);
    forall n | n in h ensures h[n].Covers(0) <==> n == x || n == succ {
      assert Linked(h, order, succ, n);
      if n != succ {
        TopExcludes(h, order, succ, n);
      }
    }
  }
}
