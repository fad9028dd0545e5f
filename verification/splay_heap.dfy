/**
 The splay tree operations on the heap. Each carries the tree's shape along as a
 ghost value `h` and keeps the nodes' pointers in agreement with it.
 */
module SplayHeap {
  import opened SplayShape

  // The pointers of every node are those recorded in h.
  ghost predicate Agrees<K, V>(h: Shape<K, V>)
    reads h.Keys
  {
    forall n {:trigger h[n]} | n in h :: n.parent == h[n].parent && n.left == h[n].left && n.right == h[n].right
  }

  // The cached size of n is the size of its subtree. A missing node counts as exact.
  ghost predicate Exact<K, V>(h: Shape<K, V>, n: Node?<K, V>)
    requires n != null ==> n in h
    reads n
  {
    n != null ==> n.size == h[n].hi - h[n].lo
  }

  function NodeSize<K, V>(x: Node?<K, V>): nat
    reads x
  {
    if x == null then 0 else x.size
  }

  method UpdateNodeSize<K, V>(x: Node<K, V>, ghost h: Shape<K, V>, ghost order: seq<Node<K, V>>, ghost top: Node?<K, V>)
    requires x in h && Agrees(h) && Links(h, order, top)
    requires x.left in h || x.left == null
    requires x.right in h || x.right == null
    requires Exact(h, x.left) && Exact(h, x.right)
    modifies x`size
    ensures Exact(h, x)
  {
    assert Linked(h, order, top, x);
    x.size := 1 + NodeSize(x.left) + NodeSize(x.right);
  }

  // The pointer part of a rotation of x over y; b is the child that changes sides, g the grandparent.
  method Relink<K, V>(
      x: Node<K, V>, c: nat, y: Node<K, V>, b: Node?<K, V>, g: Node?<K, V>, ghost nodes: set<Node<K, V>>)
    requires x in nodes && y in nodes && (b != null ==> b in nodes) && (g != null ==> g in nodes)
    requires y == x.parent && b == x.Child(c) && g == y.parent
    requires x != y && b != x && b != y && g != x && g != y
    modifies nodes`parent, nodes`left, nodes`right
    ensures forall n | n in nodes ::
      n.parent == if n == x then g else if n == y then x else if n == b then y else old(n.parent)
    ensures forall n | n in nodes ::
      n.left == if n == x then (if c == 0 then y else old(x.left))
                else if n == y then (if c == 0 then old(y.left) else b)
                else if n == g && old(g.right) != y then x else old(n.left)
    ensures forall n | n in nodes ::
      n.right == if n == x then (if c == 0 then old(x.right) else y)
                 else if n == y then (if c == 0 then b else old(y.right))
                 else if n == g && old(g.right) == y then x else old(n.right)
  {
    y.left, y.right := if c == 0 then y.left else x.right, if c == 0 then x.left else y.right;
    if b != null {
      b.parent := y;
    }
    x.parent := y.parent;
    if g != null {
      if y == g.right {
        g.right := x;
      } else {
        g.left := x;
      }
    }
    y.parent := x;
    x.left, x.right := if c == 0 then y else x.left, if c == 0 then x.right else y;
  }

  // Relink carries out Rotate.
  method RotatePointers<K, V>(
      x: Node<K, V>, c: nat, y: Node<K, V>, b: Node?<K, V>, g: Node?<K, V>, ghost h: Shape<K, V>)
    requires Agrees(h) && CanRotate(h, x, c) && y == h[x].parent && b == h[x].Child(c) && g == h[y].parent
    requires x != y && b != x && b != y && g != x && g != y
    requires (b != null ==> b in h) && (g != null ==> g in h)
    modifies h.Keys`parent, h.Keys`left, h.Keys`right
    ensures Agrees(Rotate(h, x, c))
  {
    assert x.parent == h[x].parent && x.Child(c) == h[x].Child(c) && y.parent == h[y].parent;
    Relink(x, c, y, b, g, h.Keys);
  }

  // A rotation whose moved subtrees have exact sizes leaves the former parent exact.
  method RotateRefresh<K, V>(
    x: Node<K, V>, c: nat, ghost h: Shape<K, V>, ghost order: seq<Node<K, V>>, ghost top: Node?<K, V>)
    requires Agrees(h) && Links(h, order, top) && CanRotate(h, x, c)
    requires (h[x].Child(c) != null ==> h[x].Child(c) in h) && Exact(h, h[x].Child(c))
    requires (h[h[x].parent].Child(c) != null ==> h[h[x].parent].Child(c) in h) && Exact(h, h[h[x].parent].Child(c))
    modifies h.Keys
    ensures Agrees(Rotate(h, x, c)) && Links(Rotate(h, x, c), order, TopAfter(h, top, x, c))
    ensures Exact(Rotate(h, x, c), h[x].parent)
    ensures forall n | n in h && n != h[x].parent :: n.size == old(n.size)
  {
    RotateKeepsLinks(h, order, top, x, c);
    RotateNeighbours(h, order, top, x, c);
    assert x.parent == h[x].parent && x.Child(c) == h[x].Child(c);
    var y := x.parent;
    assert y.parent == h[y].parent;
    RotatePointers(x, c, y, x.Child(c), y.parent, h);
    UpdateNodeSize(y, Rotate(h, x, c), order, TopAfter(h, top, x, c));
  }

  /**
   Sizes while x is being splayed: every node other than x and w is exact or, when
   `free`, an ancestor of x.
   */
  ghost predicate SizesExcept<K, V>(h: Shape<K, V>, x: Node<K, V>, w: Node<K, V>, free: bool)
    requires x in h
    reads h.Keys
  {
    forall n {:trigger h[n]} | n in h && n != x && n != w :: Exact(h, n) || (free && h[n].Covers(h[x].pos))
  }

  // A rotation leaves every place, and every range but two, as it was.
  lemma RotatedSpan<K, V>(h: Shape<K, V>, r: Node<K, V>, c: nat, n: Node<K, V>)
    requires CanRotate(h, r, c) && n in h
    ensures n in Rotate(h, r, c) && Rotate(h, r, c)[n].pos == h[n].pos
    ensures n != r && n != h[r].parent ==> Rotate(h, r, c)[n].lo == h[n].lo && Rotate(h, r, c)[n].hi == h[n].hi
  {
  }

  /** Moves r above its parent. The former parent's size is refreshed, that of r is not. */
  method RotateNode<K, V>(
    r: Node<K, V>, c: nat, ghost x: Node<K, V>,
    ghost h: Shape<K, V>, ghost order: seq<Node<K, V>>, ghost top: Node?<K, V>, ghost free: bool)
    requires Agrees(h) && Links(h, order, top) && CanRotate(h, r, c) && x in h
    requires h[r].Covers(h[x].pos) && (if c == 0 then h[r].pos <= h[x].pos else h[x].pos <= h[r].pos)
    requires SizesExcept(h, x, h[r].parent, free)
    modifies h.Keys
    ensures Agrees(Rotate(h, r, c)) && Links(Rotate(h, r, c), order, TopAfter(h, top, r, c))
    ensures SizesExcept(Rotate(h, r, c), x, r, free)
  {
    assert Linked(h, order, top, x);
    hide Links, Rotate, Agrees;
    RotateClears(h, order, top, r, c, h[x].pos);
    ghost var y, h' := h[r].parent, Rotate(h, r, c);
    RotatedSpan(h, r, c, x);
    RotateRefresh(r, c, h, order, top);
    forall n | n in h' && n != x && n != r ensures Exact(h', n) || (free && h'[n].Covers(h'[x].pos)) {
      RotatedSpan(h, r, c, n);
      assert h[n] == h[n];
    }
  }

  method ZigZagStep<K, V>(
    x: Node<K, V>, ghost y: Node<K, V>, ghost z: Node<K, V>, c: nat,
    ghost h: Shape<K, V>, ghost order: seq<Node<K, V>>, ghost top: Node?<K, V>, ghost free: bool)
    returns (ghost h': Shape<K, V>, ghost top': Node?<K, V>)
    requires Agrees(h) && Links(h, order, top) && Grandchild(h, x, y, z, c) && h[y].Child(c) == x
    requires SizesExcept(h, x, x, free)
    modifies h.Keys
    ensures TookPlace(h, h', top, top', x, z)
    ensures Agrees(h') && Links(h', order, top')
    ensures SizesExcept(h', x, x, free)
  {
    GrandchildSides(h, order, top, x, y, z, c);
    ZigZag(h, order, top, x, y, z, c);
    RotateNode(x, 1 - c, x, h, order, top, free);
    ghost var h1, top1 := Rotate(h, x, 1 - c), TopAfter(h, top, x, 1 - c);
    RotateNode(x, c, x, h1, order, top1, free);
    h', top' := Rotate(h1, x, c), TopAfter(h1, top1, x, c);
  }

  method ZigZigStep<K, V>(
    x: Node<K, V>, y: Node<K, V>, ghost z: Node<K, V>, c: nat,
    ghost h: Shape<K, V>, ghost order: seq<Node<K, V>>, ghost top: Node?<K, V>, ghost free: bool)
    returns (ghost h': Shape<K, V>, ghost top': Node?<K, V>)
    requires Agrees(h) && Links(h, order, top) && Grandchild(h, x, y, z, c) && h[y].Child(1 - c) == x
    requires SizesExcept(h, x, x, free)
    modifies h.Keys
    ensures TookPlace(h, h', top, top', x, z)
    ensures Agrees(h') && Links(h', order, top')
    ensures SizesExcept(h', x, x, free)
  {
    GrandchildSides(h, order, top, x, y, z, c);
    ZigZig(h, order, top, x, y, z, c);
    RotateNode(y, c, x, h, order, top, free);
    ghost var h1, top1 := Rotate(h, y, c), TopAfter(h, top, y, c);
    RotateNode(x, c, x, h1, order, top1, free);
    h', top' := Rotate(h1, x, c), TopAfter(h1, top1, x, c);
  }

  // The loop of SplayNode.
  method SplayUp<K, V>(
    x: Node<K, V>, goal: Node?<K, V>, ghost h: Shape<K, V>, ghost order: seq<Node<K, V>>, ghost top: Node?<K, V>)
    returns (ghost h': Shape<K, V>, ghost top': Node?<K, V>)
    requires Agrees(h) && Links(h, order, top) && x in h
    requires goal != null ==> goal == top && x != goal
    requires SizesExcept(h, x, x, goal == null)
    modifies h.Keys
    ensures h'.Keys == h.Keys && (forall n {:trigger h'[n]} | n in h :: h'[n].pos == h[n].pos)
    ensures Agrees(h') && Links(h', order, top')
    ensures h'[x].parent == goal
    ensures goal != null ==> goal == top'
    ensures SizesExcept(h', x, x, goal == null)
  {
    h', top' := h, top;
    while x.parent != goal
      invariant h'.Keys == h.Keys && (forall n {:trigger h'[n]} | n in h :: h'[n].pos == h[n].pos)
      invariant Agrees(h') && Links(h', order, top')
      invariant goal != null ==> goal == top' && x != goal
      invariant SizesExcept(h', x, x, goal == null)
      decreases |order| - (h'[x].hi - h'[x].lo)
    {
      SplayRound(h', order, top', x, goal);
      var y := x.parent;
      assert h'[x].parent == y;
      assert h'[y].parent == y.parent && h'[y].left == y.left && h'[y].right == y.right;
      if y.parent == goal {
        var c := if x == y.left then 1 else 0;
        RotateTakesPlace(h', order, top', x, c);
        RotateNode(x, c, x, h', order, top', goal == null);
        h', top' := Rotate(h', x, c), TopAfter(h', top', x, c);
        break;
      }
      var z := y.parent;
      assert h'[z].left == z.left;
      var c := if y == z.left then 1 else 0;
      if x == y.Child(c) {
        h', top' := ZigZagStep(x, y, z, c, h', order, top', goal == null);
      } else {
        h', top' := ZigZigStep(x, y, z, c, h', order, top', goal == null);
      }
    }
  }

  /**
   Moves x up until its parent is `goal` (null: until it is the root) and then
   refreshes its size. No in-order place changes. When x goes to the root, stale
   sizes on its path are allowed at the start: all of them have been refreshed at
   the end. The only non-null goal is the root.
   */
  method SplayNode<K, V>(
    x: Node<K, V>, goal: Node?<K, V>, ghost h: Shape<K, V>, ghost order: seq<Node<K, V>>, ghost top: Node?<K, V>)
    returns (ghost h': Shape<K, V>)
    requires Agrees(h) && Links(h, order, top) && x in h
    requires goal != null ==> goal == top && x != goal
    requires SizesExcept(h, x, x, goal == null)
    modifies h.Keys
    ensures h'.Keys == h.Keys && (forall n {:trigger h'[n]} | n in h :: h'[n].pos == h[n].pos)
    ensures Agrees(h') && Links(h', order, if goal == null then x else top)
    ensures h'[x].parent == goal
    ensures forall n {:trigger h'[n]} | n in h' :: Exact(h', n)
  {
    ghost var top';
    h', top' := SplayUp(x, goal, h, order, top);
    assert Linked(h', order, top', x);
    assert x.left == h'[x].left && x.right == h'[x].right;
    UpdateNodeSize(x, h', order, top');
    forall n | n in h' ensures Exact(h', n) {
      if n != x && goal == null {
        TopExcludes(h', order, top', n);
      }
    }
  }

  method GetMinNode<K, V>(start: Node<K, V>, ghost h: Shape<K, V>, ghost order: seq<Node<K, V>>, ghost top: Node?<K, V>)
    returns (x: Node<K, V>)
    requires Agrees(h) && Links(h, order, top) && start in h
    ensures x in h && h[x].pos == h[start].lo
  {
    x := start;
    assert Linked(h, order, top, x);
    while x.left != null
      invariant x in h && h[x].lo == h[start].lo && Linked(h, order, top, x)
      decreases h[x].hi - h[x].lo
    {
      assert h[x].left == x.left;
      x := x.left;
      assert Linked(h, order, top, x);
    }
    assert h[x].left == x.left;
  }

  method GetMaxNode<K, V>(start: Node<K, V>, ghost h: Shape<K, V>, ghost order: seq<Node<K, V>>, ghost top: Node?<K, V>)
    returns (x: Node<K, V>)
    requires Agrees(h) && Links(h, order, top) && start in h
    ensures x in h && h[x].pos == h[start].hi - 1
  {
    x := start;
    assert Linked(h, order, top, x);
    while x.right != null
      invariant x in h && h[x].hi == h[start].hi && Linked(h, order, top, x)
      decreases h[x].hi - h[x].lo
    {
      assert h[x].right == x.right;
      x := x.right;
      assert Linked(h, order, top, x);
    }
    assert h[x].right == x.right;
  }

  // Cuts the right leaf x off prev, below the root succ if there is one.
  method CutRight<K, V>(
    prev: Node<K, V>, succ: Node?<K, V>, ghost x: Node<K, V>, ghost h: Shape<K, V>, ghost order: seq<Node<K, V>>,
    ghost top: Node<K, V>)
    requires Agrees(h) && Links(h, order, top) && x in h && prev in h && (succ != null ==> succ in h)
    requires h[prev].right == x && h[x].left == null && h[x].right == null && h[x].parent == prev
    requires prev != succ && prev != x && succ != x
    requires forall n {:trigger h[n]} | n in h :: Exact(h, n)
    requires forall n {:trigger h[n]} | n in h :: h[n].Covers(h[x].pos) <==> n == x || n == prev || n == succ
    requires 0 < prev.size && (succ != null ==> 0 < succ.size)
    modifies h.Keys - {x}
    ensures Agrees(Detach(h, x))
    ensures forall n {:trigger Detach(h, x)[n]} | n in Detach(h, x) :: Exact(Detach(h, x), n)
  {
    ghost var h' := Detach(h, x);
    prev.right := null;
    prev.size := prev.size - 1;
    if succ != null {
      succ.size := succ.size - 1;
    }
    forall n | n in h'
      ensures n.parent == h'[n].parent && n.left == h'[n].left && n.right == h'[n].right && Exact(h', n)
    {
      assert Linked(h, order, top, n) && h[n] == h[n];
    }
  }

  // Cuts the left leaf x off the root succ, whose size is left one too large.
  method CutLeft<K, V>(succ: Node<K, V>, ghost x: Node<K, V>, ghost h: Shape<K, V>, ghost order: seq<Node<K, V>>)
    requires Agrees(h) && Links(h, order, succ) && x in h && succ in h
    requires h[succ].left == x && h[x].left == null && h[x].right == null && h[x].parent == succ && succ != x
    requires forall n {:trigger h[n]} | n in h :: Exact(h, n)
    requires forall n {:trigger h[n]} | n in h :: h[n].Covers(h[x].pos) <==> n == x || n == succ
    modifies h.Keys - {x}
    ensures Agrees(Detach(h, x)) && succ.size == old(succ.size)
    ensures Sized(Detach(h, x), succ)
  {
    ghost var h' := Detach(h, x);
    succ.left := null;
    forall n | n in h'
      ensures n.parent == h'[n].parent && n.left == h'[n].left && n.right == h'[n].right
      ensures n != succ ==> Exact(h', n)
    {
      assert Linked(h, order, succ, n) && h[n] == h[n];
    }
  }

  /** Every cached size is exact, except possibly the root's. */
  ghost predicate Sized<K, V>(h: Shape<K, V>, top: Node?<K, V>)
    reads h.Keys
  {
    forall n {:trigger h[n]} | n in h && n != top :: Exact(h, n)
  }

  // A stale root does not disturb a splay to the root: every path goes through it.
  lemma SizedCanSplay<K, V>(h: Shape<K, V>, order: seq<Node<K, V>>, top: Node?<K, V>, x: Node<K, V>)
    requires Links(h, order, top) && Sized(h, top) && x in h
    ensures SizesExcept(h, x, x, true)
  {
    assert Linked(h, order, top, x);
    if top != null && top in h {
      assert Linked(h, order, top, top);
    }
  }

  /**
   The heap holds the tree h with in-order sequence `order`. The root's cached
   size may be one too large; all other sizes are exact.
   */
  ghost predicate Tree<K, V>(h: Shape<K, V>, order: seq<Node<K, V>>, root: Node?<K, V>)
    reads h.Keys
  {
    && Agrees(h) && Links(h, order, root) && Sized(h, root)
    && (root != null ==> root in h && |order| <= root.size <= |order| + 1)
  }

  // All sizes are exact, the root's too.
  ghost predicate AllExact<K, V>(h: Shape<K, V>)
    reads h.Keys
  {
    forall n {:trigger h[n]} | n in h :: Exact(h, n)
  }

  // Only links and ranges may have changed from h to h', not the nodes and their places.
  ghost predicate SamePlaces<K, V>(h: Shape<K, V>, h': Shape<K, V>) {
    h'.Keys == h.Keys && forall n {:trigger h'[n]} | n in h :: h'[n].pos == h[n].pos
  }

  // Splays x, if there is one, up to goal and keeps track of the root.
  method Splay<K, V>(
    x: Node?<K, V>, goal: Node?<K, V>, root: Node?<K, V>, ghost h: Shape<K, V>, ghost order: seq<Node<K, V>>)
    returns (root': Node?<K, V>, ghost h': Shape<K, V>)
    requires Tree(h, order, root) && (x != null ==> x in h)
    requires goal != null && x != null ==> goal == root && x != goal && AllExact(h)
    modifies h.Keys
    ensures SamePlaces(h, h') && Tree(h', order, root')
    ensures x == null ==> h' == h && root' == root && (old(AllExact(h)) ==> AllExact(h))
    ensures x != null ==> h'[x].parent == goal && root' == (if goal == null then x else root) && AllExact(h')
  {
    root', h' := root, h;
    if x == null {
      return;
    }
    SizedCanSplay(h, order, root, x);
    h' := SplayNode(x, goal, h, order, root);
    if goal == null {
      root' := x;
    }
    assert Linked(h', order, root', root');
  }

  // The neighbours of the root x in the in-order sequence.
  method Neighbours<K, V>(x: Node<K, V>, ghost h: Shape<K, V>, ghost order: seq<Node<K, V>>)
    returns (succ: Node?<K, V>, prev: Node?<K, V>)
    requires Tree(h, order, x) && x in h && h[x].parent == null
    ensures Between(h, order, prev, x, succ)
  {
    assert Linked(h, order, x, x) && x.left == h[x].left && x.right == h[x].right;
    succ, prev := null, null;
    if x.right != null {
      succ := GetMinNode(x.right, h, order, x);
    }
    if x.left != null {
      prev := GetMaxNode(x.left, h, order, x);
    }
  }

  // x lies between prev and succ, where a missing one means that x is first or last.
  ghost predicate Between<K, V>(
      h: Shape<K, V>, order: seq<Node<K, V>>, prev: Node?<K, V>, x: Node<K, V>, succ: Node?<K, V>)
  {
    && x in h
    && (if succ == null then h[x].pos == |order| - 1 else succ in h && h[succ].pos == h[x].pos + 1)
    && (if prev == null then h[x].pos == 0 else prev in h && h[prev].pos == h[x].pos - 1)
  }

  // Cuts x off once succ is the root (or missing) and prev is next to it.
  method CutOff<K, V>(
    ghost x: Node<K, V>, prev: Node?<K, V>, succ: Node?<K, V>, root: Node?<K, V>,
    ghost h: Shape<K, V>, ghost order: seq<Node<K, V>>)
    returns (root': Node?<K, V>, ghost h': Shape<K, V>)
    requires Tree(h, order, root) && AllExact(h) && Between(h, order, prev, x, succ)
    requires succ != null ==> root == succ
    requires prev != null ==> h[prev].parent == succ && (succ == null ==> root == prev)
    modifies h.Keys
    ensures h'.Keys == h.Keys - {x}
    ensures 0 <= h[x].pos < |order| && Tree(h', RemoveAt(order, h[x].pos), root')
  {
    assert Linked(h, order, root, x);
    if prev != null {
      assert Linked(h, order, root, prev) && Exact(h, prev) && h[prev].right == h[prev].right;
      if succ == null {
        LastIsLeaf(h, order, prev, x);
      } else {
        assert Linked(h, order, root, succ) && Exact(h, succ) && h[succ].right == h[succ].right;
        BetweenIsLeaf(h, order, succ, prev, x);
        forall n | n in h ensures h[n].Covers(h[x].pos) <==> n == x || n == prev || n == succ {
          BetweenCovers(h, order, succ, prev, x, n);
        }
      }
      DetachKeepsLinks(h, order, root, x);
      CutRight(prev, succ, x, h, order, root);
      root', h' := root, Detach(h, x);
      assert Linked(h', RemoveAt(order, h[x].pos), root, root);
    } else if succ != null {
      assert Linked(h, order, root, succ) && Exact(h, succ);
      FirstIsLeaf(h, order, succ, x);
      DetachKeepsLinks(h, order, succ, x);
      CutLeft(succ, x, h, order);
      root', h' := root, Detach(h, x);
      assert Linked(h', RemoveAt(order, h[x].pos), root, root);
    } else {
      root', h' := null, map[];
      forall n | n in h ensures n == x {
        assert Linked(h, order, root, n);
      }
    }
  }

  /** Takes x out of the tree: its predecessor and successor are splayed around it and the leaf x is cut off. */
  method RemoveNode<K, V>(x: Node<K, V>, root: Node?<K, V>, ghost h: Shape<K, V>, ghost order: seq<Node<K, V>>)
    returns (root': Node?<K, V>, ghost h': Shape<K, V>)
    requires Tree(h, order, root) && x in h
    modifies h.Keys
    ensures h'.Keys == h.Keys - {x}
    ensures 0 <= h[x].pos < |order| && Tree(h', RemoveAt(order, h[x].pos), root')
  {
    var r;
    r, h' := Splay(x, null, root, h, order);
    var succ, prev := Neighbours(x, h', order);
    r, h' := Splay(succ, null, r, h', order);
    r, h' := Splay(prev, succ, r, h', order);
    root', h' := CutOff(x, prev, succ, r, h', order);
  }

  // The in-order sequence is nondecreasing in the compare key.
  ghost predicate Sorted<K, V>(order: seq<Node<K, V>>, ck: V -> int) {
    forall i, j {:trigger order[i], order[j]} | 0 <= i <= j < |order| :: ck(order[i].value) <= ck(order[j].value)
  }

  // Everything before place i has a smaller compare key than k, everything from j on a key that is not smaller.
  ghost predicate Splits<K, V>(order: seq<Node<K, V>>, ck: V -> int, k: int, i: int, j: int) {
    && 0 <= i <= j <= |order|
    && (forall m {:trigger order[m]} | 0 <= m < i :: ck(order[m].value) < k)
    && (forall m {:trigger order[m]} | j <= m < |order| :: ck(order[m].value) >= k)
  }

  function Side<K, V>(p: Node<K, V>, ck: V -> int, k: int): nat {
    if ck(p.value) < k then 1 else 0
  }

  // Walks down to the empty child slot where x belongs and records the slot's owner as x's parent.
  method FindSlot<K, V>(
      x: Node<K, V>, root: Node<K, V>, ck: V -> int, ghost h: Shape<K, V>, ghost order: seq<Node<K, V>>)
    requires Agrees(h) && Links(h, order, root) && Sorted(order, ck) && root in h && x !in h
    modifies x`parent
    ensures x.parent != null && x.parent in h && h[x.parent].Child(Side(x.parent, ck, ck(x.value))) == null
    ensures var i := PlaceUnder(h, x.parent, Side(x.parent, ck, ck(x.value)));
      Splits(order, ck, ck(x.value), i, i)
  {
    var p: Node?<K, V> := root;
    var k := ck(x.value);
    ghost var i, j := 0, |order|;
    assert Linked(h, order, root, root);
    while p != null
      invariant p != null ==> p in h && i == h[p].lo && j == h[p].hi
      invariant p == null ==> x.parent != null && x.parent in h && h[x.parent].Child(Side(x.parent, ck, k)) == null
      invariant p == null ==> i == j == PlaceUnder(h, x.parent, Side(x.parent, ck, k))
      invariant Splits(order, ck, k, i, j)
      invariant Agrees(h)
      decreases j - i, p != null
    {
      assert Linked(h, order, root, p) && p.left == h[p].left && p.right == h[p].right;
      x.parent := p;
      if ck(p.value) < k {
        i := h[p].pos + 1;
        p := p.right;
      } else {
        j := h[p].pos;
        p := p.left;
      }
    }
  }

  // Hangs x into the slot; the sizes of its ancestors become stale.
  method HangLeaf<K, V>(
    x: Node<K, V>, p: Node<K, V>, c: nat, ghost h: Shape<K, V>, ghost order: seq<Node<K, V>>, ghost top: Node?<K, V>)
    requires Agrees(h) && Links(h, order, top) && Sized(h, top) && CanAttach(h, p, c, x)
    requires 0 <= PlaceUnder(h, p, c) <= |order| &&
      Links(Attach(h, p, c, x), InsertAt(order, PlaceUnder(h, p, c), x), top)
    requires x.parent == p && x.left == null && x.right == null
    modifies p`left, p`right
    ensures Agrees(Attach(h, p, c, x)) && SizesExcept(Attach(h, p, c, x), x, x, true)
  {
    ghost var h', i := Attach(h, p, c, x), PlaceUnder(h, p, c);
    if top in h {
      assert Linked(h', InsertAt(order, i, x), top, top);
    }
    p.SetChild(c, x);
    hide Links, Linked, InsertAt;
    AttachedLeaf(h, p, c, x);
    forall n | n in h
      ensures n.parent == h'[n].parent && n.left == h'[n].left && n.right == h'[n].right
      ensures Exact(h', n) || h'[n].Covers(i)
    {
      AttachedCell(h, p, c, x, n);
      hide Attach;
      assert h[n] == h[n];
    }
  }

  /** Inserts x after all smaller and before all other compare keys, and splays it to the root. */
  method InsertNode<K, V>(
    x: Node<K, V>, root: Node?<K, V>, ck: V -> int, ghost h: Shape<K, V>, ghost order: seq<Node<K, V>>)
    returns (ghost h': Shape<K, V>, ghost i: int)
    requires Tree(h, order, root) && Sorted(order, ck)
    requires x !in h && x.parent == null && x.left == null && x.right == null && x.size == 1
    modifies h.Keys + {x}
    ensures Splits(order, ck, ck(x.value), i, i)
    ensures h'.Keys == h.Keys + {x} && Tree(h', InsertAt(order, i, x), x)
  {
    if root == null {
      h', i := map[x := Cell(null, null, null, 0, 0, 1)], 0;
      return;
    }
    FindSlot(x, root, ck, h, order);
    var p := x.parent;
    var c := Side(p, ck, ck(x.value));
    i := PlaceUnder(h, p, c);
    AttachKeepsLinks(h, order, root, p, c, x);
    HangLeaf(x, p, c, h, order, root);
    ghost var h1 := Attach(h, p, c, x);
    h' := SplayNode(x, null, h1, InsertAt(order, i, x), root);
    assert Linked(h', InsertAt(order, i, x), x, x);
  }

  // The descent works although the root's size may be stale: it is never read.
  method FindNth<K, V>(rank: nat, root: Node?<K, V>, ghost h: Shape<K, V>, ghost order: seq<Node<K, V>>)
    returns (x: Node<K, V>)
    requires Tree(h, order, root) && rank < |order|
    ensures x in h && x == order[rank]
  {
    x := root;
    var n := rank;
    assert Linked(h, order, root, x);
    while NodeSize(x.left) != n
      invariant x in h && n + h[x].lo == rank && h[x].lo <= rank < h[x].hi && Linked(h, order, root, x)
      decreases h[x].hi - h[x].lo
    {
      assert x.left == h[x].left && x.right == h[x].right;
      if x.left != null {
        assert Linked(h, order, root, x.left) && h[x.left].parent == x;
      }
      if NodeSize(x.left) > n {
        x := x.left;
      } else {
        n := n - (NodeSize(x.left) + 1);
        x := x.right;
      }
      assert Linked(h, order, root, x);
    }
    assert x.left == h[x].left;
    if x.left != null {
      assert Linked(h, order, root, x.left) && h[x.left].parent == x;
    }
  }

  /** The node at place n, splayed to the root. Only sizes of non-root nodes are read. */
  method GetNthNode<K, V>(rank: nat, root: Node?<K, V>, ghost h: Shape<K, V>, ghost order: seq<Node<K, V>>)
    returns (x: Node<K, V>, ghost h': Shape<K, V>)
    requires Tree(h, order, root) && rank < |order|
    modifies h.Keys
    ensures x == order[rank] && SamePlaces(h, h') && Tree(h', order, x)
  {
    x := FindNth(rank, root, h, order);
    var r;
    r, h' := Splay(x, null, root, h, order);
  }

  /** The last node whose compare key is at most k, or null. */
  method FindLastAtMost<K, V>(
      root: Node?<K, V>, ck: V -> int, k: int, ghost h: Shape<K, V>, ghost order: seq<Node<K, V>>)
    returns (y: Node?<K, V>)
    requires Tree(h, order, root) && Sorted(order, ck)
    ensures y != null ==> y in h
    ensures Splits(order, ck, k + 1, if y == null then 0 else h[y].pos + 1, if y == null then 0 else h[y].pos + 1)
  {
    var x := root;
    y := null;
    ghost var i, j := 0, |order|;
    if root != null {
      assert Linked(h, order, root, root);
    }
    while x != null
      invariant x != null ==> x in h && i == h[x].lo && j == h[x].hi
      invariant x == null ==> i == j
      invariant y != null ==> y in h
      invariant i == if y == null then 0 else h[y].pos + 1
      invariant Splits(order, ck, k + 1, i, j)
      decreases j - i, x != null
    {
      assert Linked(h, order, root, x) && x.left == h[x].left && x.right == h[x].right;
      if ck(x.value) <= k {
        i := h[x].pos + 1;
        y := x;
        x := x.right;
      } else {
        j := h[x].pos;
        x := x.left;
      }
    }
  }

  /** The place of x, read off its left subtree's size once x is the root. */
  method PlaceOf<K, V>(x: Node<K, V>, root: Node?<K, V>, ghost h: Shape<K, V>, ghost order: seq<Node<K, V>>)
    returns (r: nat, ghost h': Shape<K, V>)
    requires Tree(h, order, root) && x in h
    modifies h.Keys
    ensures r < |order| && order[r] == x && h'.Keys == h.Keys && Tree(h', order, x)
  {
    var root';
    root', h' := Splay(x, null, root, h, order);
    assert Linked(h', order, x, x) && x.left == h'[x].left;
    r := NodeSize(x.left);
  }

  /** How many nodes have a compare key of at most k. */
  method CountAtMost<K, V>(root: Node?<K, V>, ck: V -> int, k: int, ghost h: Shape<K, V>, ghost order: seq<Node<K, V>>)
    returns (cnt: nat, root': Node?<K, V>, ghost h': Shape<K, V>)
    requires Tree(h, order, root) && Sorted(order, ck)
    modifies h.Keys
    ensures Splits(order, ck, k + 1, cnt, cnt) && h'.Keys == h.Keys && Tree(h', order, root')
  {
    var y := FindLastAtMost(root, ck, k, h, order);
    if y == null {
      return 0, root, h;
    }
    cnt, h' := PlaceOf(y, root, h, order);
    assert Linked(h, order, root, y);
    assert order[h[y].pos] == order[cnt] && h[order[cnt]].pos == cnt;
    return cnt + 1, y, h';
  }

  lemma SortedInsert<K, V>(order: seq<Node<K, V>>, ck: V -> int, x: Node<K, V>, i: int)
    requires Sorted(order, ck) && Splits(order, ck, ck(x.value), i, i)
    ensures Sorted(InsertAt(order, i, x), ck)
  {
  }

  lemma SortedRemove<K, V>(order: seq<Node<K, V>>, ck: V -> int, i: int)
    requires Sorted(order, ck) && 0 <= i < |order|
    ensures Sorted(RemoveAt(order, i), ck)
  {
  }

  method InsertSorted<K, V>(
    key: K, value: V, root: Node?<K, V>, ck: V -> int, ghost h: Shape<K, V>, ghost order: seq<Node<K, V>>)
    returns (x: Node<K, V>, ghost h': Shape<K, V>, ghost order': seq<Node<K, V>>)
    requires Tree(h, order, root) && Sorted(order, ck)
    modifies h.Keys
    ensures fresh(x) && x.key == key && x.value == value
    ensures h'.Keys == h.Keys + {x} && Tree(h', order', x) && Sorted(order', ck)
  {
    x := new Node(key, value);
    ghost var i;
    h', i := InsertNode(x, root, ck, h, order);
    SortedInsert(order, ck, x, i);
    order' := InsertAt(order, i, x);
  }

  method RemoveSorted<K, V>(
    x: Node<K, V>, root: Node?<K, V>, ck: V -> int, ghost h: Shape<K, V>, ghost order: seq<Node<K, V>>)
    returns (root': Node?<K, V>, ghost h': Shape<K, V>, ghost order': seq<Node<K, V>>)
    requires Tree(h, order, root) && Sorted(order, ck) && x in h
    modifies h.Keys
    ensures h'.Keys == h.Keys - {x} && Tree(h', order', root') && Sorted(order', ck)
  {
    root', h' := RemoveNode(x, root, h, order);
    SortedRemove(order, ck, h[x].pos);
    order' := RemoveAt(order, h[x].pos);
  }
}
