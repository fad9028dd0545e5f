/** Sifting in a binary heap of timeouts, on plain sequences. */
module HeapOrder {

  function Parent(i: int): int
    requires i > 0
  {
    (i - 1) / 2
  }

  // No element is smaller than its parent.
  ghost predicate Ordered(t: seq<int>) {
    forall j {:trigger t[j]} | 0 < j < |t| :: t[Parent(j)] <= t[j]
  }

  // Only element i may be smaller than its parent; its children are no smaller than that parent.
  ghost predicate OrderedButUp(t: seq<int>, i: int) {
    && 0 <= i < |t|
    && (forall j {:trigger t[j]} | 0 < j < |t| && j != i :: t[Parent(j)] <= t[j])
    && (forall j {:trigger t[j]} | 0 < j < |t| && Parent(j) == i && i > 0 :: t[Parent(i)] <= t[j])
  }

  // Only the children of i may be smaller than i; they are no smaller than i's parent.
  ghost predicate OrderedButDown(t: seq<int>, i: int) {
    && 0 <= i < |t|
    && (forall j {:trigger t[j]} | 0 < j < |t| && Parent(j) != i :: t[Parent(j)] <= t[j])
    && (forall j {:trigger t[j]} | 0 < j < |t| && Parent(j) == i && i > 0 :: t[Parent(i)] <= t[j])
  }

  function Swap<T>(t: seq<T>, i: int, j: int): (r: seq<T>)
    requires 0 <= i < |t| && 0 <= j < |t|
    ensures |r| == |t|
  {
    t[i := t[j]][j := t[i]]
  }

  lemma SwapUp(t: seq<int>, i: int)
    requires OrderedButUp(t, i) && i > 0 && t[i] < t[Parent(i)]
    ensures OrderedButUp(Swap(t, i, Parent(i)), Parent(i))
  {
  }

  // The child that moves up is the smaller one, or the only one.
  ghost predicate SmallerChild(t: seq<int>, i: int, c: int) {
    && 0 <= i < |t| && 0 < c < |t| && Parent(c) == i
    && forall j {:trigger t[j]} | 0 < j < |t| && Parent(j) == i :: t[c] <= t[j]
  }

  lemma SwapDown(t: seq<int>, i: int, c: int)
    requires OrderedButDown(t, i) && SmallerChild(t, i, c) && t[c] <= t[i]
    ensures OrderedButDown(Swap(t, i, c), c)
  {
  }

  /** The first element of an ordered heap is the smallest. */
  lemma {:induction false} RootIsLeast(t: seq<int>, j: int)
    requires Ordered(t) && 0 <= j < |t|
    ensures t[0] <= t[j]
    decreases j
  {
    if j > 0 {
      RootIsLeast(t, Parent(j));
    }
  }

  // The last element moved into place i, and the heap one shorter.
  function Replaced(t: seq<int>, i: int): seq<int>
    requires 0 <= i < |t| - 1
  {
    t[i := t[|t| - 1]][..|t| - 1]
  }

  /** After that, one sift repairs the order: up if the moved element is smaller than its new parent, else down. */
  lemma ReplacedRepairable(t: seq<int>, i: int)
    requires Ordered(t) && 0 <= i < |t| - 1
    ensures var r := Replaced(t, i);
      if i > 0 && r[i] < r[Parent(i)] then OrderedButUp(r, i) else OrderedButDown(r, i)
  {
    var r := Replaced(t, i);
    forall j | 0 <= j < |r| ensures r[j] == if j == i then t[|t| - 1] else t[j] {
    }
    forall j | 0 < j < |r| && Parent(j) != i && j != i ensures r[Parent(j)] <= r[j] {
      assert t[j] == t[j];
    }
    forall j | 0 < j < |r| && Parent(j) == i && i > 0 ensures r[Parent(i)] <= r[j] && t[i] <= t[j] {
      assert t[j] == t[j] && t[i] == t[i];
    }
  }
}

/** The timer queue: a heap of timers that know their own position in it. */
module TimerQueue {
  import opened Wrappers
  import opened HeapOrder

  // A callback is identified by a number.
  type Callback = nat

  datatype Error = Ok | Cancelled

  datatype Bind = Bind(callback: Callback, error: Error)

  const INVALID_HEAP_INDEX := -1

  class TimerData {
    var callbacks: seq<Callback>
    var heapIndex: int

    constructor ()
      ensures callbacks == [] && heapIndex == INVALID_HEAP_INDEX
    {
      callbacks, heapIndex := [], INVALID_HEAP_INDEX;
    }
  }

  datatype Element = Element(timeout: int, data: TimerData)

  ghost function Times(heap: seq<Element>): (t: seq<int>)
    ensures |t| == |heap| && forall i {:trigger t[i]} | 0 <= i < |t| :: t[i] == heap[i].timeout
  {
    seq(|heap|, i requires 0 <= i < |heap| => heap[i].timeout)
  }

  // Which timers wait, and until when.
  ghost function Elements(heap: seq<Element>): set<Element> {
    set i | 0 <= i < |heap| :: heap[i]
  }

  /** Every timer in the heap knows its index, and a timer outside has none. */
  ghost predicate Indexed(heap: seq<Element>, known: set<TimerData>)
    reads known`heapIndex
  {
    && (forall i {:trigger heap[i]} | 0 <= i < |heap| :: heap[i].data in known && heap[i].data.heapIndex == i)
    && (forall d {:trigger d in known} | d in known ::
          d.heapIndex == INVALID_HEAP_INDEX || (0 <= d.heapIndex < |heap| && heap[d.heapIndex].data == d))
  }

  lemma SwapTimes(heap: seq<Element>, i: int, j: int)
    requires 0 <= i < |heap| && 0 <= j < |heap|
    ensures Times(Swap(heap, i, j)) == Swap(Times(heap), i, j)
    ensures Elements(Swap(heap, i, j)) == Elements(heap)
  {
    var r := Swap(heap, i, j);
    forall e ensures e in Elements(r) <==> e in Elements(heap) {
      if e in Elements(heap) {
        var k :| 0 <= k < |heap| && heap[k] == e;
        assert r[if k == i then j else if k == j then i else k] == e;
      }
    }
  }

  method HeapSwap(heap: seq<Element>, lhs: int, rhs: int, ghost known: set<TimerData>) returns (heap': seq<Element>)
    requires Indexed(heap, known) && 0 <= lhs < |heap| && 0 <= rhs < |heap|
    modifies known`heapIndex
    ensures heap' == Swap(heap, lhs, rhs) && Indexed(heap', known)
  {
    heap' := Swap(heap, lhs, rhs);
    heap'[lhs].data.heapIndex := lhs;
    heap'[rhs].data.heapIndex := rhs;
  }

  method HeapUp(start: int, heap: seq<Element>, ghost known: set<TimerData>) returns (heap': seq<Element>)
    requires Indexed(heap, known) && OrderedButUp(Times(heap), start)
    modifies known`heapIndex
    ensures Indexed(heap', known) && Ordered(Times(heap')) && Elements(heap') == Elements(heap) && |heap'| == |heap|
    ensures start > 0 && heap[start].timeout >= heap[0].timeout ==> heap'[0] == heap[0]
  {
    heap' := heap;
    var index := start;
    while index > 0
      invariant Indexed(heap', known) && OrderedButUp(Times(heap'), index)
      invariant heap'[index] == heap[start]
      invariant start > 0 && heap[start].timeout >= heap[0].timeout ==> index > 0 && heap'[0] == heap[0]
      invariant Elements(heap') == Elements(heap) && |heap'| == |heap|
      decreases index
    {
      var parent := Parent(index);
      if heap'[index].timeout >= heap'[parent].timeout {
        break;
      }
      SwapTimes(heap', index, parent);
      SwapUp(Times(heap'), index);
      heap' := HeapSwap(heap', index, parent, known);
      index := parent;
    }
  }

  // The earlier of the two children, or the only one.
  function ChooseChild(heap: seq<Element>, left: int): int
    requires 0 <= left < |heap|
  {
    if left + 1 == |heap| || heap[left].timeout < heap[left + 1].timeout then left else left + 1
  }

  lemma ChosenIsSmaller(heap: seq<Element>, index: int)
    requires 0 <= index && 2 * index + 1 < |heap|
    ensures SmallerChild(Times(heap), index, ChooseChild(heap, 2 * index + 1))
  {
  }

  lemma DownStops(heap: seq<Element>, index: int)
    requires OrderedButDown(Times(heap), index)
    requires 2 * index + 1 < |heap| ==> heap[index].timeout < heap[ChooseChild(heap, 2 * index + 1)].timeout
    ensures Ordered(Times(heap))
  {
  }

  lemma DownGoes(heap: seq<Element>, index: int)
    requires OrderedButDown(Times(heap), index) && 2 * index + 1 < |heap|
    requires heap[index].timeout >= heap[ChooseChild(heap, 2 * index + 1)].timeout
    ensures var child := ChooseChild(heap, 2 * index + 1);
      OrderedButDown(Times(Swap(heap, index, child)), child) && Elements(Swap(heap, index, child)) == Elements(heap)
  {
    var child := ChooseChild(heap, 2 * index + 1);
    ChosenIsSmaller(heap, index);
    SwapTimes(heap, index, child);
    SwapDown(Times(heap), index, child);
  }

  method HeapDown(start: int, heap: seq<Element>, ghost known: set<TimerData>) returns (heap': seq<Element>)
    requires Indexed(heap, known) && OrderedButDown(Times(heap), start)
    modifies known`heapIndex
    ensures Indexed(heap', known) && Ordered(Times(heap')) && Elements(heap') == Elements(heap) && |heap'| == |heap|
  {
    heap' := heap;
    var index := start;
    var left := index * 2 + 1;
    while left < |heap'|
      invariant Indexed(heap', known) && OrderedButDown(Times(heap'), index) && left == 2 * index + 1
      invariant Elements(heap') == Elements(heap) && |heap'| == |heap|
      decreases |heap'| - index
    {
      var child := ChooseChild(heap', left);
      if heap'[index].timeout < heap'[child].timeout {
        break;
      }
      DownGoes(heap', index);
      heap' := HeapSwap(heap', index, child, known);
      index := child;
      left := index * 2 + 1;
    }
    DownStops(heap', index);
  }

  ghost predicate DistinctData(heap: seq<Element>) {
    forall i, j {:trigger heap[i], heap[j]} | 0 <= i < j < |heap| :: heap[i].data != heap[j].data
  }

  // The heap after the element at index has been overwritten by the last one.
  function LastMoved(heap: seq<Element>, index: int): (r: seq<Element>)
    requires 0 <= index < |heap| - 1
    ensures |r| == |heap| - 1
    ensures forall k {:trigger r[k]} | 0 <= k < |r| :: r[k] == if k == index then heap[|heap| - 1] else heap[k]
  {
    Swap(heap, index, |heap| - 1)[..|heap| - 1]
  }

  lemma LastMovedOrder(heap: seq<Element>, index: int)
    requires Ordered(Times(heap)) && 0 <= index < |heap| - 1
    ensures var r := LastMoved(heap, index);
      if index > 0 && r[index].timeout < r[Parent(index)].timeout
      then OrderedButUp(Times(r), index) else OrderedButDown(Times(r), index)
  {
    assert Times(LastMoved(heap, index)) == Replaced(Times(heap), index);
    ReplacedRepairable(Times(heap), index);
  }

  lemma LastMovedElements(heap: seq<Element>, index: int)
    requires 0 <= index < |heap| - 1 && DistinctData(heap)
    ensures Elements(LastMoved(heap, index)) == Elements(heap) - {heap[index]}
  {
    var r := LastMoved(heap, index);
    forall e ensures e in Elements(r) <==> e in Elements(heap) - {heap[index]} {
      if e in Elements(heap) - {heap[index]} {
        var k :| 0 <= k < |heap| && heap[k] == e;
        assert r[if k == |heap| - 1 then index else k] == e;
      }
      if e in Elements(r) {
        var k :| 0 <= k < |r| && r[k] == e;
        assert e == heap[if k == index then |heap| - 1 else k];
      }
    }
  }

  lemma DropLast(heap: seq<Element>)
    requires Ordered(Times(heap)) && heap != [] && DistinctData(heap)
    ensures var r := heap[..|heap| - 1];
      Ordered(Times(r)) && Elements(r) == Elements(heap) - {heap[|heap| - 1]}
  {
    var r := heap[..|heap| - 1];
    forall j | 0 < j < |r| ensures Times(r)[Parent(j)] <= Times(r)[j] {
      assert Times(heap)[Parent(j)] <= Times(heap)[j];
    }
    forall e ensures e in Elements(r) <==> e in Elements(heap) - {heap[|heap| - 1]} {
      if e in Elements(heap) - {heap[|heap| - 1]} {
        var k :| 0 <= k < |heap| && heap[k] == e;
        assert r[k] == e;
      }
    }
  }

  // Forgets the last timer of the heap.
  method PopBack(heap: seq<Element>, ghost known: set<TimerData>) returns (heap': seq<Element>)
    requires Indexed(heap, known) && heap != []
    modifies known`heapIndex
    ensures heap' == heap[..|heap| - 1] && Indexed(heap', known)
    ensures heap[|heap| - 1].data.heapIndex == INVALID_HEAP_INDEX
    ensures forall d {:trigger d in known} | d in known && d != heap[|heap| - 1].data :: d.heapIndex == old(d.heapIndex)
  {
    heap[|heap| - 1].data.heapIndex := INVALID_HEAP_INDEX;
    heap' := heap[..|heap| - 1];
  }

  // A removed timer is nowhere in the heap, so it has no index.
  lemma RemovedHasNoIndex(heap: seq<Element>, heap': seq<Element>, index: int, known: set<TimerData>)
    requires DistinctData(heap) && 0 <= index < |heap| && heap[index].data in known
    requires Elements(heap') == Elements(heap) - {heap[index]} && Indexed(heap', known)
    ensures heap[index].data.heapIndex == INVALID_HEAP_INDEX
  {
    var d := heap[index].data;
    if d.heapIndex != INVALID_HEAP_INDEX {
      assert heap'[d.heapIndex] in Elements(heap');
      var k :| 0 <= k < |heap| && heap[k] == heap'[d.heapIndex];
    }
  }

  /** Takes one timer out of the heap. */
  method HeapRemove(index: int, heap: seq<Element>, ghost known: set<TimerData>) returns (heap': seq<Element>)
    requires Indexed(heap, known) && Ordered(Times(heap)) && 0 <= index < |heap|
    modifies known`heapIndex
    ensures Indexed(heap', known) && Ordered(Times(heap')) && Elements(heap') == Elements(heap) - {heap[index]}
    ensures heap[index].data.heapIndex == INVALID_HEAP_INDEX && |heap'| == |heap| - 1
  {
    assert DistinctData(heap);
    if index == |heap| - 1 {
      DropLast(heap);
      heap' := PopBack(heap, known);
    } else {
      heap' := HeapSwap(heap, index, |heap| - 1, known);
      heap' := PopBack(heap', known);
      assert heap' == LastMoved(heap, index);
      LastMovedOrder(heap, index);
      LastMovedElements(heap, index);
      if index > 0 && heap'[index].timeout < heap'[Parent(index)].timeout {
        heap' := HeapUp(index, heap', known);
      } else {
        heap' := HeapDown(index, heap', known);
      }
    }
    RemovedHasNoIndex(heap, heap', index, known);
  }

  // What each timer holds.
  ghost function Calls(known: set<TimerData>): map<TimerData, seq<Callback>>
    reads known`callbacks
  {
    map d | d in known :: if d in known then d.callbacks else []
  }

  lemma CallsOf(known: set<TimerData>, d: TimerData)
    requires d in known
    ensures d in Calls(known) && Calls(known)[d] == d.callbacks
  {
  }

  // The timers with an entry in the heap.
  ghost function Waiting(elements: set<Element>): set<TimerData> {
    set e | e in elements :: e.data
  }

  function Callbacks(binds: seq<Bind>): (r: seq<Callback>)
    ensures |r| == |binds| && forall i {:trigger r[i]} | 0 <= i < |r| :: r[i] == binds[i].callback
  {
    seq(|binds|, i requires 0 <= i < |binds| => binds[i].callback)
  }

  /**
   Every callback is with the one timer that owns it, or has been delivered, and
   never both; none is delivered twice.
   */
  ghost predicate Filed(
      owner: map<Callback, TimerData>, calls: map<TimerData, seq<Callback>>, delivered: seq<Callback>) {
    && (forall d {:trigger calls[d]} | d in calls :: NoRepeats(calls[d]))
    && (forall d, c {:trigger c in calls[d]} | d in calls :: c in calls[d] <==> c in owner && owner[c] == d)
    && (forall c {:trigger c in owner} | c in owner :: owner[c] in calls && c !in delivered)
    && NoRepeats(delivered)
  }

  // A timer has callbacks exactly while it is in the heap.
  ghost predicate Busy(elements: set<Element>, calls: map<TimerData, seq<Callback>>) {
    forall d {:trigger calls[d]} | d in calls :: calls[d] != [] <==> d in Waiting(elements)
  }

  lemma FiledAdd(
      owner: map<Callback, TimerData>, calls: map<TimerData, seq<Callback>>, delivered: seq<Callback>, d: TimerData,
      c: Callback)
    requires Filed(owner, calls, delivered) && d in calls && c !in owner && c !in delivered
    ensures Filed(owner[c := d], calls[d := calls[d] + [c]], delivered)
  {
    assert c !in calls[d];
  }

  // The owners left after d has given up its callbacks.
  ghost function Without(owner: map<Callback, TimerData>, d: TimerData): map<Callback, TimerData> {
    owner - (set c | c in owner && owner[c] == d)
  }

  lemma FiledPop(
      owner: map<Callback, TimerData>, calls: map<TimerData, seq<Callback>>, delivered: seq<Callback>, d: TimerData)
    requires Filed(owner, calls, delivered) && d in calls
    ensures Filed(Without(owner, d), calls[d := []], delivered + calls[d])
  {
    var r := delivered + calls[d];
    forall i, j | 0 <= i < j < |r| ensures r[i] != r[j] {
      if i < |delivered| <= j {
        assert calls[d][j - |delivered|] in calls[d];
      }
    }
    assert forall c {:trigger c in calls[d]} :: c in calls[d] <==> c in owner && owner[c] == d;
  }

  // The owners after everything src held has gone to dst.
  ghost function Renamed(owner: map<Callback, TimerData>, dst: TimerData, src: TimerData): map<Callback, TimerData> {
    map c | c in owner :: if owner[c] == src then dst else owner[c]
  }

  lemma FiledMove(
      owner: map<Callback, TimerData>, calls: map<TimerData, seq<Callback>>, delivered: seq<Callback>, dst: TimerData,
      src: TimerData)
    requires Filed(owner, calls, delivered) && dst in calls && src in calls && dst != src && calls[dst] == []
    ensures Filed(Renamed(owner, dst, src), calls[dst := calls[src]][src := []], delivered)
  {
    var owner', calls' := Renamed(owner, dst, src), calls[dst := calls[src]][src := []];
    forall d, c | d in calls' ensures c in calls'[d] <==> c in owner' && owner'[c] == d {
      assert c in calls[d] <==> c in owner && owner[c] == d;
      assert c in calls[src] <==> c in owner && owner[c] == src;
      assert c in calls[dst] <==> c in owner && owner[c] == dst;
    }
  }

  // The given callbacks, all bound to one error code.
  function Bound(callbacks: seq<Callback>, error: Error): (r: seq<Bind>)
    ensures Callbacks(r) == callbacks && forall i {:trigger r[i]} | 0 <= i < |r| :: r[i].error == error
  {
    seq(|callbacks|, i requires 0 <= i < |callbacks| => Bind(callbacks[i], error))
  }

  // Moves all callbacks of d to the queue.
  method PopCallbacks(d: TimerData, error: Error, out: seq<Bind>) returns (cnt: nat, out': seq<Bind>)
    modifies d`callbacks
    ensures cnt == |old(d.callbacks)| && out' == out + Bound(old(d.callbacks), error) && d.callbacks == []
  {
    out', cnt := out, |d.callbacks|;
    for i := 0 to |d.callbacks|
      invariant out' == out + Bound(d.callbacks[..i], error)
    {
      out' := out' + [Bind(d.callbacks[i], error)];
    }
    assert d.callbacks[..|d.callbacks|] == d.callbacks;
    d.callbacks := [];
  }

  lemma PushOrder(heap: seq<Element>, e: Element)
    requires Ordered(Times(heap))
    ensures OrderedButUp(Times(heap + [e]), |heap|) && Elements(heap + [e]) == Elements(heap) + {e}
  {
    var t, r := Times(heap), Times(heap + [e]);
    forall j | 0 < j < |r| && j != |heap| ensures r[Parent(j)] <= r[j] {
      assert t[Parent(j)] <= t[j];
    }
    forall x ensures x in Elements(heap + [e]) <==> x in Elements(heap) + {e} {
      if x in Elements(heap) {
        var k :| 0 <= k < |heap| && heap[k] == x;
        assert (heap + [e])[k] == x;
      }
      assert (heap + [e])[|heap|] == e;
    }
  }

  lemma WaitingHasIndex(heap: seq<Element>, known: set<TimerData>, d: TimerData)
    requires Indexed(heap, known) && d in known
    ensures d.heapIndex != INVALID_HEAP_INDEX <==> d in Waiting(Elements(heap))
  {
  }

  lemma BusyAdd(elements: set<Element>, calls: map<TimerData, seq<Callback>>, e: Element, s: seq<Callback>)
    requires Busy(elements, calls) && e.data in calls && s != []
    ensures Busy(elements + {e}, calls[e.data := s])
    ensures e.data in Waiting(elements) ==> Busy(elements, calls[e.data := s])
  {
  }

  // No timer has two entries.
  ghost predicate OneEntry(elements: set<Element>) {
    forall e, f | e in elements && f in elements && e.data == f.data :: e == f
  }

  lemma BusyDrop(elements: set<Element>, calls: map<TimerData, seq<Callback>>, e: Element)
    requires Busy(elements, calls) && e.data in calls && e in elements && OneEntry(elements)
    ensures Busy(elements - {e}, calls[e.data := []])
  {
  }

  lemma IndexedOneEntry(heap: seq<Element>, known: set<TimerData>)
    requires Indexed(heap, known)
    ensures OneEntry(Elements(heap))
  {
  }

  // The heap part of the invariant.
  ghost predicate HeapOk(heap: seq<Element>, known: set<TimerData>)
    reads known`heapIndex
  {
    Indexed(heap, known) && Ordered(Times(heap))
  }

  lemma LoneLeastIsRoot(heap: seq<Element>, heap': seq<Element>, e: Element)
    requires Ordered(Times(heap)) && Ordered(Times(heap')) && Elements(heap') == Elements(heap) + {e}
    requires heap == [] || e.timeout < heap[0].timeout
    ensures heap' != [] && heap'[0] == e
  {
    assert e in Elements(heap');
    var k :| 0 <= k < |heap'| && heap'[k] == e;
    RootIsLeast(Times(heap'), k);
    assert heap'[0] in Elements(heap');
    if heap'[0] != e {
      var j :| 0 <= j < |heap| && heap[j] == heap'[0];
      RootIsLeast(Times(heap), j);
    }
  }

  // A timer not yet in the heap enters it at the bottom and rises.
  method HeapPush(d: TimerData, timeout: int, heap: seq<Element>, ghost known: set<TimerData>)
    returns (heap': seq<Element>)
    requires HeapOk(heap, known) && d in known
    modifies known`heapIndex
    ensures HeapOk(heap', known) && (d.heapIndex == 0 <==> heap' != [] && heap'[0].data == d)
    ensures Elements(heap') == if d in Waiting(Elements(heap)) then Elements(heap) else
      Elements(heap) + {Element(timeout, d)}
    ensures d !in Waiting(Elements(heap)) ==> (d.heapIndex == 0 <==> heap == [] || timeout < heap[0].timeout)
  {
    heap' := heap;
    WaitingHasIndex(heap, known, d);
    if d.heapIndex == INVALID_HEAP_INDEX {
      PushOrder(heap, Element(timeout, d));
      d.heapIndex := |heap|;
      heap' := heap + [Element(timeout, d)];
      heap' := HeapUp(|heap|, heap', known);
      if heap != [] && timeout < heap[0].timeout {
        LoneLeastIsRoot(heap, heap', Element(timeout, d));
      }
    }
  }

  // The callback part of the invariant.
  ghost predicate BooksOk(
      elements: set<Element>, calls: map<TimerData, seq<Callback>>, owner: map<Callback, TimerData>,
      delivered: seq<Bind>, accepted: set<Callback>) {
    && OneEntry(elements) && (Waiting(elements) <= calls.Keys)
    && Busy(elements, calls) && Filed(owner, calls, Callbacks(delivered))
    && (forall c {:trigger c in accepted} :: c in accepted <==> c in owner || c in Callbacks(delivered))
  }

  lemma EmptyBooks(elements: set<Element>, calls: map<TimerData, seq<Callback>>)
    requires elements == {} && calls == map[]
    ensures BooksOk(elements, calls, map[], [], {})
  {
  }

  lemma BooksRegister(
      elements: set<Element>, calls: map<TimerData, seq<Callback>>, owner: map<Callback, TimerData>,
      delivered: seq<Bind>, accepted: set<Callback>, d: TimerData)
    requires BooksOk(elements, calls, owner, delivered, accepted) && d !in calls
    ensures BooksOk(elements, calls[d := []], owner, delivered, accepted)
  {
  }

  lemma BooksAdd(
      elements: set<Element>, calls: map<TimerData, seq<Callback>>, owner: map<Callback, TimerData>,
      delivered: seq<Bind>, accepted: set<Callback>,
                 e: Element, callback: Callback)
    requires BooksOk(elements, calls, owner, delivered, accepted) && e.data in calls
    requires callback !in accepted
    ensures var elements' := if e.data in Waiting(elements) then elements else elements + {e};
      BooksOk(elements', calls[e.data := calls[e.data] + [callback]], owner[callback := e.data], delivered,
        accepted + {callback})
  {
    FiledAdd(owner, calls, Callbacks(delivered), e.data, callback);
    BusyAdd(elements, calls, e, calls[e.data] + [callback]);
  }

  lemma BooksPop(
      elements: set<Element>, calls: map<TimerData, seq<Callback>>, owner: map<Callback, TimerData>,
      delivered: seq<Bind>, accepted: set<Callback>,
                 e: Element, error: Error)
    requires BooksOk(elements, calls, owner, delivered, accepted) && e in elements
    ensures e.data in calls &&
      BooksOk(elements - {e}, calls[e.data := []], Without(owner, e.data), delivered + Bound(calls[e.data], error),
        accepted)
  {
    assert e.data in Waiting(elements);
    FiledPop(owner, calls, Callbacks(delivered), e.data);
    BusyDrop(elements, calls, e);
    assert Callbacks(delivered + Bound(calls[e.data], error)) == Callbacks(delivered) + calls[e.data];
  }

  method AddCallback(d: TimerData, callback: Callback, ghost known: set<TimerData>)
    requires d in known
    modifies d`callbacks
    ensures Calls(known) == old(Calls(known))[d := old(d.callbacks) + [callback]]
    ensures d.callbacks == old(d.callbacks) + [callback]
  {
    d.callbacks := d.callbacks + [callback];
  }

  // The entry of src, if any, becomes one of dst.
  ghost function RenamedEntries(elements: set<Element>, dst: TimerData, src: TimerData): set<Element> {
    set e | e in elements :: if e.data == src then Element(e.timeout, dst) else e
  }

  method HeapRename(dst: TimerData, src: TimerData, heap: seq<Element>, ghost known: set<TimerData>)
    returns (heap': seq<Element>)
    requires HeapOk(heap, known) && dst in known && src in known && dst != src && dst !in Waiting(Elements(heap))
    modifies known`heapIndex
    ensures HeapOk(heap', known) && Elements(heap') == RenamedEntries(Elements(heap), dst, src)
  {
    hide Ordered, Elements, RenamedEntries, Waiting;
    heap' := heap;
    WaitingHasIndex(heap, known, dst);
    WaitingHasIndex(heap, known, src);
    assert DistinctData(heap);
    dst.heapIndex := src.heapIndex;
    src.heapIndex := INVALID_HEAP_INDEX;
    if dst.heapIndex != INVALID_HEAP_INDEX {
      heap' := heap[dst.heapIndex := Element(heap[dst.heapIndex].timeout, dst)];
      RenameIsOne(heap, dst.heapIndex, dst, src);
      assert Times(heap') == Times(heap);
    } else {
      RenameIsNone(Elements(heap), dst, src);
    }
  }

  lemma RenameIsNone(elements: set<Element>, dst: TimerData, src: TimerData)
    requires src !in Waiting(elements)
    ensures RenamedEntries(elements, dst, src) == elements
  {
  }

  lemma RenameIsOne(heap: seq<Element>, i: int, dst: TimerData, src: TimerData)
    requires 0 <= i < |heap| && heap[i].data == src && DistinctData(heap)
    ensures Elements(heap[i := Element(heap[i].timeout, dst)]) == RenamedEntries(Elements(heap), dst, src)
  {
    var heap' := heap[i := Element(heap[i].timeout, dst)];
    forall e ensures e in Elements(heap') <==> e in RenamedEntries(Elements(heap), dst, src) {
      if e in Elements(heap') {
        var k :| 0 <= k < |heap'| && heap'[k] == e;
        assert heap[k] in Elements(heap);
      }
      if e in RenamedEntries(Elements(heap), dst, src) {
        var f :| f in Elements(heap) && e == if f.data == src then Element(f.timeout, dst) else f;
        var k :| 0 <= k < |heap| && heap[k] == f;
        assert heap'[k] == e;
      }
    }
  }

  lemma BooksMove(
      elements: set<Element>, calls: map<TimerData, seq<Callback>>, owner: map<Callback, TimerData>,
      delivered: seq<Bind>, accepted: set<Callback>,
                  dst: TimerData, src: TimerData)
    requires BooksOk(elements, calls, owner, delivered, accepted) && dst in calls && src in calls && dst != src &&
      dst !in Waiting(elements)
    ensures BooksOk(RenamedEntries(elements, dst, src), calls[dst := calls[src]][src := []], Renamed(owner, dst, src),
      delivered, accepted)
  {
    FiledMove(owner, calls, Callbacks(delivered), dst, src);
    var elements' := RenamedEntries(elements, dst, src);
    forall d ensures d in Waiting(elements') <==>
      if d == dst then src in Waiting(elements) else d != src && d in Waiting(elements) {
      if d in Waiting(elements) {
        var e :| e in elements && e.data == d;
        assert (if e.data == src then Element(e.timeout, dst) else e) in elements';
      }
      if src in Waiting(elements) {
        var e :| e in elements && e.data == src;
        assert Element(e.timeout, dst) in elements';
      }
    }
  }

  method MoveCallbacks(dst: TimerData, src: TimerData, ghost known: set<TimerData>)
    requires dst in known && src in known && dst != src && dst.callbacks == []
    modifies dst`callbacks, src`callbacks
    ensures Calls(known) == old(Calls(known))[dst := old(src.callbacks)][src := []]
  {
    dst.callbacks := dst.callbacks + src.callbacks;
    assert dst.callbacks == src.callbacks;
    src.callbacks := [];
  }

  // PopCallbacks, seen from all timers.
  method TakeCallbacks(d: TimerData, error: Error, out: seq<Bind>, ghost known: set<TimerData>)
    returns (cnt: nat, out': seq<Bind>)
    requires d in known
    modifies d`callbacks
    ensures Calls(known) == old(Calls(known))[d := []]
    ensures cnt == |old(d.callbacks)| && out' == out + Bound(old(d.callbacks), error)
  {
    cnt, out' := PopCallbacks(d, error, out);
  }

  // The entry of a waiting timer.
  lemma EntryOf(heap: seq<Element>, known: set<TimerData>, d: TimerData)
    requires HeapOk(heap, known) && d in known && d.heapIndex != INVALID_HEAP_INDEX
    ensures 0 <= d.heapIndex < |heap| && heap[d.heapIndex].data == d && heap[d.heapIndex] in Elements(heap)
  {
  }

  method HeapTake(index: int, heap: seq<Element>, ghost known: set<TimerData>) returns (heap': seq<Element>)
    requires HeapOk(heap, known) && 0 <= index < |heap|
    modifies known`heapIndex
    ensures HeapOk(heap', known) && Elements(heap') == Elements(heap) - {heap[index]} && |heap'| == |heap| - 1
  {
    heap' := HeapRemove(index, heap, known);
  }

  ghost function WithoutTimer(elements: set<Element>, d: TimerData): set<Element> {
    set e | e in elements && e.data != d
  }

  lemma WithoutEntry(
      elements: set<Element>, calls: map<TimerData, seq<Callback>>, owner: map<Callback, TimerData>,
      delivered: seq<Bind>, accepted: set<Callback>, e: Element)
    requires BooksOk(elements, calls, owner, delivered, accepted) && e in elements
    ensures WithoutTimer(elements, e.data) == elements - {e}
  {
  }

  lemma NothingToCancel(
      heap: seq<Element>, known: set<TimerData>, owner: map<Callback, TimerData>, delivered: seq<Bind>,
      accepted: set<Callback>, d: TimerData)
    requires HeapOk(heap, known) && BooksOk(Elements(heap), Calls(known), owner, delivered, accepted)
    requires d in known && d.heapIndex == INVALID_HEAP_INDEX
    ensures d.callbacks == [] && Without(owner, d) == owner && WithoutTimer(Elements(heap), d) == Elements(heap)
    ensures Bound(d.callbacks, Cancelled) == []
  {
    WaitingHasIndex(heap, known, d);
    assert Calls(known)[d] == [];
    forall c | c in owner ensures owner[c] != d {
      assert c in Calls(known)[d] <==> c in owner && owner[c] == d;
    }
  }

  lemma IdleHasNone(
      heap: seq<Element>, known: set<TimerData>, owner: map<Callback, TimerData>, delivered: seq<Bind>,
      accepted: set<Callback>, d: TimerData)
    requires BooksOk(Elements(heap), Calls(known), owner, delivered, accepted) && d in known
    ensures d.callbacks == [] <==> d !in Waiting(Elements(heap))
  {
    assert Calls(known)[d] == [] <==> d !in Waiting(Elements(heap));
  }

  // Timers taken off the heap, first to last, by what each held.
  ghost function ReadyBinds(popped: seq<Element>, calls: map<TimerData, seq<Callback>>): seq<Bind> {
    if popped == [] then []
    else
      var e := popped[|popped| - 1];
      ReadyBinds(popped[..|popped| - 1], calls) + if e.data in calls then Bound(calls[e.data], Ok) else []
  }

  ghost predicate Nondecreasing(popped: seq<Element>) {
    forall i, j {:trigger popped[i], popped[j]} | 0 <= i < j < |popped| :: popped[i].timeout <= popped[j].timeout
  }

  /**
   From before to after, exactly the entries popped have left, earliest first, all
   of them due and none later than a remaining one; the remaining timers still hold what they held.
   */
  ghost predicate Drained(before: set<Element>, calls: map<TimerData, seq<Callback>>, popped: seq<Element>, now: int,
                          after: set<Element>, calls': map<TimerData, seq<Callback>>) {
    && Nondecreasing(popped) && NoRepeats(popped)
    && (forall e {:trigger e in popped} | e in popped :: e in before && e !in after && e.timeout <= now)
    && (forall e {:trigger e in before} | e in before :: e in after || e in popped)
    && (forall e {:trigger e in after} | e in after ::
          e in before && e.data in calls && e.data in calls' && calls'[e.data] == calls[e.data])
    && (forall e, f {:trigger e in popped, f in after} | e in popped && f in after :: e.timeout <= f.timeout)
  }

  lemma DrainStep(before: set<Element>, calls: map<TimerData, seq<Callback>>, popped: seq<Element>, now: int,
                  after: set<Element>, calls': map<TimerData, seq<Callback>>, e: Element)
    requires Drained(before, calls, popped, now, after, calls') && OneEntry(after)
    requires e in after && e.timeout <= now && forall f {:trigger f in after} | f in after :: e.timeout <= f.timeout
    ensures Drained(before, calls, popped + [e], now, after - {e}, calls'[e.data := []])
    ensures ReadyBinds(popped + [e], calls) == ReadyBinds(popped, calls) + Bound(calls'[e.data], Ok)
  {
    assert (popped + [e])[..|popped|] == popped;
    assert e !in popped;
    forall k | 0 <= k < |popped| ensures popped[k] != e && popped[k].timeout <= e.timeout {
      assert popped[k] in popped;
    }
    forall f | f in popped + [e] ensures f in before && f !in after - {e} && f.timeout <= now {
      if f != e { assert f in popped; }
    }
  }

  lemma DrainStart(
      heap: seq<Element>, calls: map<TimerData, seq<Callback>>, owner: map<Callback, TimerData>, delivered: seq<Bind>,
      accepted: set<Callback>, now: int)
    requires BooksOk(Elements(heap), calls, owner, delivered, accepted)
    ensures Drained(Elements(heap), calls, [], now, Elements(heap), calls)
  {
  }

  lemma TopIsLeast(heap: seq<Element>, known: set<TimerData>)
    requires HeapOk(heap, known) && heap != []
    ensures heap[0] in Elements(heap) && heap[0].data in known
    ensures OneEntry(Elements(heap)) && forall f {:trigger f in Elements(heap)} | f in Elements(heap) ::
      heap[0].timeout <= f.timeout
  {
    IndexedOneEntry(heap, known);
    RootComesFirst(heap);
  }

  lemma RootComesFirst(heap: seq<Element>)
    requires Ordered(Times(heap)) && heap != []
    ensures heap[0] in Elements(heap)
    ensures forall f {:trigger f in Elements(heap)} | f in Elements(heap) :: heap[0].timeout <= f.timeout
  {
    forall f | f in Elements(heap) ensures heap[0].timeout <= f.timeout {
      var k :| 0 <= k < |heap| && heap[k] == f;
      RootIsLeast(Times(heap), k);
    }
  }

  class TimerFD {
    var heap: seq<Element>
    ghost var known: set<TimerData>
    ghost var owner: map<Callback, TimerData>
    ghost var delivered: seq<Bind>
    ghost var accepted: set<Callback>

    ghost predicate Valid()
      reads this, known
    {
      HeapOk(heap, known) && BooksOk(Elements(heap), Calls(known), owner, delivered, accepted)
    }

    constructor ()
      ensures Valid() && heap == [] && known == {} && owner == map[] && delivered == [] && accepted == {}
    {
      hide BooksOk;
      heap, known, owner, delivered, accepted := [], {}, map[], [], {};
      new;
      EmptyBooks(Elements(heap), Calls(known));
    }

    // A timer that has just been made joins the ones this queue may hold.
    ghost method Register(d: TimerData)
      requires Valid() && d !in known && d.callbacks == [] && d.heapIndex == INVALID_HEAP_INDEX
      modifies `known
      ensures Valid() && known == old(known) + {d} && Calls(known) == old(Calls(known))[d := []]
    {
      BooksRegister(Elements(heap), Calls(known), owner, delivered, accepted, d);
      assert Calls(known + {d}) == Calls(known)[d := []];
      known := known + {d};
    }

    /** A new timer enters the heap with its timeout; a waiting one only gets another callback. */
    method EnqueueTimer(d: TimerData, timeout: int, callback: Callback) returns (earliest: bool)
      requires Valid() && d in known && callback !in accepted
      modifies this, d`callbacks, known`heapIndex
      ensures Valid() && known == old(known) && delivered == old(delivered) && owner == old(owner)[callback := d] &&
        accepted == old(accepted) + {callback}
      ensures Elements(heap) == if d in Waiting(old(Elements(heap))) then old(Elements(heap))
                                else old(Elements(heap)) + {Element(timeout, d)}
      ensures Calls(known) == old(Calls(known))[d := old(d.callbacks) + [callback]]
      ensures earliest ==> heap != [] && heap[0].data == d
      ensures earliest <==> d !in Waiting(old(Elements(heap))) && (old(heap) == [] || timeout < old(heap[0].timeout))
    {
      hide HeapOk, BooksOk, Waiting, Elements, Calls;
      CallsOf(known, d);
      BooksAdd(Elements(heap), Calls(known), owner, delivered, accepted, Element(timeout, d), callback);
      IdleHasNone(heap, known, owner, delivered, accepted, d);
      heap := HeapPush(d, timeout, heap, known);
      AddCallback(d, callback, known);
      owner, accepted := owner[callback := d], accepted + {callback};
      earliest := d.heapIndex == 0 && |d.callbacks| == 1;
    }

    /** Delivers every callback of a waiting timer as cancelled, and takes it out of the heap. */
    method CancelTimer(d: TimerData, out: seq<Bind>) returns (cnt: nat, out': seq<Bind>)
      requires Valid() && d in known
      modifies this, d`callbacks, known`heapIndex
      ensures Valid() && known == old(known) && accepted == old(accepted) && owner == Without(old(owner), d)
      ensures out' == out + Bound(old(d.callbacks), Cancelled) && cnt == |old(d.callbacks)|
      ensures delivered == old(delivered) + Bound(old(d.callbacks), Cancelled)
      ensures Elements(heap) == WithoutTimer(old(Elements(heap)), d) && Calls(known) == old(Calls(known))[d := []]
    {
      hide HeapOk, BooksOk, Without, WithoutTimer, Calls;
      CallsOf(known, d);
      cnt, out' := 0, out;
      if d.heapIndex != INVALID_HEAP_INDEX {
        EntryOf(heap, known, d);
        BooksPop(Elements(heap), Calls(known), owner, delivered, accepted, heap[d.heapIndex], Cancelled);
        WithoutEntry(Elements(heap), Calls(known), owner, delivered, accepted, heap[d.heapIndex]);
        delivered := delivered + Bound(d.callbacks, Cancelled);
        cnt, out' := TakeCallbacks(d, Cancelled, out, known);
        heap := HeapTake(d.heapIndex, heap, known);
        owner := Without(owner, d);
      } else {
        NothingToCancel(heap, known, owner, delivered, accepted, d);
      }
    }

    /** The entry and the callbacks of src go to dst. */
    method MoveTimer(dst: TimerData, src: TimerData)
      requires Valid() && dst in known && src in known && dst != src && dst !in Waiting(Elements(heap))
      modifies this, dst`callbacks, src`callbacks, known`heapIndex
      ensures Valid() && known == old(known) && delivered == old(delivered) && accepted == old(accepted) &&
        owner == Renamed(old(owner), dst, src)
      ensures Elements(heap) == RenamedEntries(old(Elements(heap)), dst, src)
      ensures Calls(known) == old(Calls(known))[dst := old(src.callbacks)][src := []]
    {
      hide HeapOk, BooksOk, Renamed, RenamedEntries, Waiting;
      IdleHasNone(heap, known, owner, delivered, accepted, dst);
      BooksMove(Elements(heap), Calls(known), owner, delivered, accepted, dst, src);
      MoveCallbacks(dst, src, known);
      heap := HeapRename(dst, src, heap, known);
      owner := Renamed(owner, dst, src);
    }

    // One turn of the loop below: the root is due.
    method PopRoot(out: seq<Bind>) returns (cnt: nat, out': seq<Bind>)
      requires Valid() && heap != []
      modifies this, heap[0].data`callbacks, known`heapIndex
      ensures Valid() && known == old(known) && accepted == old(accepted)
      ensures old(heap[0].data) in old(Calls(known)) && Calls(known) == old(Calls(known))[old(heap[0].data) := []]
      ensures Elements(heap) == old(Elements(heap)) - {old(heap[0])} && |heap| == |old(heap)| - 1
      ensures var ready := Bound(old(Calls(known)[heap[0].data]), Ok);
        out' == out + ready && delivered == old(delivered) + ready && cnt == |ready|
    {
      hide HeapOk, BooksOk, Without, Calls;
      TopIsLeast(heap, known);
      CallsOf(known, heap[0].data);
      BooksPop(Elements(heap), Calls(known), owner, delivered, accepted, heap[0], Ok);
      delivered := delivered + Bound(heap[0].data.callbacks, Ok);
      owner := Without(owner, heap[0].data);
      cnt, out' := TakeCallbacks(heap[0].data, Ok, out, known);
      heap := HeapTake(0, heap, known);
    }

    /** Everything due is delivered, earliest timer first, and only later timers stay. */
    method PopReadyTimerItems(now: int, out: seq<Bind>) returns (cnt: nat, out': seq<Bind>, ghost popped: seq<Element>)
      requires Valid()
      modifies this, known
      ensures Valid() && known == old(known) && accepted == old(accepted)
      ensures Drained(old(Elements(heap)), old(Calls(known)), popped, now, Elements(heap), Calls(known))
      ensures forall e {:trigger e in Elements(heap)} | e in Elements(heap) :: e.timeout > now
      ensures var ready := ReadyBinds(popped, old(Calls(known)));
        out' == out + ready && delivered == old(delivered) + ready && cnt == |ready|
    {
      hide HeapOk, BooksOk, Drained, ReadyBinds;
      cnt, out', popped := 0, out, [];
      DrainStart(heap, Calls(known), owner, delivered, accepted, now);
      NoneReady(Calls(known));
      while heap != []
        invariant Valid() && known == old(known) && accepted == old(accepted)
        invariant Drained(old(Elements(heap)), old(Calls(known)), popped, now, Elements(heap), Calls(known))
        invariant out' == out + ReadyBinds(popped, old(Calls(known)))
        invariant delivered == old(delivered) + ReadyBinds(popped, old(Calls(known)))
        invariant cnt == |ReadyBinds(popped, old(Calls(known)))|
        decreases |heap|
      {
        TopIsLeast(heap, known);
        if heap[0].timeout > now {
          break;
        }
        DrainStep(old(Elements(heap)), old(Calls(known)), popped, now, Elements(heap), Calls(known), heap[0]);
        popped := popped + [heap[0]];
        var n;
        n, out' := PopRoot(out');
        cnt := cnt + n;
      }
    }
  }

  lemma NoneReady(calls: map<TimerData, seq<Callback>>)
    ensures ReadyBinds([], calls) == []
  {
  }
}
