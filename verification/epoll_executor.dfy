/** The blocking executor: the timer queue driven through one timer file descriptor. */
module EpollExecutors {
  import opened Wrappers
  import opened HeapOrder
  import opened TimerQueue
  import opened TimerRuns

  /** While a timer waits, the event loop will be woken no later than the earliest timeout. */
  ghost predicate HeapAwake(alarm: Alarm, heap: seq<Element>) {
    heap != [] ==> alarm.ready || alarm.inFlight > 0 || (alarm.armed.Some? && alarm.armed.value <= heap[0].timeout)
  }

  // A heap whose times all come from another one is not due earlier.
  lemma FewerNotEarlier(heap: seq<Element>, heap': seq<Element>)
    requires Ordered(Times(heap)) && heap' != []
    requires forall e {:trigger e in Elements(heap')} | e in Elements(heap') :: exists f ::
      f in Elements(heap) && f.timeout == e.timeout
    ensures heap != [] && heap[0].timeout <= heap'[0].timeout
  {
    assert heap'[0] in Elements(heap');
    var f :| f in Elements(heap) && f.timeout == heap'[0].timeout;
    RootComesFirst(heap);
  }

  lemma AwakeAfterCancel(alarm: Alarm, heap: seq<Element>, heap': seq<Element>, d: TimerData)
    requires HeapAwake(alarm, heap) && Ordered(Times(heap)) && Elements(heap') == WithoutTimer(Elements(heap), d)
    ensures HeapAwake(alarm, heap')
  {
    if heap' != [] {
      FewerNotEarlier(heap, heap');
    }
  }

  lemma AwakeAfterMove(alarm: Alarm, heap: seq<Element>, heap': seq<Element>, dst: TimerData, src: TimerData)
    requires HeapAwake(alarm, heap) && Ordered(Times(heap))
    requires Elements(heap') == RenamedEntries(Elements(heap), dst, src)
    ensures HeapAwake(alarm, heap')
  {
    if heap' != [] {
      FewerNotEarlier(heap, heap');
    }
  }

  // Whether a new entry would become the root.
  ghost predicate Earliest(heap: seq<Element>, e: Element) {
    e.data !in Waiting(Elements(heap)) && (heap == [] || e.timeout < heap[0].timeout)
  }

  lemma AwakeAfterEnqueue(alarm: Alarm, heap: seq<Element>, heap': seq<Element>, e: Element)
    requires Ordered(Times(heap)) && Ordered(Times(heap'))
    requires Elements(heap') == if e.data in Waiting(Elements(heap)) then Elements(heap) else Elements(heap) + {e}
    ensures Earliest(heap, e) ==> heap' != [] && heap'[0] == e
    ensures HeapAwake(alarm, heap) && !Earliest(heap, e) ==> HeapAwake(alarm, heap')
  {
    if Earliest(heap, e) {
      LoneLeastIsRoot(heap, heap', e);
    } else if heap' != [] {
      assert heap'[0] in Elements(heap');
      if heap != [] {
        RootComesFirst(heap);
      }
    }
  }

  lemma HeapIsOrdered(heap: seq<Element>, known: set<TimerData>)
    requires HeapOk(heap, known)
    ensures Ordered(Times(heap))
  {
  }

  class EpollExecutor {
    const timerfd: TimerFD
    var queue: seq<Bind>
    var alarm: Alarm
    // The callbacks that have been run.
    var executed: seq<Bind>

    ghost predicate Valid()
      reads this, timerfd, timerfd.known
    {
      timerfd.Valid()
    }

    constructor ()
      ensures Valid() && fresh(timerfd) && timerfd.known == {} && timerfd.heap == []
      ensures timerfd.accepted == {} && timerfd.delivered == queue == executed == [] && alarm == Alarm(None, false, 0)
    {
      hide HeapOk, BooksOk;
      timerfd := new TimerFD();
      queue, alarm, executed := [], Alarm(None, false, 0), [];
    }

    /**
     Setting the descriptor to a negative time ends the process. Otherwise the
     wake-up is lost exactly if a new earliest timer is set for the time zero,
     with no worker about to look at the heap.
     */
    method ScheduleTimer(d: TimerData, timeout: int, callback: Callback) returns (alive: bool)
      requires Valid() && d in timerfd.known && callback !in timerfd.accepted
      modifies `alarm, timerfd, d`callbacks, timerfd.known`heapIndex
      ensures Valid() && timerfd.known == old(timerfd.known) && timerfd.delivered == old(timerfd.delivered)
      ensures timerfd.accepted == old(timerfd.accepted) + {callback}
      ensures Calls(timerfd.known) == old(Calls(timerfd.known))[d := old(d.callbacks) + [callback]]
      ensures Elements(timerfd.heap) == if d in Waiting(old(Elements(timerfd.heap))) then old(Elements(timerfd.heap))
                                        else old(Elements(timerfd.heap)) + {Element(timeout, d)}
      ensures alarm == if old(Earliest(timerfd.heap, Element(timeout, d))) && timeout >= 0 then
        SetTimer(old(alarm), timeout) else old(alarm)
      ensures alive <==> !(old(Earliest(timerfd.heap, Element(timeout, d))) && timeout < 0)
      ensures alive && old(HeapAwake(alarm, timerfd.heap)) ==>
        (HeapAwake(alarm, timerfd.heap) <==>
         !(old(Earliest(timerfd.heap, Element(timeout, d))) && timeout == 0 && alarm.inFlight == 0))
    {
      hide HeapOk, BooksOk, Waiting, Calls, Ordered, Elements;
      ghost var heap := timerfd.heap;
      HeapIsOrdered(heap, timerfd.known);
      var earliest := timerfd.EnqueueTimer(d, timeout, callback);
      HeapIsOrdered(timerfd.heap, timerfd.known);
      AwakeAfterEnqueue(alarm, heap, timerfd.heap, Element(timeout, d));
      alive := !earliest || timeout >= 0;
      if earliest && timeout >= 0 {
        alarm := SetTimer(alarm, timeout);
      }
    }

    /** Cancelling never needs the descriptor to be set again. */
    method CancelTimer(d: TimerData) returns (cnt: nat)
      requires Valid() && d in timerfd.known
      modifies `queue, timerfd, d`callbacks, timerfd.known`heapIndex
      ensures Valid() && timerfd.known == old(timerfd.known) && timerfd.accepted == old(timerfd.accepted)
      ensures queue == old(queue) + Bound(old(d.callbacks), Cancelled) && cnt == |old(d.callbacks)|
      ensures timerfd.delivered == old(timerfd.delivered) + Bound(old(d.callbacks), Cancelled)
      ensures Elements(timerfd.heap) == WithoutTimer(old(Elements(timerfd.heap)), d)
      ensures Calls(timerfd.known) == old(Calls(timerfd.known))[d := []]
      ensures old(HeapAwake(alarm, timerfd.heap)) ==> HeapAwake(alarm, timerfd.heap)
    {
      hide HeapOk, BooksOk, Calls, Ordered, Elements, Without, WithoutTimer;
      ghost var heap := timerfd.heap;
      HeapIsOrdered(heap, timerfd.known);
      cnt, queue := timerfd.CancelTimer(d, queue);
      if HeapAwake(alarm, heap) {
        AwakeAfterCancel(alarm, heap, timerfd.heap, d);
      }
    }

    /** The target's own callbacks are cancelled first; then it takes over what src had. */
    method MoveTimer(dst: TimerData, src: TimerData) returns (cnt: nat)
      requires Valid() && dst in timerfd.known && src in timerfd.known && dst != src
      modifies `queue, timerfd, dst`callbacks, src`callbacks, timerfd.known`heapIndex
      ensures Valid() && timerfd.known == old(timerfd.known) && timerfd.accepted == old(timerfd.accepted)
      ensures queue == old(queue) + Bound(old(dst.callbacks), Cancelled) && cnt == |old(dst.callbacks)|
      ensures timerfd.delivered == old(timerfd.delivered) + Bound(old(dst.callbacks), Cancelled)
      ensures Elements(timerfd.heap) == RenamedEntries(WithoutTimer(old(Elements(timerfd.heap)), dst), dst, src)
      ensures Calls(timerfd.known) == old(Calls(timerfd.known))[dst := old(src.callbacks)][src := []]
      ensures old(HeapAwake(alarm, timerfd.heap)) ==> HeapAwake(alarm, timerfd.heap)
    {
      hide HeapOk, BooksOk, Calls, Ordered, Elements, Without, WithoutTimer, Renamed, RenamedEntries, Waiting;
      ghost var calls, moved := Calls(timerfd.known), src.callbacks;
      HeldBy(timerfd.known, src);
      cnt := CancelTimer(dst);
      HeldBy(timerfd.known, src);
      ghost var heap := timerfd.heap;
      HeapIsOrdered(heap, timerfd.known);
      WithoutIsIdle(old(Elements(timerfd.heap)), dst);
      timerfd.MoveTimer(dst, src);
      Overwritten(calls, dst, moved);
      if HeapAwake(alarm, heap) {
        AwakeAfterMove(alarm, heap, timerfd.heap, dst, src);
      }
    }

    // The armed time passes.
    method Expire(now: int)
      requires Valid()
      modifies `alarm
      ensures Valid() && alarm == Expired(old(alarm), now)
      ensures old(HeapAwake(alarm, timerfd.heap)) ==> HeapAwake(alarm, timerfd.heap)
    {
      if alarm.armed.Some? && alarm.armed.value <= now {
        alarm := alarm.(armed := None, ready := true);
      }
    }

    // A worker's epoll_wait returns the timer event. It is edge-triggered: reported once.
    method Poll()
      requires Valid()
      modifies `alarm
      ensures Valid() && alarm == Reported(old(alarm))
      ensures old(HeapAwake(alarm, timerfd.heap)) ==> HeapAwake(alarm, timerfd.heap)
    {
      if alarm.ready {
        alarm := alarm.(ready := false, inFlight := alarm.inFlight + 1);
      }
    }

    /** A worker handles the timer event: whatever the descriptor was set to, the wake-up is in place afterwards. */
    method HandleTimerEvent(now: int) returns (alive: bool, ghost popped: seq<Element>)
      requires Valid() && alarm.inFlight > 0
      modifies `queue, `alarm, timerfd, timerfd.known
      ensures Valid() && timerfd.known == old(timerfd.known) && timerfd.accepted == old(timerfd.accepted)
      ensures Drained(old(Elements(timerfd.heap)), old(Calls(timerfd.known)), popped, now, Elements(timerfd.heap),
        Calls(timerfd.known))
      ensures forall e {:trigger e in Elements(timerfd.heap)} | e in Elements(timerfd.heap) :: e.timeout > now
      ensures var ready := ReadyBinds(popped, old(Calls(timerfd.known)));
        queue == old(queue) + ready && timerfd.delivered == old(timerfd.delivered) + ready
      ensures alive <==> timerfd.heap == [] || timerfd.heap[0].timeout >= 0
      ensures var left := old(alarm).(inFlight := old(alarm).inFlight - 1);
        alarm == if timerfd.heap != [] && timerfd.heap[0].timeout >= 0 then
          SetTimer(left, timerfd.heap[0].timeout) else left
      ensures now >= 0 ==> alive && HeapAwake(alarm, timerfd.heap)
    {
      hide HeapOk, BooksOk, Drained, ReadyBinds, Ordered, Calls;
      var cnt;
      cnt, queue, popped := timerfd.PopReadyTimerItems(now, queue);
      alive := true;
      alarm := alarm.(inFlight := alarm.inFlight - 1);
      if timerfd.heap != [] {
        var earliest := timerfd.heap[0].timeout;
        assert timerfd.heap[0] in Elements(timerfd.heap);
        alive := earliest >= 0;
        if alive {
          alarm := SetTimer(alarm, earliest);
        }
      }
    }

    // A worker runs the first callback of the queue.
    method RunFront()
      requires Valid()
      modifies `queue, `executed
      ensures Valid()
      ensures if old(queue) == [] then queue == old(queue) && executed == old(executed)
              else queue == old(queue)[1..] && executed == old(executed) + [old(queue)[0]]
    {
      if queue != [] {
        executed, queue := executed + [queue[0]], queue[1..];
      }
    }
  }

  lemma HeldBy(known: set<TimerData>, d: TimerData)
    requires d in known
    ensures d in Calls(known) && Calls(known)[d] == d.callbacks
  {
  }

  lemma Overwritten(calls: map<TimerData, seq<Callback>>, d: TimerData, s: seq<Callback>)
    ensures calls[d := []][d := s] == calls[d := s]
  {
  }

  lemma WithoutIsIdle(elements: set<Element>, d: TimerData)
    ensures d !in Waiting(WithoutTimer(elements, d))
  {
  }

  ghost predicate DistinctTimers(data: seq<TimerData>) {
    forall i, j {:trigger data[i], data[j]} | 0 <= i < j < |data| :: data[i] != data[j]
  }

  /** The entries of the heap and the callbacks of the timers are those of the numbered timers. */
  ghost predicate Mirrors(
    elements: set<Element>, calls: map<TimerData, seq<Callback>>, data: seq<TimerData>, timers: seq<Timer>) {
    && |data| == |timers| && DistinctTimers(data)
    && (forall i {:trigger data[i]} {:trigger timers[i]} | 0 <= i < |data| ::
          data[i] in calls && calls[data[i]] == timers[i].held)
    && (forall i, t {:trigger Element(t, data[i])} | 0 <= i < |data| ::
          Element(t, data[i]) in elements <==> timers[i].due == Some(t))
    && (forall e {:trigger e in elements} | e in elements :: e.data in data)
    && (forall d {:trigger d in calls} | d in calls :: d in data)
  }

  lemma WaitingIff(elements: set<Element>, d: TimerData, due: Option<int>)
    requires forall t {:trigger Element(t, d)} :: Element(t, d) in elements <==> due == Some(t)
    ensures d in Waiting(elements) <==> due.Some?
  {
    if d in Waiting(elements) {
      var e :| e in elements && e.data == d;
      assert e == Element(e.timeout, d);
    }
    if due.Some? {
      assert Element(due.value, d) in elements;
    }
  }

  lemma WaitingMirrors(
    elements: set<Element>, calls: map<TimerData, seq<Callback>>, data: seq<TimerData>, timers: seq<Timer>, i: nat)
    requires Mirrors(elements, calls, data, timers) && i < |data|
    ensures data[i] in Waiting(elements) <==> timers[i].due.Some?
  {
    forall t ensures Element(t, data[i]) in elements <==> timers[i].due == Some(t) {
    }
    WaitingIff(elements, data[i], timers[i].due);
  }

  lemma MirrorsAdd(
    elements: set<Element>, calls: map<TimerData, seq<Callback>>, data: seq<TimerData>, timers: seq<Timer>,
    i: nat, timeout: int, c: Callback)
    requires Mirrors(elements, calls, data, timers) && i < |data|
    ensures var elements' := if data[i] in Waiting(elements) then elements else elements + {Element(timeout, data[i])};
      Mirrors(elements', calls[data[i] := calls[data[i]] + [c]], data, timers[i := Waits(timers[i], timeout, c)])
  {
    WaitingMirrors(elements, calls, data, timers, i);
    hide Waiting;
  }

  lemma MirrorsDrop(
    elements: set<Element>, calls: map<TimerData, seq<Callback>>, data: seq<TimerData>, timers: seq<Timer>, i: nat)
    requires Mirrors(elements, calls, data, timers) && i < |data|
    ensures Mirrors(WithoutTimer(elements, data[i]), calls[data[i] := []], data, timers[i := IDLE])
  {
  }

  lemma RenamedEntry(elements: set<Element>, dst: TimerData, src: TimerData, t: int, d: TimerData)
    requires dst != src && dst !in Waiting(elements)
    ensures Element(t, d) in RenamedEntries(elements, dst, src) <==>
      if d == dst then Element(t, src) in elements else d != src && Element(t, d) in elements
  {
    var e := Element(t, d);
    if e in RenamedEntries(elements, dst, src) {
      var f :| f in elements && e == if f.data == src then Element(f.timeout, dst) else f;
      assert f == Element(f.timeout, f.data) && f.data in Waiting(elements);
    }
    var f := if d == dst then Element(t, src) else e;
    if f in elements && d != src {
      assert e == if f.data == src then Element(f.timeout, dst) else f;
    }
  }

  lemma RenamedCalls(calls: map<TimerData, seq<Callback>>, dst: TimerData, src: TimerData, d: TimerData)
    requires dst != src && dst in calls && src in calls && d in calls
    ensures var calls' := calls[dst := calls[src]][src := []];
      d in calls' && calls'[d] == if d == dst then calls[src] else if d == src then [] else calls[d]
  {
  }

  // The timers after timer j has become timer i.
  function Shifted(timers: seq<Timer>, i: nat, j: nat): (r: seq<Timer>)
    requires i < |timers| && j < |timers| && i != j
    ensures |r| == |timers| && r[i] == timers[j] && r[j] == IDLE
    ensures forall k {:trigger r[k]} | 0 <= k < |r| && k != i && k != j :: r[k] == timers[k]
  {
    timers[i := timers[j]][j := IDLE]
  }

  // The numbered timers see the renamed entries.
  lemma RenameEntries(
    elements: set<Element>, calls: map<TimerData, seq<Callback>>, data: seq<TimerData>, timers: seq<Timer>,
    i: nat, j: nat, k: nat, t: int)
    requires Mirrors(elements, calls, data, timers) && i < |data| && j < |data| && i != j && timers[i] == IDLE
    requires k < |data|
    ensures Element(t, data[k]) in RenamedEntries(elements, data[i], data[j]) <==>
      Shifted(timers, i, j)[k].due == Some(t)
  {
    var dst, src := data[i], data[j];
    WaitingMirrors(elements, calls, data, timers, i);
    assert (data[k] == dst <==> k == i) && (data[k] == src <==> k == j);
    assert Element(t, data[k]) in elements <==> timers[k].due == Some(t);
    assert Element(t, src) in elements <==> timers[j].due == Some(t);
    hide Mirrors, RenamedEntries, Waiting;
    RenamedEntry(elements, dst, src, t, data[k]);
  }

  lemma RenameCalls(
    elements: set<Element>, calls: map<TimerData, seq<Callback>>, data: seq<TimerData>, timers: seq<Timer>,
    i: nat, j: nat, k: nat)
    requires Mirrors(elements, calls, data, timers) && i < |data| && j < |data| && i != j
    requires k < |data|
    ensures data[i] in calls && data[j] in calls && data[k] in calls
    ensures calls[data[i] := calls[data[j]]][data[j] := []][data[k]] == Shifted(timers, i, j)[k].held
  {
    var dst, src := data[i], data[j];
    assert dst in calls && src in calls && data[k] in calls && calls[data[k]] == timers[k].held;
    assert calls[src] == timers[j].held;
    assert (data[k] == dst <==> k == i) && (data[k] == src <==> k == j);
    hide Mirrors;
    RenamedCalls(calls, dst, src, data[k]);
  }

  // Nobody else gets an entry or callbacks.
  lemma RenamedKnown(
    elements: set<Element>, calls: map<TimerData, seq<Callback>>, data: seq<TimerData>, timers: seq<Timer>,
    i: nat, j: nat)
    requires Mirrors(elements, calls, data, timers) && i < |data| && j < |data| && i != j && timers[i] == IDLE
    ensures data[i] in calls && data[j] in calls
    ensures forall e {:trigger e in RenamedEntries(elements, data[i], data[j])}
      | e in RenamedEntries(elements, data[i], data[j]) :: e.data in data
    ensures calls[data[i] := calls[data[j]]][data[j] := []].Keys == calls.Keys
  {
    WaitingMirrors(elements, calls, data, timers, i);
    hide RenamedEntries, Waiting;
    forall e | e in RenamedEntries(elements, data[i], data[j]) ensures e.data in data {
      RenamedEntry(elements, data[i], data[j], e.timeout, e.data);
      assert e == Element(e.timeout, e.data);
    }
  }

  lemma MirrorsRename(
    elements: set<Element>, calls: map<TimerData, seq<Callback>>, data: seq<TimerData>, timers: seq<Timer>,
    i: nat, j: nat)
    requires Mirrors(elements, calls, data, timers) && i < |data| && j < |data| && i != j && timers[i] == IDLE
    ensures Mirrors(RenamedEntries(elements, data[i], data[j]), calls[data[i] := calls[data[j]]][data[j] := []], data,
      Shifted(timers, i, j))
  {
    var dst, src := data[i], data[j];
    var elements', calls', timers' :=
      RenamedEntries(elements, dst, src), calls[dst := calls[src]][src := []], Shifted(timers, i, j);
    assert |timers'| == |timers|;
    RenamedKnown(elements, calls, data, timers, i, j);
    hide Shifted, RenamedEntries, Waiting, DistinctTimers;
    forall k, t | 0 <= k < |data| ensures Element(t, data[k]) in elements' <==> timers'[k].due == Some(t) {
      RenameEntries(elements, calls, data, timers, i, j, k, t);
    }
    forall k | 0 <= k < |data| ensures data[k] in calls' && calls'[data[k]] == timers'[k].held {
      RenameCalls(elements, calls, data, timers, i, j, k);
    }
  }

  // What a move does to the numbered timers.
  lemma MirrorsMove(
    elements: set<Element>, calls: map<TimerData, seq<Callback>>, data: seq<TimerData>, s: Loop, i: nat, j: nat)
    requires Mirrors(elements, calls, data, s.timers) && i < |data| && j < |data| && i != j
    ensures |data| == |s.timers| && data[i] in calls && data[j] in calls && data[i] != data[j]
    ensures Mirrors(RenamedEntries(WithoutTimer(elements, data[i]), data[i], data[j]),
      calls[data[i] := calls[data[j]]][data[j] := []], data, Moves(s, i, j).timers)
  {
    MirrorsDrop(elements, calls, data, s.timers, i);
    MirrorsRename(WithoutTimer(elements, data[i]), calls[data[i] := []], data, s.timers[i := IDLE], i, j);
    assert data[i] in calls && data[j] in calls && data[i] != data[j];
    hide Mirrors, RenamedEntries, WithoutTimer, Bound;
    Overwritten(calls, data[i], calls[data[j]]);
    assert Moves(s, i, j).timers == Shifted(s.timers[i := IDLE], i, j);
  }

  lemma DueHasEntry(
    elements: set<Element>, calls: map<TimerData, seq<Callback>>, data: seq<TimerData>, timers: seq<Timer>, i: nat)
    requires Mirrors(elements, calls, data, timers) && i < |data|
    ensures timers[i].due.Some? ==> Element(timers[i].due.value, data[i]) in elements
  {
  }

  /** The root of the heap is due next. */
  lemma RootIsNext(heap: seq<Element>, calls: map<TimerData, seq<Callback>>, data: seq<TimerData>, timers: seq<Timer>)
    requires Ordered(Times(heap)) && Mirrors(Elements(heap), calls, data, timers)
    ensures NextDue(timers) == if heap == [] then None else Some(heap[0].timeout)
  {
    NextDueIs(timers);
    hide NextDue, Ordered;
    if heap == [] {
      forall i | 0 <= i < |timers| ensures timers[i].due == None {
        DueHasEntry(Elements(heap), calls, data, timers, i);
      }
    } else {
      RootComesFirst(heap);
      var k :| 0 <= k < |data| && data[k] == heap[0].data;
      assert Element(heap[0].timeout, data[k]) in Elements(heap);
      assert timers[k].due == Some(heap[0].timeout);
      var i :| 0 <= i < |timers| && timers[i].due == NextDue(timers);
      assert Element(timers[i].due.value, data[i]) in Elements(heap);
    }
  }

  lemma EarliestIsLeads(
    heap: seq<Element>, calls: map<TimerData, seq<Callback>>, data: seq<TimerData>, timers: seq<Timer>,
    i: nat, timeout: int)
    requires Ordered(Times(heap)) && Mirrors(Elements(heap), calls, data, timers) && i < |data|
    ensures Earliest(heap, Element(timeout, data[i])) <==> Leads(timers, i, timeout)
  {
    RootIsNext(heap, calls, data, timers);
    WaitingMirrors(Elements(heap), calls, data, timers, i);
    hide Mirrors, Ordered, Waiting, NextDue;
  }

  // The number of a timer.
  ghost function NumberOf(data: seq<TimerData>, d: TimerData): (i: nat)
    requires d in data
    ensures i < |data| && data[i] == d
  {
    if data[0] == d then 0 else 1 + NumberOf(data[1..], d)
  }

  // The numbers of the timers popped.
  ghost function OrderOf(data: seq<TimerData>, popped: seq<Element>): (r: seq<nat>)
    ensures |r| == |popped|
  {
    if popped == [] then []
    else
      var n := |popped| - 1;
      OrderOf(data, popped[..n]) + [if popped[n].data in data then NumberOf(data, popped[n].data) else 0]
  }

  lemma {:induction false} OrderAt(data: seq<TimerData>, popped: seq<Element>, k: nat)
    requires k < |popped| && popped[k].data in data
    ensures OrderOf(data, popped)[k] == NumberOf(data, popped[k].data)
  {
    hide NumberOf;
    var n := |popped| - 1;
    if k < n {
      OrderAt(data, popped[..n], k);
    }
  }

  lemma {:induction false} ReadySame(
    calls: map<TimerData, seq<Callback>>, data: seq<TimerData>, timers: seq<Timer>, popped: seq<Element>)
    requires |data| == |timers| && forall k {:trigger popped[k]} | 0 <= k < |popped| :: popped[k].data in data
    requires forall i {:trigger data[i]} | 0 <= i < |data| :: data[i] in calls && calls[data[i]] == timers[i].held
    ensures ReadyBinds(popped, calls) == ReadyOf(timers, OrderOf(data, popped))
  {
    if popped != [] {
      hide NumberOf, Bound;
      var n := |popped| - 1;
      ReadySame(calls, data, timers, popped[..n]);
      var i := NumberOf(data, popped[n].data);
      assert calls[data[i]] == timers[i].held;
      assert OrderOf(data, popped)[..n] == OrderOf(data, popped[..n]);
    }
  }

  // Every popped entry is that of a due timer.
  ghost predicate PoppedDue(
    data: seq<TimerData>, timers: seq<Timer>, order: seq<nat>, popped: seq<Element>, now: int) {
    && |order| == |popped|
    && forall k {:trigger popped[k]} {:trigger order[k]} | 0 <= k < |popped| ::
         && order[k] < |data| == |timers| && popped[k] == Element(DueAt(timers, order[k]), data[order[k]])
         && DueBy(timers[order[k]], now)
  }

  lemma PoppedAreDue(
    elements: set<Element>, calls: map<TimerData, seq<Callback>>, data: seq<TimerData>, timers: seq<Timer>,
    popped: seq<Element>, now: int, elements': set<Element>, calls': map<TimerData, seq<Callback>>)
    requires Mirrors(elements, calls, data, timers) && Drained(elements, calls, popped, now, elements', calls')
    ensures PoppedDue(data, timers, OrderOf(data, popped), popped, now)
  {
    hide NoRepeats, Nondecreasing, OrderOf;
    var order := OrderOf(data, popped);
    forall k | 0 <= k < |popped|
      ensures order[k] < |data| == |timers| && popped[k] == Element(DueAt(timers, order[k]), data[order[k]])
        && DueBy(timers[order[k]], now)
    {
      var e := popped[k];
      assert e in popped && e in elements;
      OrderAt(data, popped, k);
      var i := NumberOf(data, e.data);
      assert e == Element(e.timeout, data[i]);
    }
  }

  // No timer leaves twice, and the earlier leave first.
  lemma PoppedInTurn(data: seq<TimerData>, timers: seq<Timer>, order: seq<nat>, popped: seq<Element>, now: int)
    requires PoppedDue(data, timers, order, popped, now) && NoRepeats(popped) && Nondecreasing(popped)
    ensures NoRepeats(order)
    ensures forall j, k {:trigger order[j], order[k]} | 0 <= j < k < |order| ::
      DueAt(timers, order[j]) <= DueAt(timers, order[k])
  {
    hide DueBy, DueAt;
    forall j, k {:trigger order[j], order[k]} | 0 <= j < k < |order|
      ensures order[j] != order[k] && DueAt(timers, order[j]) <= DueAt(timers, order[k])
    {
      assert popped[j] != popped[k] && popped[j].timeout <= popped[k].timeout;
    }
  }

  // A due timer leaves.
  lemma DueLeaves(
    elements: set<Element>, calls: map<TimerData, seq<Callback>>, data: seq<TimerData>, timers: seq<Timer>,
    popped: seq<Element>, now: int, elements': set<Element>, calls': map<TimerData, seq<Callback>>, i: nat)
    requires Mirrors(elements, calls, data, timers) && Drained(elements, calls, popped, now, elements', calls')
    requires forall e {:trigger e in elements'} | e in elements' :: e.timeout > now
    requires i < |timers| && DueBy(timers[i], now)
    ensures i in OrderOf(data, popped)
  {
    PoppedAreDue(elements, calls, data, timers, popped, now, elements', calls');
    hide OrderOf, Nondecreasing, NoRepeats;
    var order := OrderOf(data, popped);
    var e := Element(timers[i].due.value, data[i]);
    assert e in elements && e !in elements' && e in popped;
    var k :| 0 <= k < |popped| && popped[k] == e;
    hide Drained, DueBy;
    assert data[order[k]] == data[i];
    assert order[k] == i;
  }

  /** The timers leave in turn. */
  lemma DrainedIsRipe(
    elements: set<Element>, calls: map<TimerData, seq<Callback>>, data: seq<TimerData>, timers: seq<Timer>,
    popped: seq<Element>, now: int, elements': set<Element>, calls': map<TimerData, seq<Callback>>)
    requires Mirrors(elements, calls, data, timers) && Drained(elements, calls, popped, now, elements', calls')
    requires forall e {:trigger e in elements'} | e in elements' :: e.timeout > now
    ensures Ripe(timers, now, OrderOf(data, popped))
  {
    hide OrderOf, Mirrors, Nondecreasing, NoRepeats, DueAt, DueBy;
    var order := OrderOf(data, popped);
    PoppedAreDue(elements, calls, data, timers, popped, now, elements', calls');
    PoppedInTurn(data, timers, order, popped, now);
    hide Drained;
    forall i: nat ensures i in order <==> i < |timers| && DueBy(timers[i], now) {
      if i in order {
        var k :| 0 <= k < |order| && order[k] == i;
        assert popped[k] == popped[k];
      } else if i < |timers| && DueBy(timers[i], now) {
        DueLeaves(elements, calls, data, timers, popped, now, elements', calls', i);
      }
    }
  }

  lemma MirrorsDrain(
    elements: set<Element>, calls: map<TimerData, seq<Callback>>, data: seq<TimerData>, timers: seq<Timer>,
    popped: seq<Element>, now: int, elements': set<Element>, calls': map<TimerData, seq<Callback>>)
    requires Mirrors(elements, calls, data, timers) && Drained(elements, calls, popped, now, elements', calls')
    requires forall e {:trigger e in elements'} | e in elements' :: e.timeout > now
    requires Busy(elements', calls') && calls'.Keys == calls.Keys && Tidy(Loop([], [], timers, Alarm(None, false, 0)))
    ensures Mirrors(elements', calls', data, Emptied(timers, now))
  {
    var timers' := Emptied(timers, now);
    forall i | 0 <= i < |data| ensures timers'[i] == if DueBy(timers[i], now) then IDLE else timers[i] {
    }
    hide Emptied;
    forall i, t | 0 <= i < |data| ensures Element(t, data[i]) in elements' <==> timers'[i].due == Some(t) {
      var e := Element(t, data[i]);
      assert e in elements <==> timers[i].due == Some(t);
      if e in elements && e !in elements' {
        assert e in popped;
      }
    }
    forall i | 0 <= i < |data| ensures data[i] in calls' && calls'[data[i]] == timers'[i].held {
      assert data[i] in calls && calls[data[i]] == timers[i].held;
      if timers'[i].due.Some? {
        var e := Element(timers'[i].due.value, data[i]);
        assert e in elements';
      } else {
        forall t ensures Element(t, data[i]) in elements' <==> timers'[i].due == Some(t) {
        }
        WaitingIff(elements', data[i], timers'[i].due);
        assert timers'[i].held == [];
      }
    }
  }

  /** The executor and its timers are in the given state. */
  ghost predicate Shows(ex: EpollExecutor, data: seq<TimerData>, s: Loop)
    reads ex, ex.timerfd, ex.timerfd.known
  {
    && ex.Valid() && Mirrors(Elements(ex.timerfd.heap), Calls(ex.timerfd.known), data, s.timers) && Tidy(s)
    && s.executed == ex.executed && s.queued == ex.queue && s.alarm == ex.alarm
  }

  lemma DataKnown(ex: EpollExecutor, data: seq<TimerData>, s: Loop, i: nat)
    requires Shows(ex, data, s) && i < |data|
    ensures |data| == |s.timers| && data[i] in ex.timerfd.known && data[i].callbacks == s.timers[i].held
  {
    hide HeapOk, BooksOk, Tidy, Elements;
    assert data[i] in Calls(ex.timerfd.known);
  }

  lemma HeapOrdered(ex: EpollExecutor)
    requires ex.Valid()
    ensures Ordered(Times(ex.timerfd.heap))
  {
    hide BooksOk;
    HeapIsOrdered(ex.timerfd.heap, ex.timerfd.known);
  }

  lemma Sized(ex: EpollExecutor, data: seq<TimerData>, s: Loop)
    requires Shows(ex, data, s)
    ensures |data| == |s.timers|
  {
    hide HeapOk, BooksOk, Tidy, Elements, Calls;
  }

  method DoSchedule(ex: EpollExecutor, data: seq<TimerData>, i: nat, timeout: int, c: Callback, ghost s: Loop)
    returns (alive: bool)
    requires Shows(ex, data, s) && i < |data| && c !in ex.timerfd.accepted
    modifies ex, ex.timerfd, ex.timerfd.known
    ensures i < |s.timers| && (alive <==> Scheduled(s, i, timeout, c).Some?)
    ensures alive ==> Shows(ex, data, Scheduled(s, i, timeout, c).value)
    ensures ex.timerfd.known == old(ex.timerfd.known) && ex.timerfd.accepted == old(ex.timerfd.accepted) + {c}
  {
    hide HeapOk, BooksOk, Mirrors, Calls, Elements, Ordered, Waiting, Leads, HeapAwake, Earliest;
    DataKnown(ex, data, s, i);
    HeapOrdered(ex);
    ghost var elements, calls := Elements(ex.timerfd.heap), Calls(ex.timerfd.known);
    HeldBy(ex.timerfd.known, data[i]);
    EarliestIsLeads(ex.timerfd.heap, calls, data, s.timers, i, timeout);
    MirrorsAdd(elements, calls, data, s.timers, i, timeout, c);
    StepTidy(s, Schedule(i, timeout, c), []);
    hide Tidy;
    alive := ex.ScheduleTimer(data[i], timeout, c);
  }

  method DoCancel(ex: EpollExecutor, data: seq<TimerData>, i: nat, ghost s: Loop)
    requires Shows(ex, data, s) && i < |data|
    modifies ex, ex.timerfd, ex.timerfd.known
    ensures i < |s.timers| && Shows(ex, data, Cancels(s, i))
    ensures ex.timerfd.known == old(ex.timerfd.known) && ex.timerfd.accepted == old(ex.timerfd.accepted)
  {
    hide HeapOk, BooksOk, Mirrors, Calls, Elements, HeapAwake, WithoutTimer, Bound;
    DataKnown(ex, data, s, i);
    MirrorsDrop(Elements(ex.timerfd.heap), Calls(ex.timerfd.known), data, s.timers, i);
    StepTidy(s, Cancel(i), []);
    hide Tidy;
    var _ := ex.CancelTimer(data[i]);
  }

  method DoMove(ex: EpollExecutor, data: seq<TimerData>, i: nat, j: nat, ghost s: Loop)
    requires Shows(ex, data, s) && i < |data| && j < |data| && i != j
    modifies ex, ex.timerfd, ex.timerfd.known
    ensures |data| == |s.timers| && Shows(ex, data, Moves(s, i, j))
    ensures ex.timerfd.known == old(ex.timerfd.known) && ex.timerfd.accepted == old(ex.timerfd.accepted)
  {
    hide HeapOk, BooksOk, Mirrors, Calls, Elements, HeapAwake, WithoutTimer, RenamedEntries, Bound, Tidy;
    DataKnown(ex, data, s, i);
    DataKnown(ex, data, s, j);
    MirrorsMove(Elements(ex.timerfd.heap), Calls(ex.timerfd.known), data, s, i, j);
    HeldBy(ex.timerfd.known, data[j]);
    StepTidy(s, Move(i, j), []);
    var _ := ex.MoveTimer(data[i], data[j]);
  }

  // The timers are busy exactly while they are in the heap.
  lemma ShownBusy(ex: EpollExecutor)
    requires ex.Valid()
    ensures Busy(Elements(ex.timerfd.heap), Calls(ex.timerfd.known)) && Calls(ex.timerfd.known).Keys == ex.timerfd.known
  {
    hide HeapOk, Filed, Elements;
  }

  method DoWork(ex: EpollExecutor, data: seq<TimerData>, now: int, ghost s: Loop)
    returns (alive: bool, ghost order: seq<nat>)
    requires Shows(ex, data, s) && ex.alarm.inFlight > 0
    modifies ex, ex.timerfd, ex.timerfd.known
    ensures Ripe(s.timers, now, order) && (alive <==> Worked(s, now, order).Some?)
    ensures alive ==> Shows(ex, data, Worked(s, now, order).value)
    ensures ex.timerfd.known == old(ex.timerfd.known) && ex.timerfd.accepted == old(ex.timerfd.accepted)
  {
    hide HeapOk, BooksOk, Mirrors, Calls, Elements, HeapAwake, Drained, ReadyBinds, Ripe, Busy, Ordered;
    hide NextDue, Emptied, ReadyOf, OrderOf, Tidy;
    ghost var elements, calls := Elements(ex.timerfd.heap), Calls(ex.timerfd.known);
    ShownBusy(ex);
    ghost var popped;
    alive, popped := ex.HandleTimerEvent(now);
    ShownBusy(ex);
    order := OrderOf(data, popped);
    DrainedIsRipe(elements, calls, data, s.timers, popped, now, Elements(ex.timerfd.heap), Calls(ex.timerfd.known));
    TidyTimers(s);
    MirrorsDrain(elements, calls, data, s.timers, popped, now, Elements(ex.timerfd.heap), Calls(ex.timerfd.known));
    PoppedAreDue(elements, calls, data, s.timers, popped, now, Elements(ex.timerfd.heap), Calls(ex.timerfd.known));
    PoppedReady(elements, calls, data, s.timers, popped, now);
    HeapOrdered(ex);
    RootIsNext(ex.timerfd.heap, Calls(ex.timerfd.known), data, Emptied(s.timers, now));
    StepTidy(s, Work(now), order);
  }

  lemma TidyTimers(s: Loop)
    requires Tidy(s)
    ensures Tidy(Loop([], [], s.timers, Alarm(None, false, 0)))
  {
  }

  lemma PoppedReady(
    elements: set<Element>, calls: map<TimerData, seq<Callback>>, data: seq<TimerData>, timers: seq<Timer>,
    popped: seq<Element>, now: int)
    requires Mirrors(elements, calls, data, timers) && PoppedDue(data, timers, OrderOf(data, popped), popped, now)
    ensures ReadyBinds(popped, calls) == ReadyOf(timers, OrderOf(data, popped))
  {
    hide OrderOf, ReadyBinds, ReadyOf;
    ReadySame(calls, data, timers, popped);
  }

  method Handle(ex: EpollExecutor, data: seq<TimerData>, e: Event, ghost s: Loop)
    returns (alive: bool, ghost order: seq<nat>)
    requires Shows(ex, data, s)
    requires e.Schedule? && e.timer < |data| ==> e.callback !in ex.timerfd.accepted
    modifies ex, ex.timerfd, ex.timerfd.known
    ensures InTurn(s, e, order) && (alive <==> Step(s, e, order).Some?)
    ensures alive ==> Shows(ex, data, Step(s, e, order).value)
    ensures ex.timerfd.known == old(ex.timerfd.known)
    ensures ex.timerfd.accepted == old(ex.timerfd.accepted) + set c | c in Accepts(e, |data|)
  {
    hide HeapOk, BooksOk, Mirrors, Calls, Elements, Scheduled, Cancels, Worked, Ripe, Tidy, HeapAwake;
    Sized(ex, data, s);
    alive, order := true, [];
    StepTidy(s, e, []);
    match e
    case Schedule(i, timeout, c) =>
      if i < |data| {
        alive := DoSchedule(ex, data, i, timeout, c, s);
      }
    case Cancel(i) =>
      if i < |data| {
        DoCancel(ex, data, i, s);
      }
    case Move(i, j) =>
      if i < |data| && j < |data| && i != j {
        DoMove(ex, data, i, j, s);
      }
    case TimePasses(now) => ex.Expire(now);
    case Report => ex.Poll();
    case Work(now) =>
      if ex.alarm.inFlight > 0 {
        alive, order := DoWork(ex, data, now, s);
      } else {
        assert Worked(s, now, order) == Some(s) by { IdleWork(s, now, order); }
      }
    case RunCallback => ex.RunFront();
  }

  lemma IdleWork(s: Loop, now: int, order: seq<nat>)
    requires s.alarm.inFlight == 0
    ensures Worked(s, now, order) == Some(s)
  {
  }

  lemma MirrorsNew(
    elements: set<Element>, calls: map<TimerData, seq<Callback>>, data: seq<TimerData>, timers: seq<Timer>,
    d: TimerData)
    requires Mirrors(elements, calls, data, timers) && elements == {} && d !in data
    ensures Mirrors(elements, calls[d := []], data + [d], timers + [IDLE])
  {
  }

  // A fresh executor and its timers.
  method Begin(n: nat) returns (ex: EpollExecutor, data: seq<TimerData>)
    ensures fresh(ex) && fresh(ex.timerfd) && fresh(ex.timerfd.known) && |data| == n && Shows(ex, data, Start(n))
    ensures ex.timerfd.accepted == {}
  {
    hide HeapOk, BooksOk, Mirrors, Calls;
    ex := new EpollExecutor();
    data := [];
    NoTimers(ex);
    for i := 0 to n
      invariant fresh(ex) && fresh(ex.timerfd) && fresh(ex.timerfd.known) && |data| == i && Shows(ex, data, Start(i))
      invariant ex.timerfd.accepted == {} && ex.timerfd.heap == []
      invariant forall d {:trigger d in data} | d in data :: d in ex.timerfd.known
    {
      var d := new TimerData();
      MirrorsNew(Elements(ex.timerfd.heap), Calls(ex.timerfd.known), data, Start(i).timers, d);
      ex.timerfd.Register(d);
      assert Start(i).timers + [IDLE] == Start(i + 1).timers;
      data := data + [d];
    }
  }

  lemma NoTimers(ex: EpollExecutor)
    requires ex.timerfd.heap == [] && ex.timerfd.known == {}
    ensures Mirrors(Elements(ex.timerfd.heap), Calls(ex.timerfd.known), [], Start(0).timers)
  {
  }

  // The state the executor shows.
  method Snapshot(ex: EpollExecutor, data: seq<TimerData>, ghost s: Loop) returns (r: Loop)
    requires Shows(ex, data, s)
    ensures r == s
  {
    var heap := ex.timerfd.heap;
    var timers := seq(|data|, i requires 0 <= i < |data| reads data => Timer(data[i].callbacks, DueOf(heap, data[i])));
    r := Loop(ex.executed, ex.queue, timers, ex.alarm);
    Sized(ex, data, s);
    forall i | 0 <= i < |data| ensures timers[i] == s.timers[i] {
      DataKnown(ex, data, s, i);
      DueIsShown(ex, data, s, i);
    }
  }

  // When timer d is due.
  function DueOf(heap: seq<Element>, d: TimerData): Option<int>
    reads d`heapIndex
  {
    if 0 <= d.heapIndex < |heap| then Some(heap[d.heapIndex].timeout) else None
  }

  lemma DueIsShown(ex: EpollExecutor, data: seq<TimerData>, s: Loop, i: nat)
    requires Shows(ex, data, s) && i < |data| == |s.timers| && data[i] in ex.timerfd.known
    ensures DueOf(ex.timerfd.heap, data[i]) == s.timers[i].due
  {
    var heap, d := ex.timerfd.heap, data[i];
    WaitingHasIndex(heap, ex.timerfd.known, d);
    WaitingMirrors(Elements(heap), Calls(ex.timerfd.known), data, s.timers, i);
    if d.heapIndex != INVALID_HEAP_INDEX {
      EntryOf(heap, ex.timerfd.known, d);
      assert heap[d.heapIndex] == Element(heap[d.heapIndex].timeout, d);
    }
  }

  lemma {:induction false} RunEnds(n: nat, events: seq<Event>, orders: seq<seq<nat>>, k: nat)
    requires |events| == |orders| && k <= |events| && RunOf(n, events[..k], orders[..k]) == None
    ensures RunOf(n, events, orders) == None
    ensures AllInTurn(n, events[..k], orders[..k]) ==> AllInTurn(n, events, orders)
    decreases |events| - k
  {
    hide Step, InTurn;
    if k < |events| {
      assert events[..k + 1][..k] == events[..k] && orders[..k + 1][..k] == orders[..k];
      RunEnds(n, events, orders, k + 1);
    } else {
      assert events[..k] == events && orders[..k] == orders;
    }
  }

  lemma RunMore(n: nat, events: seq<Event>, orders: seq<seq<nat>>, order: seq<nat>, s: Loop)
    requires |orders| < |events|
    requires var k := |orders|;
      AllInTurn(n, events[..k], orders) && RunOf(n, events[..k], orders) == Some(s) && InTurn(s, events[k], order)
    ensures var k := |orders|;
      && AllInTurn(n, events[..k + 1], orders + [order])
      && RunOf(n, events[..k + 1], orders + [order]) == Step(s, events[k], order)
  {
    hide Step, InTurn;
    var k := |orders|;
    assert events[..k + 1][..k] == events[..k] && events[..k + 1][k] == events[k];
    assert (orders + [order])[..k] == orders;
  }

  // The callbacks scheduled by some events.
  ghost function Given(n: nat, events: seq<Event>): set<Callback> {
    set c | c in Accepted(n, events)
  }

  lemma GivenMore(n: nat, events: seq<Event>, k: nat)
    requires k < |events|
    ensures Given(n, events[..k + 1]) == Given(n, events[..k]) + set c | c in Accepts(events[k], n)
    ensures OwnCallbacks(events) && events[k].Schedule? ==> events[k].callback !in Given(n, events[..k])
  {
    hide Accepts;
    assert events[..k + 1][..k] == events[..k] && events[..k + 1][k] == events[k];
    if OwnCallbacks(events) && events[k].Schedule? {
      OwnPrefix(events, k + 1);
      ScheduledIsNew(n, events[..k + 1]);
    }
  }

  /**
   Runs an executor of n timers through some events. The outcome is that of the specified run, with the
   due timers leaving in turn; timers due at the same time leave in whatever order the heap has them.
   */
  method Run(n: nat, events: seq<Event>) returns (alive: bool, r: Loop, ghost orders: seq<seq<nat>>)
    requires OwnCallbacks(events)
    ensures |orders| == |events| && AllInTurn(n, events, orders)
    ensures RunOf(n, events, orders) == if alive then Some(r) else None
  {
    var ex, data := Begin(n);
    orders := [];
    ghost var s := Start(n);
    assert RunOf(n, [], orders) == Some(s) && Given(n, []) == {};
    hide Shows, Step, InTurn, OwnCallbacks, RunOf, AllInTurn, Given, Accepts;
    for k := 0 to |events|
      invariant fresh(ex) && fresh(ex.timerfd) && fresh(ex.timerfd.known) && |data| == n && Shows(ex, data, s)
      invariant |orders| == k && AllInTurn(n, events[..k], orders) && RunOf(n, events[..k], orders) == Some(s)
      invariant ex.timerfd.accepted == Given(n, events[..k])
    {
      GivenMore(n, events, k);
      ghost var order;
      alive, order := Handle(ex, data, events[k], s);
      RunMore(n, events, orders, order, s);
      orders := orders + [order];
      if !alive {
        ghost var rest := orders + seq(|events| - k - 1, _ => []);
        assert rest[..k + 1] == orders;
        RunEnds(n, events, rest, k + 1);
        orders := rest;
        return false, Start(n), orders;
      }
      s := Step(s, events[k], order).value;
    }
    assert events[..|events|] == events;
    r := Snapshot(ex, data, s);
    alive := true;
  }

  lemma OwnPrefix(events: seq<Event>, k: nat)
    requires OwnCallbacks(events) && k <= |events|
    ensures OwnCallbacks(events[..k])
  {
  }
}
