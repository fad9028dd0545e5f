/** What the completion queue is for: a finite map from fresh increasing ids to values. */
module Windows {
  import opened Wrappers

  /** The values not yet taken back, and the next id. */
  datatype Window<T> = Window(entries: map<nat, T>, next: nat)

  function Stored<T>(w: Window<T>, value: T): Window<T> {
    Window(w.entries[w.next := value], w.next + 1)
  }

  function Taken<T>(w: Window<T>, id: nat): Window<T> {
    Window(w.entries - {id}, w.next)
  }

  // Ids are handed out once, in increasing order, and all lie within n of the next one.
  ghost predicate Within<T>(w: Window<T>, n: nat) {
    forall id {:trigger id in w.entries} | id in w.entries :: 0 < id < w.next <= id + n
  }

  // An id as old as the window is wide is still out.
  predicate Spanned<T>(w: Window<T>, n: nat) {
    w.next >= n && w.next - n in w.entries
  }
}

/** The completion queue: a ring of n slots whose values leave in any order. */
module CompletionRings {
  import opened Wrappers
  import opened Windows

  // One slot on, around the ring.
  function Next(slot: nat, n: nat): (r: nat)
    requires slot < n
    ensures r < n
  {
    if slot + 1 == n then 0 else slot + 1
  }

  // The slot of an id: the first id is 1, and each id takes the next slot.
  ghost function Slot(id: nat, n: nat): (r: nat)
    requires id > 0 && n > 0
    ensures r < n
  {
    if id == 1 then 0 else Next(Slot(id - 1, n), n)
  }

  // The remainder of a number below twice the divisor.
  lemma WrapOnce(x: nat, n: nat)
    requires x < 2 * n
    ensures x % n == if x < n then x else x - n
  {
  }

  // The slot after the one of id.
  lemma SlotNext(id: nat, n: nat)
    requires id > 0 && n > 0
    ensures Slot(id + 1, n) == (Slot(id, n) + 1) % n
  {
    WrapOnce(Slot(id, n) + 1, n);
  }

  // The slot k ids ahead.
  lemma SlotOf(beg: nat, id: nat, n: nat)
    requires 0 < beg <= id < beg + n
    ensures Slot(id, n) == (Slot(beg, n) + (id - beg)) % n
  {
    SlotAhead(beg, id - beg, n);
    WrapOnce(Slot(beg, n) + (id - beg), n);
  }

  // Going on k slots from the slot of id.
  lemma {:induction false} SlotAhead(id: nat, k: nat, n: nat)
    requires id > 0 && k <= n && n > 0
    ensures Slot(id + k, n) == if Slot(id, n) + k < n then Slot(id, n) + k else Slot(id, n) + k - n
  {
    if k > 0 {
      SlotAhead(id, k - 1, n);
    }
  }

  // Two ids less than n apart have different slots.
  lemma SlotsDiffer(a: nat, b: nat, n: nat)
    requires 0 < a < b < a + n
    ensures Slot(a, n) != Slot(b, n)
  {
    SlotAhead(a, b - a, n);
  }

  // Exactly n apart, they have the same one.
  lemma SlotsMeet(a: nat, n: nat)
    requires 0 < a && n > 0
    ensures Slot(a + n, n) == Slot(a, n)
  {
    SlotAhead(a, n, n);
  }

  // What the slots of the ids from beg up to end hold.
  ghost function Held<T>(buf: seq<T>, pending: seq<bool>, n: nat, beg: nat, end: nat): map<nat, T>
    requires |buf| == |pending| == n > 0 && beg > 0
  {
    if end <= beg then map[]
    else
      var before := Held(buf, pending, n, beg, end - 1);
      if pending[Slot(end - 1, n)] then before[end - 1 := buf[Slot(end - 1, n)]] else before
  }

  // The ids it has are those whose slots are pending.
  lemma {:induction false} HeldAre<T>(buf: seq<T>, pending: seq<bool>, n: nat, beg: nat, end: nat)
    requires |buf| == |pending| == n > 0 && beg > 0
    ensures forall id: nat {:trigger id in Held(buf, pending, n, beg, end)} ::
      id in Held(buf, pending, n, beg, end) <==> beg <= id < end && pending[Slot(id, n)]
    ensures forall id: nat {:trigger Held(buf, pending, n, beg, end)[id]} | id in Held(buf, pending, n, beg, end) ::
      Held(buf, pending, n, beg, end)[id] == buf[Slot(id, n)]
  {
    hide Slot;
    if beg < end {
      HeldAre(buf, pending, n, beg, end - 1);
    }
  }

  lemma StoreHeld<T>(buf: seq<T>, pending: seq<bool>, n: nat, beg: nat, end: nat, value: T)
    requires |buf| == |pending| == n > 0 && 0 < beg <= end < beg + n
    ensures var s := Slot(end, n);
      Held(buf[s := value], pending[s := true], n, beg, end + 1) == Held(buf, pending, n, beg, end)[end := value]
  {
    hide Slot;
    forall i: nat | beg <= i < end ensures Slot(i, n) != Slot(end, n) {
      SlotsDiffer(i, end, n);
    }
    var s := Slot(end, n);
    var was, now := Held(buf, pending, n, beg, end), Held(buf[s := value], pending[s := true], n, beg, end + 1);
    HeldAre(buf, pending, n, beg, end);
    HeldAre(buf[s := value], pending[s := true], n, beg, end + 1);
    hide Held;
    assert forall i: nat {:trigger i in was} {:trigger i in now} :: i in now <==> i in was || i == end;
  }

  lemma TakeHeld<T>(buf: seq<T>, pending: seq<bool>, n: nat, beg: nat, end: nat, id: nat)
    requires |buf| == |pending| == n > 0 && 0 < beg <= id < end <= beg + n
    ensures Held(buf, pending[Slot(id, n) := false], n, beg, end) == Held(buf, pending, n, beg, end) - {id}
  {
    hide Slot;
    forall i: nat | beg <= i < end && i != id ensures Slot(i, n) != Slot(id, n) {
      if i < id { SlotsDiffer(i, id, n); } else { SlotsDiffer(id, i, n); }
    }
    HeldAre(buf, pending, n, beg, end);
    HeldAre(buf, pending[Slot(id, n) := false], n, beg, end);
    hide Held;
  }

  lemma SkipHeld<T>(buf: seq<T>, pending: seq<bool>, n: nat, beg: nat, end: nat)
    requires |buf| == |pending| == n > 0 && 0 < beg < end && !pending[Slot(beg, n)]
    ensures Held(buf, pending, n, beg + 1, end) == Held(buf, pending, n, beg, end)
  {
    HeldAre(buf, pending, n, beg, end);
    HeldAre(buf, pending, n, beg + 1, end);
    hide Held;
  }

  lemma HeldIff<T>(buf: seq<T>, pending: seq<bool>, n: nat, beg: nat, end: nat, id: nat)
    requires |buf| == |pending| == n > 0 && 0 < beg <= id < end
    ensures id in Held(buf, pending, n, beg, end) <==> pending[Slot(id, n)]
    ensures id in Held(buf, pending, n, beg, end) ==> Held(buf, pending, n, beg, end)[id] == buf[Slot(id, n)]
    ensures id !in Held(buf, pending, n, beg, end) ==>
      Held(buf, pending, n, beg, end) - {id} == Held(buf, pending, n, beg, end)
  {
    HeldAre(buf, pending, n, beg, end);
    hide Held;
  }

  class CircularCompletionQueue<T(0)> {
    const capacity: nat
    const buf: array<T>
    const pending: array<bool>
    var head: nat
    var tail: nat
    var beg: nat
    var end: nat

    ghost predicate Valid()
      reads this, buf, pending
    {
      && capacity > 0 && buf.Length == pending.Length == capacity && (var cells: object := buf; cells != pending)
      && 0 < beg <= end <= beg + capacity
      && head == Slot(beg, capacity) && tail == Slot(end, capacity)
      && (beg < end ==> pending[head])
    }

    // The ring as a window.
    ghost function Contents(): Window<T>
      requires Valid()
      reads this, buf, pending
    {
      Window(Held(buf[..], pending[..], capacity, beg, end), end)
    }

    constructor (n: nat)
      requires n > 0
      ensures Valid() && capacity == n && Contents() == Window(map[], 1) && fresh(buf) && fresh(pending)
    {
      capacity := n;
      buf := new T[n];
      pending := new bool[n](_ => false);
      head, tail, beg, end := 0, 0, 1, 1;
    }

    predicate IsFull()
      requires Valid()
      reads this, buf, pending
    {
      tail == head && beg != end
    }

    /** Full exactly when the window from the oldest value still in the ring spans all slots. */
    lemma FullIffSpanned()
      requires Valid()
      ensures Within(Contents(), capacity)
      ensures IsFull() <==> Spanned(Contents(), capacity)
      ensures IsFull() <==> end == beg + capacity
    {
      HeldAre(buf[..], pending[..], capacity, beg, end);
      hide Held;
      if end == beg + capacity {
        SlotsMeet(beg, capacity);
      } else if beg < end {
        SlotsDiffer(beg, end, capacity);
      }
    }

    /** A value goes in under the next id, unless the ring is full. */
    method Enqueue(value: T) returns (id: Option<nat>)
      requires Valid()
      modifies this, buf, pending
      ensures Valid() && (id == None <==> old(Spanned(Contents(), capacity)))
      ensures id.Some? ==> id.value == old(end) && Contents() == Stored(old(Contents()), value)
      ensures id == None ==> Contents() == old(Contents())
    {
      FullIffSpanned();
      if IsFull() {
        return None;
      }
      hide Slot, Held;
      StoreHeld(buf[..], pending[..], capacity, beg, end, value);
      SlotNext(end, capacity);
      buf[tail] := value;
      pending[tail] := true;
      assert buf[..] == old(buf[..])[tail := value] && pending[..] == old(pending[..])[tail := true];
      tail := (tail + 1) % capacity;
      id := Some(end);
      end := end + 1;
    }

    /** The value stored under id comes out, whatever its age; afterwards the id is spent. */
    method Dequeue(id: nat) returns (value: Option<T>)
      requires Valid()
      modifies this, buf, pending
      ensures Valid()
      ensures value == (if id in old(Contents()).entries then Some(old(Contents()).entries[id]) else None)
      ensures Contents() == Taken(old(Contents()), id)
    {
      HeldAre(buf[..], pending[..], capacity, beg, end);
      if id < beg || id >= end {
        return None;
      }
      var idx := (head + (id - beg)) % capacity;
      hide Slot, Held;
      SlotOf(beg, id, capacity);
      HeldIff(buf[..], pending[..], capacity, beg, end, id);
      if !pending[idx] {
        return None;
      }
      TakeHeld(buf[..], pending[..], capacity, beg, end, id);
      value := Some(buf[idx]);
      pending[idx] := false;
      Advance();
    }

    // Moves the oldest end of the window past the slots already taken.
    method Advance()
      requires capacity > 0 && buf.Length == pending.Length == capacity && (var cells: object := buf; cells != pending)
      requires 0 < beg <= end <= beg + capacity
      requires head == Slot(beg, capacity) && tail == Slot(end, capacity)
      modifies `beg, `head
      ensures Valid() && Contents() == Window(old(Held(buf[..], pending[..], capacity, beg, end)), end)
    {
      while beg != end && !pending[head]
        invariant 0 < beg <= end <= beg + capacity && head == Slot(beg, capacity)
        invariant Held(buf[..], pending[..], capacity, beg, end) == old(Held(buf[..], pending[..], capacity, beg, end))
        decreases end - beg
      {
        SkipHeld(buf[..], pending[..], capacity, beg, end);
        SlotNext(beg, capacity);
        beg := beg + 1;
        head := (head + 1) % capacity;
      }
    }
  }
}
