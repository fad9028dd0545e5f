/** What each event does to the buffers, said outright. */
module BufferLaws {
  import opened Wrappers
  import opened Windows
  import opened Wrids
  import opened BufferPlaces

  // The block goes in flight if its queue has room, and is free again if not.
  ghost predicate Goes(b: Buffers, c: nat, isOut: bool, i: nat, r: Result)
    requires Index(c, isOut) < |b.rings|
  {
    && (r.status == Fine <==> HasRoom(b.rings[Index(c, isOut)]))
    && r.status in {Fine, LengthError, Exhausted}
    && if r.status == Fine then NewFlight(b, r, i) else r.buffers == Give(b, i)
  }

  // Free blocks, the last first, wait in a queue under its next ids, and nothing else has changed.
  ghost predicate Waits(b: Buffers, c: nat, k: nat, b': Buffers) {
    && k <= |b.available| && Index(c, false) < |b.rings| && |b'.rings| == |b.rings|
    && b'.available == b.available[..|b.available| - k] && b'.held == b.held && b'.connected == b.connected
    && var q := Index(c, false);
       var w, w' := b.rings[q], b'.rings[q];
       && b'.rings == b.rings[q := w'] && w'.next == w.next + k
       && (forall id {:trigger w.entries[id]} | id in w.entries :: id in w'.entries && w'.entries[id] == w.entries[id])
       && forall j: nat {:trigger Under(b.available, w.next, w'.entries, j)} | j < k ::
            Under(b.available, w.next, w'.entries, j)
  }

  // The block that is j before the last is out under the id that is j after the first.
  ghost predicate Under(available: seq<nat>, first: nat, entries: map<nat, nat>, j: nat) {
    j < |available| && first + j in entries && entries[first + j] == available[|available| - 1 - j]
  }

  lemma WaitsNone(b: Buffers, c: nat)
    requires Index(c, false) < |b.rings|
    ensures Waits(b, c, 0, b)
  {
    assert b.available[..|b.available|] == b.available;
  }

  lemma TakeThenGive(b: Buffers)
    requires b.available != [] && b.available[|b.available| - 1] !in b.held
    ensures Give(Take(b), b.available[|b.available| - 1]) == b
  {
    var n := |b.available| - 1;
    assert b.available[..n] + [b.available[n]] == b.available;
    assert b.held + {b.available[n]} - {b.available[n]} == b.held;
  }

  /** A block that is given back is the next to be lent. */
  lemma GiveThenTake(b: Buffers, i: nat)
    requires i in b.held
    ensures Take(Give(b, i)) == b
  {
    assert (b.available + [i])[..|b.available|] == b.available;
    assert b.held - {i} + {i} == b.held;
  }

  lemma ReceiveWaits(blocks: nat, b: Buffers, c: nat)
    requires Settled(blocks, b) && Index(c, false) < |b.rings|
    ensures var r, w := PostReceive(b, c), b.rings[Index(c, false)];
      && (r.status == Fine <==> b.available != [] && HasRoom(w))
      && (r.status == Fine ==> Waits(b, c, 1, r.buffers))
      && (r.status != Fine ==> r.buffers == b && (r.status == BadAlloc <==> b.available == []))
  {
    hide Encode, Settled;
    if b.available != [] {
      LastIsFree(blocks, b);
      TakeThenGive(b);
      var n := |b.available| - 1;
      hide Spanned;
      if HasRoom(b.rings[Index(c, false)]) {
        SettledRange(blocks, b);
        RangeOf(b.rings, Index(c, false));
        LaunchWaits(b, c);
      }
    }
  }

  lemma LastIsFree(blocks: nat, b: Buffers)
    requires Settled(blocks, b) && b.available != []
    ensures b.available[|b.available| - 1] !in b.held
  {
    hide InRange, PostedIs, FlyingOf, Flies;
    assert b.available[|b.available| - 1] in b.available;
  }

  lemma LaunchWaits(b: Buffers, c: nat)
    requires b.available != [] && Index(c, false) < |b.rings| && b.available[|b.available| - 1] !in b.held
    requires Within(b.rings[Index(c, false)], WINDOW)
    ensures Waits(b, c, 1, Launch(Take(b), c, false, b.available[|b.available| - 1]))
  {
    hide Encode;
    var i := b.available[|b.available| - 1];
    assert b.held + {i} - {i} == b.held;
    assert b.rings[Index(c, false)].next !in b.rings[Index(c, false)].entries;
  }

  lemma WaitsMore(b: Buffers, c: nat, k: nat, mid: Buffers, b': Buffers)
    requires Waits(b, c, k, mid) && Waits(mid, c, 1, b')
    ensures Waits(b, c, k + 1, b')
  {
    var q, n := Index(c, false), |b.available|;
    var w, v, w' := b.rings[q], mid.rings[q], b'.rings[q];
    assert mid.available[..|mid.available| - 1] == b.available[..n - (k + 1)];
    forall j: nat | j < k + 1 ensures Under(b.available, w.next, w'.entries, j) {
      if j < k {
        assert Under(b.available, w.next, v.entries, j);
      } else {
        assert Under(mid.available, v.next, w'.entries, 0);
      }
    }
    forall id | id in w.entries ensures id in w'.entries && w'.entries[id] == w.entries[id] {
      assert v.entries[id] == w.entries[id];
    }
  }

  // Why no more receives were posted: no block was free, or the queue had no room.
  ghost predicate StopsAt(b: Buffers, c: nat, status: Status) {
    Index(c, false) < |b.rings| &&
    if b.available == [] then status == BadAlloc else status != BadAlloc && !HasRoom(b.rings[Index(c, false)])
  }

  /** The first receives of a connection: as many as there are free blocks and room for, up to n. */
  lemma {:induction false} BacklogWaits(blocks: nat, b: Buffers, c: nat, n: nat)
    requires Settled(blocks, b) && Index(c, true) < |b.rings|
    ensures var r := Backlog(b, c, n);
      var k := |b.available| - |r.buffers.available|;
      && 0 <= k <= n && Waits(b, c, k, r.buffers) && (r.status == Fine <==> k == n)
      && (r.status != Fine ==> StopsAt(r.buffers, c, r.status))
  {
    hide Settled, PostReceive, Waits, HasRoom;
    if n == 0 {
      WaitsNone(b, c);
    } else {
      BacklogWaits(blocks, b, c, n - 1);
      BacklogSettled(blocks, b, c, n - 1);
      var before := Backlog(b, c, n - 1);
      var k := |b.available| - |before.buffers.available|;
      if before.status == Fine {
        ReceiveWaits(blocks, before.buffers, c);
        var r := PostReceive(before.buffers, c);
        if r.status == Fine {
          WaitsMore(b, c, k, before.buffers, r.buffers);
          WaitsFree(before.buffers, c, r.buffers);
        }
      }
    }
  }

  lemma WaitsFree(b: Buffers, c: nat, b': Buffers)
    requires Waits(b, c, 1, b')
    ensures |b'.available| == |b.available| - 1
  {
  }

  /** A connection is open once all its first receives wait; otherwise those that do stay. */
  ghost predicate OpensAs(b: Buffers, c: nat, r: Result) {
    var k := |b.available| - |r.buffers.available|;
    && 0 <= k <= 1000 && c < |b.connected| && (r.status == Fine <==> k == 1000)
    && Waits(b, c, k, r.buffers.(connected := b.connected))
    && r.buffers.connected == (if r.status == Fine then b.connected[c := true] else b.connected)
    && (r.status != Fine ==> StopsAt(r.buffers, c, r.status))
  }

  lemma ConnectIs(blocks: nat, b: Buffers, c: nat)
    requires Settled(blocks, b) && Index(c, true) < |b.rings| && c < |b.connected|
    ensures OpensAs(b, c, Connect(b, c))
  {
    hide Settled, Backlog, HasRoom;
    BacklogWaits(blocks, b, c, RECV_BACKLOG);
  }

  // The block of a completed request is with its holder; of an unknown kind, it is free. No other request notices.
  ghost predicate Lands(b: Buffers, wrid: nat, opcode: Opcode, b': Buffers) {
    && Outstanding(b.rings, wrid) && b'.posted == b.posted - {wrid} && b'.connected == b.connected
    && OneLess(b.rings, b'.rings, wrid)
    && var i := BlockOf(b.rings, wrid);
       if opcode == Unknown then b'.available == b.available + [i] && b'.held == b.held - {i}
       else b'.available == b.available && b'.held == b.held + {i}
  }

  lemma CompleteLands(b: Buffers, wrid: nat, opcode: Opcode)
    requires Outstanding(b.rings, wrid)
    ensures Lands(b, wrid, opcode, Complete(b, wrid, opcode))
  {
    LandOneLess(b.rings, wrid);
    var i := BlockOf(b.rings, wrid);
    hide OneLess, Decode, Outstanding, BlockOf;
    assert b.held + {i} - {i} == b.held - {i};
  }

  /** A receive that has completed is replaced first; only then is its block handed on. */
  ghost predicate PollsAs(b: Buffers, wrid: nat, opcode: Opcode, r: Result) {
    var e := Decode(wrid);
    if e.isOut then r.status == Fine && Lands(b, wrid, opcode, r.buffers)
    else
      && Index(e.qpIdx, false) < |b.rings|
      && (r.status == Fine <==> b.available != [] && HasRoom(b.rings[Index(e.qpIdx, false)]))
      && (r.status == Fine ==>
            exists mid {:trigger Waits(b, e.qpIdx, 1, mid)} ::
              Waits(b, e.qpIdx, 1, mid) && Lands(mid, wrid, opcode, r.buffers))
      && (r.status != Fine ==> r.buffers == b)
  }

  lemma PollIs(blocks: nat, b: Buffers, wrid: nat, opcode: Opcode)
    requires Settled(blocks, b) && Outstanding(b.rings, wrid)
    ensures PollsAs(b, wrid, opcode, Poll(b, wrid, opcode))
  {
    var e := Decode(wrid);
    assert e.isOut || Index(e.qpIdx, false) < |b.rings|;
    PollSettled(blocks, b, wrid, opcode);
    if e.isOut {
      hide Settled, Outstanding, BlockOf, Complete, Lands;
      CompleteLands(b, wrid, opcode);
    } else {
      hide Settled, Outstanding, BlockOf, Complete, PostReceive, Waits, Lands, HasRoom;
      ReceiveWaits(blocks, b, e.qpIdx);
      var r := PostReceive(b, e.qpIdx);
      if r.status == Fine {
        CompleteLands(r.buffers, wrid, opcode);
        assert Waits(b, e.qpIdx, 1, r.buffers);
      }
    }
  }

  /** Connections there are, blocks that are held and requests that are posted are all that an event can name. */
  ghost predicate CanHappen(b: Buffers, e: Event) {
    match e
    case Opens(c) => c < |b.connected|
    case Sends(c, i) => c < |b.connected| && i in b.held
    case Reads(c, i, _) => c < |b.connected| && i in b.held
    case Completes(wrid, _) => wrid in b.posted
    case Takes => true
    case Gives(i) => i in b.held
  }

  lemma SensibleIff(blocks: nat, b: Buffers, e: Event)
    requires Settled(blocks, b)
    ensures Sensible(b, e) <==> CanHappen(b, e)
  {
    hide OnePlaceEach, InRange, FlyingOf, Outstanding;
  }

  /** What an event that can happen does. */
  ghost predicate Handles(b: Buffers, size: nat, e: Event, r: Result)
    requires CanHappen(b, e) && |b.rings| == 2 * |b.connected|
  {
    match e
    case Opens(c) => OpensAs(b, c, r)
    case Sends(c, i) =>
      if !b.connected[c] then r.status == NotConnected && r.buffers == b else Goes(b, c, true, i, r)
    case Reads(c, i, length) =>
      if length + 4 > size then r.status == OutOfRange && r.buffers == Give(b, i) else Goes(b, c, true, i, r)
    case Completes(wrid, opcode) => PollsAs(b, wrid, opcode, r)
    case Takes =>
      if b.available == [] then r.status == BadAlloc && r.buffers == b
      else
        && r.status == Fine && r.buffers.available + [b.available[|b.available| - 1]] == b.available
        && r.buffers == b.(available := r.buffers.available, held := b.held + {b.available[|b.available| - 1]})
    case Gives(i) => r.status == Fine && r.buffers == b.(available := b.available + [i], held := b.held - {i})
  }

  lemma PostGoes(blocks: nat, b: Buffers, c: nat, isOut: bool, i: nat)
    requires Settled(blocks, b) && i in b.held && Index(c, isOut) < |b.rings|
    ensures Goes(b, c, isOut, i, Post(b, c, isOut, i))
  {
    PostSettled(blocks, b, c, isOut, i);
    hide Settled, Spanned, Encode, Launch, NewFlight;
  }

  lemma StepIs(blocks: nat, b: Buffers, size: nat, e: Event)
    requires Settled(blocks, b) && CanHappen(b, e)
    ensures |b.rings| == 2 * |b.connected| && Handles(b, size, e, Step(b, size, e))
  {
    SettledRange(blocks, b);
    SensibleIff(blocks, b, e);
    hide Settled, Goes, OpensAs, PollsAs, Connect, Poll, Post, Outstanding;
    match e
    case Opens(c) => ConnectIs(blocks, b, c);
    case Sends(c, i) => PostGoes(blocks, b, c, true, i);
    case Reads(c, i, _) => PostGoes(blocks, b, c, true, i);
    case Completes(wrid, opcode) => PollIs(blocks, b, wrid, opcode);
    case Takes =>
      if b.available != [] {
        var n := |b.available| - 1;
        assert b.available[..n] + [b.available[n]] == b.available;
      }
    case Gives(i) =>
  }

  // Nothing happens after the end, and events that cannot happen change nothing.
  ghost predicate Continues(before: Result, size: nat, e: Event, r: Result) {
    if Ends(before.status) then r == before
    else if CanHappen(before.buffers, e) then
      |before.buffers.rings| == 2 * |before.buffers.connected| && Handles(before.buffers, size, e, r)
    else r.status == Fine && r.buffers == before.buffers
  }

  /** Every run goes on so from event to event. */
  lemma RunHandles(blocks: nat, conns: nat, size: nat, events: seq<Event>)
    requires conns <= QP_LIMIT && events != []
    ensures Continues(RunOf(Fresh(blocks, conns), size, events[..|events| - 1]), size, events[|events| - 1],
      RunOf(Fresh(blocks, conns), size, events))
  {
    var e, before := events[|events| - 1], RunOf(Fresh(blocks, conns), size, events[..|events| - 1]);
    RunSettled(blocks, conns, size, events[..|events| - 1]);
    SensibleIff(blocks, before.buffers, e);
    if CanHappen(before.buffers, e) {
      StepIs(blocks, before.buffers, size, e);
    }
    hide Settled, Handles, Fresh, OnePlaceEach, FlyingOf, Sensible, CanHappen;
  }

  /** It starts with all blocks free, no connection open, and queues whose first id is 1. */
  lemma RunStarts(blocks: nat, conns: nat, size: nat)
    ensures var r := RunOf(Fresh(blocks, conns), size, []);
      && r.status == Fine && r.buffers.held == r.buffers.posted == {} && |r.buffers.available| == blocks
      && (forall i {:trigger r.buffers.available[i]} | 0 <= i < blocks :: r.buffers.available[i] == i)
      && |r.buffers.connected| == conns && |r.buffers.rings| == 2 * conns
      && (forall c {:trigger r.buffers.connected[c]} | 0 <= c < conns :: !r.buffers.connected[c])
      && forall q {:trigger r.buffers.rings[q]} | 0 <= q < 2 * conns :: r.buffers.rings[q] == Window(map[], 1)
  {
  }
}
