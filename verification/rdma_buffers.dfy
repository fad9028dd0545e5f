/** The buffer flow of the connection manager: posting takes blocks in flight, completions bring them back. */
module RdmaManagers {
  import opened Wrappers
  import opened Windows
  import opened CompletionRings
  import opened Wrids
  import opened BlockAllocators
  import opened BufferPlaces

  type Ring = CircularCompletionQueue<nat>

  // All that the rings are made of.
  ghost function Cells(rings: seq<Ring>): set<object> {
    (set k | 0 <= k < |rings| :: rings[k]) + (set k | 0 <= k < |rings| :: rings[k].buf)
    + (set k | 0 <= k < |rings| :: rings[k].pending)
  }

  // No two rings share anything.
  ghost predicate Apart(rings: seq<Ring>) {
    forall j, k {:trigger rings[j], rings[k]} | 0 <= j < k < |rings| ::
      rings[j] != rings[k] && rings[j].buf != rings[k].buf && rings[j].pending != rings[k].pending
  }

  ghost predicate Sound(rings: seq<Ring>)
    reads Cells(rings)
  {
    forall k {:trigger rings[k]} | 0 <= k < |rings| :: rings[k].Valid() && rings[k].capacity == WINDOW
  }

  ghost function WindowsOf(rings: seq<Ring>): (r: seq<Window<nat>>)
    requires Sound(rings)
    reads Cells(rings)
    ensures |r| == |rings|
  {
    seq(|rings|, k requires 0 <= k < |rings| && Sound(rings) reads Cells(rings) => rings[k].Contents())
  }

  lemma CellsMore(rings: seq<Ring>, ring: Ring)
    ensures Cells(rings + [ring]) == Cells(rings) + {ring, ring.buf, ring.pending}
  {
    var more := rings + [ring];
    assert more[|rings|] == ring;
    forall k | 0 <= k < |rings| ensures more[k] == rings[k] {
    }
    forall x: object ensures x in Cells(more) <==> x in Cells(rings) + {ring, ring.buf, ring.pending} {
      if x in Cells(rings) {
        var k :| 0 <= k < |rings| && (x == rings[k] || x == rings[k].buf || x == rings[k].pending);
        assert more[k] == rings[k];
      }
    }
  }

  // A value goes in one of the rings, unless that is full.
  method StoreIn(rings: seq<Ring>, k: nat, value: nat) returns (id: Option<nat>)
    requires Apart(rings) && Sound(rings) && k < |rings|
    modifies rings[k], rings[k].buf, rings[k].pending
    ensures Sound(rings) && (id == None <==> Spanned(old(WindowsOf(rings))[k], WINDOW))
    ensures id.Some? ==> id.value == old(WindowsOf(rings))[k].next
    ensures WindowsOf(rings) ==
      old(WindowsOf(rings))[k := if id.Some? then Stored(old(WindowsOf(rings))[k], value) else old(WindowsOf(rings))[k]]
  {
    hide CircularCompletionQueue.Valid;
    id := rings[k].Enqueue(value);
    forall j | 0 <= j < |rings| && j != k
      ensures rings[j].Valid() && rings[j].Contents() == old(rings[j].Contents())
    {
      assert old(rings[j].Valid());
    }
    assert WindowsOf(rings)[k] == rings[k].Contents();
  }

  // The value of an id comes out of one of the rings.
  method TakeFrom(rings: seq<Ring>, k: nat, id: nat) returns (value: Option<nat>)
    requires Apart(rings) && Sound(rings) && k < |rings|
    modifies rings[k], rings[k].buf, rings[k].pending
    ensures Sound(rings)
    ensures WindowsOf(rings) == old(WindowsOf(rings))[k := Taken(old(WindowsOf(rings))[k], id)]
    ensures var entries := old(WindowsOf(rings))[k].entries;
      value == if id in entries then Some(entries[id]) else None
  {
    hide CircularCompletionQueue.Valid;
    value := rings[k].Dequeue(id);
    forall j | 0 <= j < |rings| && j != k
      ensures rings[j].Valid() && rings[j].Contents() == old(rings[j].Contents())
    {
      assert old(rings[j].Valid());
    }
    assert WindowsOf(rings)[k] == rings[k].Contents();
  }

  lemma ApartMore(rings: seq<Ring>, ring: Ring)
    requires Apart(rings) && ring !in Cells(rings) && ring.buf !in Cells(rings) && ring.pending !in Cells(rings)
    ensures Apart(rings + [ring])
  {
  }

  ghost predicate AllEmpty(rings: seq<Ring>)
    reads Cells(rings)
  {
    Sound(rings) && forall k {:trigger rings[k]} | 0 <= k < |rings| :: rings[k].Contents() == Window(map[], 1)
  }

  lemma EmptyMore(rings: seq<Ring>, ring: Ring)
    requires AllEmpty(rings) && ring.Valid() && ring.capacity == WINDOW && ring.Contents() == Window(map[], 1)
    ensures AllEmpty(rings + [ring])
  {
    var more := rings + [ring];
    forall k | 0 <= k < |more|
      ensures more[k].Valid() && more[k].capacity == WINDOW && more[k].Contents() == Window(map[], 1)
    {
      assert k < |rings| ==> more[k] == rings[k];
    }
  }

  lemma NoRings()
    ensures Apart([]) && AllEmpty([]) && Cells([]) == {}
  {
  }

  lemma EmptyWindows(rings: seq<Ring>)
    requires AllEmpty(rings)
    ensures Sound(rings) && WindowsOf(rings) == seq(|rings|, _ => Window(map[], 1))
  {
  }

  method MakeRing() returns (ring: Ring)
    ensures fresh(ring) && fresh(ring.buf) && fresh(ring.pending)
    ensures ring.Valid() && ring.capacity == WINDOW && ring.Contents() == Window(map[], 1)
  {
    hide CircularCompletionQueue.Valid;
    ring := new CircularCompletionQueue<nat>(WINDOW);
  }

  // One more ring beside those there are.
  method AddRing(rings: seq<Ring>) returns (more: seq<Ring>)
    requires Apart(rings) && AllEmpty(rings)
    ensures |more| == |rings| + 1 && Apart(more) && AllEmpty(more)
    ensures fresh(Cells(more) - Cells(rings))
  {
    hide Apart, AllEmpty, Sound, CircularCompletionQueue.Valid, CircularCompletionQueue.Contents;
    var ring := MakeRing();
    CellsMore(rings, ring);
    ApartMore(rings, ring);
    EmptyMore(rings, ring);
    more := rings + [ring];
  }

  method MakeRings(n: nat) returns (rings: seq<Ring>)
    ensures |rings| == n && Apart(rings) && fresh(Cells(rings)) && Sound(rings)
    ensures WindowsOf(rings) == seq(n, _ => Window(map[], 1))
  {
    hide Apart, AllEmpty, Sound, WindowsOf;
    rings := [];
    NoRings();
    hide Cells;
    while |rings| < n
      invariant |rings| <= n && Apart(rings) && fresh(Cells(rings)) && AllEmpty(rings)
      decreases n - |rings|
    {
      rings := AddRing(rings);
    }
    EmptyWindows(rings);
  }

  class RdmaManager {
    const recvBuf: MemoryBlockAllocator
    const rings: seq<Ring>
    var connected: seq<bool>
    var posted: set<nat>
    var held: set<nat>

    // The parts do not overlap, and the blocks are all accounted for.
    ghost predicate Valid()
      reads this, recvBuf, recvBuf.availability, Cells(rings)
    {
      && recvBuf.Valid() && recvBuf.availability !in Cells(rings) && Apart(rings) && Sound(rings)
      && Settled(recvBuf.blocks, Value())
    }

    ghost function Value(): Buffers
      requires Sound(rings)
      reads this, recvBuf, Cells(rings)
    {
      Buffers(recvBuf.available, held, WindowsOf(rings), connected, posted)
    }

    // A manager of n connections over a pool none of whose blocks is out yet.
    constructor (pool: MemoryBlockAllocator, n: nat)
      requires pool.Valid() && n <= QP_LIMIT && pool.available == seq(pool.blocks, i => i)
      ensures Valid() && recvBuf == pool && Value() == Fresh(pool.blocks, n) && fresh(Cells(rings))
    {
      hide Settled, MemoryBlockAllocator.Valid, Sound, Apart;
      var all := MakeRings(2 * n);
      recvBuf, rings, connected, posted, held := pool, all, seq(n, _ => false), {}, {};
      new;
      FreshSettled(pool.blocks, n);
      assert Value() == Fresh(pool.blocks, n);
    }

    // A buffer for the application.
    method Allocate() returns (i: Option<nat>)
      requires Valid()
      modifies `held, recvBuf`available, recvBuf.availability
      ensures Valid() && Value() == Take(old(Value())) && (i == None <==> old(recvBuf.available) == [])
      ensures i.Some? ==> i.value == old(recvBuf.available)[|old(recvBuf.available)| - 1]
    {
      hide Settled, MemoryBlockAllocator.Valid, Apart, Sound;
      ghost var rest := WindowsOf(rings);
      TakeSettled(recvBuf.blocks, Value());
      BlockSizePositive(recvBuf);
      var b := recvBuf.Allocate();
      assert Sound(rings) && WindowsOf(rings) == rest;
      if b == None {
        return None;
      }
      ghost var n := old(recvBuf.available)[|old(recvBuf.available)| - 1];
      ProductOver(n, recvBuf.blockSize);
      ProductOrder(0, n, recvBuf.blockSize);
      var index := b.value.offset / recvBuf.blockSize;
      held := held + {index};
      i := Some(index);
    }

    /** A holder's block always goes back: none of the allocator's complaints can arise. */
    method Free(i: nat)
      requires Valid() && i in held
      modifies `held, recvBuf`available, recvBuf.availability
      ensures Valid() && Value() == Give(old(Value()), i)
    {
      hide Settled, MemoryBlockAllocator.Valid, Apart, Sound;
      ghost var rest := WindowsOf(rings);
      GiveSettled(recvBuf.blocks, Value(), i);
      HeldIsLent(recvBuf.blocks, Value(), i);
      BlockSizePositive(recvBuf);
      ProductOver(i, recvBuf.blockSize);
      assert recvBuf.Lent(i);
      var r := recvBuf.Free(recvBuf.BlockAt(i));
      assert Sound(rings) && WindowsOf(rings) == rest;
      held := held - {i};
    }

    // A held block goes in flight, unless the queue is full.
    method LaunchBlock(c: nat, isOut: bool, i: nat) returns (id: Option<nat>)
      requires Valid() && i in held && Index(c, isOut) < |rings|
      requires Value().rings[Index(c, isOut)].next < SEQNUM_LIMIT || Spanned(Value().rings[Index(c, isOut)], WINDOW)
      modifies this, Cells(rings)
      ensures Valid() && (id == None <==> Spanned(old(Value()).rings[Index(c, isOut)], WINDOW))
      ensures id == None ==> Value() == old(Value())
      ensures id.Some? ==>
        id.value == old(Value()).rings[Index(c, isOut)].next && Value() == Launch(old(Value()), c, isOut, i)
    {
      hide Settled, MemoryBlockAllocator.Valid, Encode, Index, Apart, Sound, Spanned;
      if !Spanned(Value().rings[Index(c, isOut)], WINDOW) {
        LaunchSettled(recvBuf.blocks, Value(), c, isOut, i);
      }
      id := StoreIn(rings, Index(c, isOut), i);
      if id.Some? {
        posted, held := posted + {Encode(InternalWrid(id.value, c, isOut))}, held - {i};
      }
      assert id == None ==> Value() == old(Value());
    }

    /** Puts a held block in flight and gives its work request id; a full queue frees it. */
    method PostBlock(c: nat, isOut: bool, i: nat) returns (s: Status, wrid: nat)
      requires Valid() && i in held && Index(c, isOut) < |rings|
      modifies this, recvBuf, recvBuf.availability, Cells(rings)
      ensures Valid() && Result(s, wrid, Value()) == Post(old(Value()), c, isOut, i)
    {
      hide Settled, MemoryBlockAllocator.Valid, Encode, Index, Apart, Sound, Launch, Spanned, WindowsOf;
      wrid := 0;
      var ring := rings[Index(c, isOut)];
      RingIn(rings, Index(c, isOut));
      if ring.end >= SEQNUM_LIMIT && !ring.IsFull() {
        Free(i);
        return Exhausted, wrid;
      }
      var id := LaunchBlock(c, isOut, i);
      if id == None {
        Free(i);
        s := LengthError;
      } else {
        wrid := Encode(InternalWrid(id.value, c, isOut));
        s := Fine;
      }
    }

    // A fresh block waits for a message from the peer.
    method PostFresh(c: nat) returns (s: Status, wrid: nat)
      requires Valid() && Index(c, false) < |rings|
      modifies this, recvBuf, recvBuf.availability, Cells(rings)
      ensures Valid() && Result(s, wrid, Value()) == PostReceive(old(Value()), c)
    {
      hide Settled, MemoryBlockAllocator.Valid, Index, Apart, Sound, WindowsOf, Post;
      ghost var b := Value();
      TakeSettled(recvBuf.blocks, b);
      var i := Allocate();
      if i == None {
        return BadAlloc, 0;
      }
      s, wrid := PostBlock(c, false, i.value);
    }

    method AsyncSend(c: nat, i: nat) returns (s: Status, wrid: nat)
      requires Valid() && i in held && Index(c, true) < |rings| && c < |connected|
      modifies this, recvBuf, recvBuf.availability, Cells(rings)
      ensures Valid() && Result(s, wrid, Value()) == Send(old(Value()), c, i)
    {
      hide RdmaManager.Valid, Index, Apart, Sound, WindowsOf, Post;
      if !connected[c] {
        return NotConnected, 0;
      }
      s, wrid := PostBlock(c, true, i);
    }

    // The block must have room for the length prefix and the bytes read.
    method AsyncRead(c: nat, i: nat, length: nat) returns (s: Status, wrid: nat)
      requires Valid() && i in held && Index(c, true) < |rings|
      modifies this, recvBuf, recvBuf.availability, Cells(rings)
      ensures Valid() && Result(s, wrid, Value()) == Read(old(Value()), recvBuf.blockSize, c, i, length)
    {
      hide RdmaManager.Valid, Index, Apart, Sound, WindowsOf, Post;
      if length + LENGTH_PREFIX > recvBuf.blockSize {
        Free(i);
        return OutOfRange, 0;
      }
      s, wrid := PostBlock(c, true, i);
    }

    // A connection starts with a full backlog of receives.
    method MarkConnected(c: nat) returns (s: Status, wrid: nat)
      requires Valid() && Index(c, true) < |rings| && c < |connected|
      modifies this, recvBuf, recvBuf.availability, Cells(rings)
      ensures Valid() && Result(s, wrid, Value()) == Connect(old(Value()), c)
    {
      hide RdmaManager.Valid, Apart, Sound, WindowsOf, PostReceive, Settled;
      ValidSettled();
      ghost var b := Value();
      s, wrid := Fine, 0;
      for n := 0 to RECV_BACKLOG
        invariant Valid() && Sound(rings) && Result(s, wrid, Value()) == Backlog(b, c, n) && s == Fine
      {
        s, wrid := PostFresh(c);
        ValidSettled();
        if s != Fine {
          BacklogFails(b, c, n + 1, RECV_BACKLOG);
          return;
        }
      }
      SetConnected(c);
    }

    method SetConnected(c: nat)
      requires Valid() && c < |connected|
      modifies `connected
      ensures Valid() && Value() == old(Value()).(connected := old(connected)[c := true])
    {
      hide Settled, MemoryBlockAllocator.Valid, Apart, Sound;
      ConnectedSettled(recvBuf.blocks, Value(), c);
      connected := connected[c := true];
    }

    /** A completion finds its own slot, and hands on exactly the block its request was posted with. */
    method HandleWorkCompletion(wrid: nat, opcode: Opcode) returns (conn: nat, i: nat)
      requires Valid() && Outstanding(Value().rings, wrid)
      modifies this, recvBuf, recvBuf.availability, Cells(rings)
      ensures Valid() && Value() == Complete(old(Value()), wrid, opcode)
      ensures conn == Decode(wrid).qpIdx && i == BlockOf(old(Value()).rings, wrid)
    {
      hide RdmaManager.Valid, Apart, Sound, WindowsOf, Decode, Outstanding, BlockOf, Land;
      conn, i := LandBlock(wrid);
      if opcode == Unknown {
        Free(i);
      }
    }

    method LandBlock(wrid: nat) returns (conn: nat, i: nat)
      requires Valid() && Outstanding(Value().rings, wrid)
      modifies this, Cells(rings)
      ensures Valid() && Value() == Land(old(Value()), wrid) && i in held
      ensures conn == Decode(wrid).qpIdx && i == BlockOf(old(Value()).rings, wrid)
    {
      hide Settled, MemoryBlockAllocator.Valid, Decode, Index, Apart, Sound;
      LandSettled(recvBuf.blocks, Value(), wrid);
      var e := Decode(wrid);
      var found := TakeFrom(rings, Index(e.qpIdx, e.isOut), e.seqnum);
      conn, i := e.qpIdx, found.value;
      posted, held := posted - {wrid}, held + {i};
    }

    // A receive that has completed is replaced before its message is handled.
    method PollCompletion(wrid: nat, opcode: Opcode) returns (s: Status, wrid': nat)
      requires Valid() && Outstanding(Value().rings, wrid)
      modifies this, recvBuf, recvBuf.availability, Cells(rings)
      ensures Valid() && Result(s, wrid', Value()) == Poll(old(Value()), wrid, opcode)
    {
      hide RdmaManager.Valid, Apart, Sound, WindowsOf, Complete, PostReceive, BlockOf;
      s, wrid' := Fine, 0;
      var e := Decode(wrid);
      ValidSettled();
      PollSettled(recvBuf.blocks, Value(), wrid, opcode);
      if !e.isOut {
        s, wrid' := PostFresh(e.qpIdx);
      }
      if s == Fine {
        var _, _ := HandleWorkCompletion(wrid, opcode);
      }
    }

    lemma ValidSettled()
      requires Valid()
      ensures Sound(rings) && Settled(recvBuf.blocks, Value())
    {
      hide Settled, Sound;
    }

    method Handle(e: Event) returns (s: Status, wrid: nat)
      requires Valid()
      modifies this, recvBuf, recvBuf.availability, Cells(rings)
      ensures Valid() && Result(s, wrid, Value()) == Step(old(Value()), recvBuf.blockSize, e)
    {
      hide RdmaManager.Valid, Apart, Sound, WindowsOf, Outstanding, Poll, Read, Send, Connect, Settled;
      ValidSettled();
      s, wrid := Fine, 0;
      match e
      case Opens(c) =>
        if c < |connected| && Index(c, true) < |rings| {
          s, wrid := MarkConnected(c);
        }
      case Sends(c, i) =>
        if c < |connected| && Index(c, true) < |rings| && i in held {
          s, wrid := AsyncSend(c, i);
        }
      case Reads(c, i, length) =>
        if c < |connected| && Index(c, true) < |rings| && i in held {
          s, wrid := AsyncRead(c, i, length);
        }
      case Completes(id, opcode) =>
        if id in posted {
          SettledPosted(recvBuf.blocks, Value(), id);
          s, wrid := PollCompletion(id, opcode);
        }
      case Takes =>
        var i := Allocate();
        s := if i == None then BadAlloc else Fine;
      case Gives(i) =>
        if i in held {
          Free(i);
        }
    }
  }

  lemma {:induction false} BacklogFails(b: Buffers, c: nat, n: nat, m: nat)
    requires Index(c, true) < |b.rings| && n <= m && Backlog(b, c, n).status != Fine
    ensures Backlog(b, c, m) == Backlog(b, c, n)
  {
    hide PostReceive;
    if n < m {
      BacklogFails(b, c, n, m - 1);
    }
  }

  lemma {:induction false} RunStops(start: Buffers, size: nat, events: seq<Event>, k: nat)
    requires k <= |events| && Ends(RunOf(start, size, events[..k]).status)
    ensures RunOf(start, size, events) == RunOf(start, size, events[..k])
    decreases |events| - k
  {
    hide Step;
    if k < |events| {
      assert events[..k + 1][..k] == events[..k];
      RunStops(start, size, events, k + 1);
    } else {
      assert events[..k] == events;
    }
  }

  /** Runs a manager of some connections through some events. */
  method Run(poolBits: nat, blockBits: nat, conns: nat, events: seq<Event>)
    returns (s: Status, available: seq<nat>, held: set<nat>, posted: set<nat>, connected: seq<bool>)
    requires blockBits <= poolBits && conns <= QP_LIMIT
    ensures var r := RunOf(Fresh(Pow2(poolBits - blockBits), conns), Pow2(blockBits), events);
      && s == r.status && available == r.buffers.available && held == r.buffers.held
      && posted == r.buffers.posted && connected == r.buffers.connected
  {
    hide MemoryBlockAllocator.Valid, RdmaManager.Valid, Fresh, Sound, WindowsOf, Step, Settled;
    var pool := new MemoryBlockAllocator(poolBits, blockBits);
    var m := new RdmaManager(pool, conns);
    m.ValidSettled();
    ghost var start := m.Value();
    s := Fine;
    var wrid := 0;
    for k := 0 to |events|
      invariant fresh(m) && m.recvBuf == pool && fresh(pool) && fresh(pool.availability) && fresh(Cells(m.rings))
      invariant m.Valid() && Sound(m.rings)
      invariant !Ends(s) && Result(s, wrid, m.Value()) == RunOf(start, pool.blockSize, events[..k])
    {
      assert events[..k + 1][..k] == events[..k];
      s, wrid := m.Handle(events[k]);
      m.ValidSettled();
      if Ends(s) {
        RunStops(start, pool.blockSize, events, k + 1);
        return s, m.recvBuf.available, m.held, m.posted, m.connected;
      }
    }
    assert events[..|events|] == events;
    available, held, posted, connected := m.recvBuf.available, m.held, m.posted, m.connected;
  }

  lemma RingIn(rings: seq<Ring>, k: nat)
    requires Sound(rings) && k < |rings|
    ensures rings[k].Valid() && rings[k].Contents() == WindowsOf(rings)[k] && rings[k].end == WindowsOf(rings)[k].next
    ensures rings[k].IsFull() <==> Spanned(WindowsOf(rings)[k], WINDOW)
  {
    rings[k].FullIffSpanned();
  }

  lemma BlockSizePositive(a: MemoryBlockAllocator)
    requires a.Valid()
    ensures a.blockSize > 0
  {
  }

  lemma HeldIsLent(blocks: nat, b: Buffers, i: nat)
    requires Settled(blocks, b) && i in b.held
    ensures i < blocks && i !in b.available
  {
    hide InRange, PostedIs, FlyingOf, Flies;
  }
}
