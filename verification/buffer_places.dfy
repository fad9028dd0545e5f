/** Where the memory blocks are: free, in flight under a work request id, or with their holder. */
module BufferPlaces {
  import opened Wrappers
  import opened Windows
  import opened Wrids

  const WINDOW := 16384
  const RECV_BACKLOG := 1000
  const LENGTH_PREFIX := 4

  /**
   The free blocks, the held ones, each connection's two completion queues, which connections
   are open, and the work requests posted to the device. Blocks go by number.
   */
  datatype Buffers = Buffers(
    available: seq<nat>, held: set<nat>, rings: seq<Window<nat>>, connected: seq<bool>, posted: set<nat>)

  // Each connection has a queue for receives and one for what goes out.
  function Index(c: nat, isOut: bool): nat {
    2 * c + if isOut then 1 else 0
  }

  datatype Status = Fine | BadAlloc | LengthError | OutOfRange | NotConnected | Exhausted

  datatype Opcode = Received | Sent | ReadDone | Unknown

  datatype Result = Result(status: Status, wrid: nat, buffers: Buffers)

  // The last free block is lent.
  function Take(b: Buffers): Buffers {
    if b.available == [] then b
    else
      var n := |b.available| - 1;
      b.(available := b.available[..n], held := b.held + {b.available[n]})
  }

  function Give(b: Buffers, i: nat): Buffers {
    b.(available := b.available + [i], held := b.held - {i})
  }

  // A held block goes in flight under the next id of a queue.
  function Launch(b: Buffers, c: nat, isOut: bool, i: nat): Buffers
    requires Index(c, isOut) < |b.rings|
  {
    var k := Index(c, isOut);
    var wrid := Encode(InternalWrid(b.rings[k].next, c, isOut));
    b.(rings := b.rings[k := Stored(b.rings[k], i)], posted := b.posted + {wrid}, held := b.held - {i})
  }

  /** Puts a block in flight, or frees it if the queue is full. */
  function Post(b: Buffers, c: nat, isOut: bool, i: nat): Result
    requires Index(c, isOut) < |b.rings|
  {
    var w := b.rings[Index(c, isOut)];
    if Spanned(w, WINDOW) then Result(LengthError, 0, Give(b, i))
    else if w.next >= SEQNUM_LIMIT then Result(Exhausted, 0, Give(b, i))
    else Result(Fine, Encode(InternalWrid(w.next, c, isOut)), Launch(b, c, isOut, i))
  }

  /** A fresh block waits for a message from the peer. */
  function PostReceive(b: Buffers, c: nat): Result
    requires Index(c, false) < |b.rings|
  {
    if b.available == [] then Result(BadAlloc, 0, b)
    else Post(Take(b), c, false, b.available[|b.available| - 1])
  }

  /** A holder's block is sent. */
  function Send(b: Buffers, c: nat, i: nat): Result
    requires Index(c, true) < |b.rings| && c < |b.connected|
  {
    if !b.connected[c] then Result(NotConnected, 0, b) else Post(b, c, true, i)
  }

  /** Bytes are read into a holder's block, which must have room for them and a length prefix. */
  function Read(b: Buffers, size: nat, c: nat, i: nat, length: nat): Result
    requires Index(c, true) < |b.rings|
  {
    if length + LENGTH_PREFIX > size then Result(OutOfRange, 0, Give(b, i)) else Post(b, c, true, i)
  }

  // The first n receives of a connection; the first that fails is the last.
  function Backlog(b: Buffers, c: nat, n: nat): (r: Result)
    requires Index(c, true) < |b.rings|
    ensures |r.buffers.rings| == |b.rings| && r.buffers.connected == b.connected
    ensures r.status == Fine || n > 0
  {
    if n == 0 then Result(Fine, 0, b)
    else
      var before := Backlog(b, c, n - 1);
      if before.status != Fine then before else PostReceive(before.buffers, c)
  }

  /** A connection opens with a full backlog of receives. */
  function Connect(b: Buffers, c: nat): Result
    requires Index(c, true) < |b.rings| && c < |b.connected|
  {
    var r := Backlog(b, c, RECV_BACKLOG);
    if r.status != Fine then r else r.(buffers := r.buffers.(connected := r.buffers.connected[c := true]))
  }

  // A work request id names a slot that has a block.
  predicate Outstanding(rings: seq<Window<nat>>, wrid: nat) {
    var e := Decode(wrid);
    wrid < WORD && Index(e.qpIdx, e.isOut) < |rings| && e.seqnum in rings[Index(e.qpIdx, e.isOut)].entries
  }

  // The block a work request was posted with.
  function BlockOf(rings: seq<Window<nat>>, wrid: nat): nat
    requires Outstanding(rings, wrid)
  {
    var e := Decode(wrid);
    rings[Index(e.qpIdx, e.isOut)].entries[e.seqnum]
  }

  // The block of a completed request goes to its holder.
  function Land(b: Buffers, wrid: nat): Buffers
    requires Outstanding(b.rings, wrid)
  {
    var e := Decode(wrid);
    var k := Index(e.qpIdx, e.isOut);
    b.(rings := b.rings[k := Taken(b.rings[k], e.seqnum)], posted := b.posted - {wrid},
      held := b.held + {BlockOf(b.rings, wrid)})
  }

  /** A completion hands its block on; of an unknown kind, the block is freed. */
  function Complete(b: Buffers, wrid: nat, opcode: Opcode): Buffers
    requires Outstanding(b.rings, wrid)
  {
    if opcode == Unknown then Give(Land(b, wrid), BlockOf(b.rings, wrid)) else Land(b, wrid)
  }

  /** A receive that has completed is replaced before its message is handled. */
  function Poll(b: Buffers, wrid: nat, opcode: Opcode): Result
    requires Outstanding(b.rings, wrid)
  {
    var e := Decode(wrid);
    var r := if e.isOut then Result(Fine, 0, b) else PostReceive(b, e.qpIdx);
    if r.status == Fine && Outstanding(r.buffers.rings,
      wrid) then r.(buffers := Complete(r.buffers, wrid, opcode)) else r
  }

  /** What can happen to the buffers. */
  datatype Event =
    | Opens(conn: nat)
    | Sends(conn: nat, block: nat)
    | Reads(conn: nat, block: nat, length: nat)
    | Completes(wrid: nat, opcode: Opcode)
    | Takes
    | Gives(block: nat)

  // Only open-able connections, held blocks and posted requests can be named.
  predicate Sensible(b: Buffers, e: Event) {
    match e
    case Opens(c) => c < |b.connected| && Index(c, true) < |b.rings|
    case Sends(c, i) => c < |b.connected| && Index(c, true) < |b.rings| && i in b.held
    case Reads(c, i, _) => c < |b.connected| && Index(c, true) < |b.rings| && i in b.held
    case Completes(wrid, _) => wrid in b.posted && Outstanding(b.rings, wrid)
    case Takes => true
    case Gives(i) => i in b.held
  }

  function Step(b: Buffers, size: nat, e: Event): Result {
    if !Sensible(b, e) then Result(Fine, 0, b)
    else
      match e
      case Opens(c) => Connect(b, c)
      case Sends(c, i) => Send(b, c, i)
      case Reads(c, i, length) => Read(b, size, c, i, length)
      case Completes(wrid, opcode) => Poll(b, wrid, opcode)
      case Takes => Result(if b.available == [] then BadAlloc else Fine, 0, Take(b))
      case Gives(i) => Result(Fine, 0, Give(b, i))
  }

  // The process ends when a queue has used up its sequence numbers, or at a send without a connection.
  predicate Ends(status: Status) {
    status == Exhausted || status == NotConnected
  }

  /** The buffers after some events; nothing happens once the process has ended. */
  function RunOf(start: Buffers, size: nat, events: seq<Event>): Result {
    if events == [] then Result(Fine, 0, start)
    else
      var before := RunOf(start, size, events[..|events| - 1]);
      if Ends(before.status) then before else Step(before.buffers, size, events[|events| - 1])
  }

  // All blocks free, no connection open.
  function Fresh(blocks: nat, conns: nat): Buffers {
    Buffers(seq(blocks, i => i), {}, seq(2 * conns, _ => Window(map[], 1)), seq(conns, _ => false), {})
  }

  /** Each of the numbered blocks is free, or held, or in flight under one id: exactly one of the three. */
  ghost predicate OnePlaceEach(blocks: nat, available: seq<nat>, held: set<nat>, flying: map<nat, nat>) {
    && NoRepeats(available)
    && (forall i {:trigger i in available} | i in available :: i < blocks && i !in held)
    && (forall i {:trigger i in held} | i in held :: i < blocks)
    && (forall w {:trigger flying[w]} | w in flying ::
          flying[w] < blocks && flying[w] !in available && flying[w] !in held)
    && (forall w, v {:trigger flying[w], flying[v]} | w in flying && v in flying && w != v :: flying[w] != flying[v])
    && (forall i: nat {:trigger i in available} {:trigger i in held} | i < blocks && i !in available && i !in held ::
          Flies(flying, i))
  }

  ghost predicate Flies(flying: map<nat, nat>, i: nat) {
    exists w {:trigger w in flying} :: w in flying && flying[w] == i
  }

  lemma PlacesTake(blocks: nat, available: seq<nat>, held: set<nat>, flying: map<nat, nat>)
    requires OnePlaceEach(blocks, available, held, flying) && available != []
    ensures var n := |available| - 1;
      OnePlaceEach(blocks, available[..n], held + {available[n]}, flying) && available[n] !in held
  {
    hide Flies;
    var n := |available| - 1;
    var i, rest := available[n], available[..n];
    assert i in available && available == rest + [i];
    assert forall j {:trigger j in rest} :: j in rest <==> j in available && j != i;
  }

  lemma PlacesGive(blocks: nat, available: seq<nat>, held: set<nat>, flying: map<nat, nat>, i: nat)
    requires OnePlaceEach(blocks, available, held, flying) && i in held
    ensures OnePlaceEach(blocks, available + [i], held - {i}, flying)
  {
    assert forall j {:trigger j in available + [i]} :: j in available + [i] <==> j in available || j == i;
    assert i !in available;
    forall j: nat | j < blocks && j !in available + [i] && j !in held - {i} ensures Flies(flying, j) {
      assert j !in held && j !in available;
    }
    hide Flies;
  }

  lemma PlacesLaunch(blocks: nat, available: seq<nat>, held: set<nat>, flying: map<nat, nat>, i: nat, w: nat)
    requires OnePlaceEach(blocks, available, held, flying) && i in held && w !in flying
    ensures OnePlaceEach(blocks, available, held - {i}, flying[w := i])
  {
    var flying' := flying[w := i];
    forall j: nat | j < blocks && j !in available && j !in held - {i} ensures Flies(flying', j) {
      if j == i {
        assert w in flying';
      } else {
        assert Flies(flying, j);
        var v :| v in flying && flying[v] == j;
        assert v in flying' && flying'[v] == j;
      }
    }
    hide Flies;
  }

  lemma PlacesLand(blocks: nat, available: seq<nat>, held: set<nat>, flying: map<nat, nat>, w: nat)
    requires OnePlaceEach(blocks, available, held, flying) && w in flying
    ensures OnePlaceEach(blocks, available, held + {flying[w]}, flying - {w})
  {
    var flying', i := flying - {w}, flying[w];
    forall j: nat | j < blocks && j !in available && j !in held + {i} ensures Flies(flying', j) {
      assert Flies(flying, j);
      var v :| v in flying && flying[v] == j;
      assert v in flying' && flying'[v] == j;
    }
    hide Flies;
  }

  // Queues for as many connections as an id can tell apart, with increasing ids.
  ghost predicate InRange(rings: seq<Window<nat>>) {
    && |rings| <= 2 * QP_LIMIT
    && forall k {:trigger rings[k]} | 0 <= k < |rings| ::
         0 < rings[k].next <= SEQNUM_LIMIT && Within(rings[k], WINDOW)
  }

  // The ids posted to the device and not completed are those of the slots that have a block.
  ghost predicate PostedIs(rings: seq<Window<nat>>, posted: set<nat>) {
    forall wrid: nat {:trigger wrid in posted} {:trigger Outstanding(rings, wrid)} ::
      wrid in posted <==> Outstanding(rings, wrid)
  }

  ghost function FlyingOf(rings: seq<Window<nat>>, posted: set<nat>): map<nat, nat> {
    map w | w in posted && Outstanding(rings, w) ::
      if w in posted && Outstanding(rings, w) then BlockOf(rings, w) else 0
  }

  /** What holds of the buffers at all times. */
  ghost predicate Settled(blocks: nat, b: Buffers) {
    && |b.rings| == 2 * |b.connected| && InRange(b.rings) && PostedIs(b.rings, b.posted)
    && OnePlaceEach(blocks, b.available, b.held, FlyingOf(b.rings, b.posted))
  }

  lemma TakeSettled(blocks: nat, b: Buffers)
    requires Settled(blocks, b)
    ensures Settled(blocks, Take(b)) && (b.available != [] ==> b.available[|b.available| - 1] in Take(b).held)
  {
    hide OnePlaceEach, InRange, PostedIs, FlyingOf;
    if b.available != [] {
      PlacesTake(blocks, b.available, b.held, FlyingOf(b.rings, b.posted));
    }
  }

  lemma GiveSettled(blocks: nat, b: Buffers, i: nat)
    requires Settled(blocks, b) && i in b.held
    ensures Settled(blocks, Give(b, i))
  {
    hide OnePlaceEach, InRange, PostedIs, FlyingOf;
    PlacesGive(blocks, b.available, b.held, FlyingOf(b.rings, b.posted), i);
  }

  // Two connections' queues are told apart.
  lemma IndexApart(c: nat, o: bool, d: nat, p: bool)
    ensures Index(c, o) == Index(d, p) <==> c == d && o == p
  {
  }

  lemma LaunchRings(rings: seq<Window<nat>>, c: nat, isOut: bool, i: nat, x: nat)
    requires InRange(rings) && Index(c, isOut) < |rings| && rings[Index(c, isOut)].next < SEQNUM_LIMIT
    ensures var k := Index(c, isOut); var rings' := rings[k := Stored(rings[k], i)];
      var wrid := Encode(InternalWrid(rings[k].next, c, isOut));
      && (Outstanding(rings', x) <==> Outstanding(rings, x) || x == wrid) && !Outstanding(rings, wrid)
      && (Outstanding(rings, x) ==> BlockOf(rings', x) == BlockOf(rings, x))
      && Outstanding(rings', wrid) && BlockOf(rings', wrid) == i
  {
    var k := Index(c, isOut);
    var e := InternalWrid(rings[k].next, c, isOut);
    RoundTripIff(e);
    EncodeIsWord(e);
    if x < WORD {
      DecodeThenEncode(x);
      IndexApart(Decode(x).qpIdx, Decode(x).isOut, c, isOut);
    }
    hide Encode, Decode, Index;
    assert rings[k].next !in rings[k].entries;
  }

  // The same work requests are out but for one more, and each with its block.
  ghost predicate OneMore(rings: seq<Window<nat>>, rings': seq<Window<nat>>, wrid: nat, i: nat) {
    && !Outstanding(rings, wrid) && Outstanding(rings', wrid) && BlockOf(rings', wrid) == i
    && forall x: nat {:trigger Outstanding(rings, x)} {:trigger Outstanding(rings', x)} ::
         && (Outstanding(rings', x) <==> Outstanding(rings, x) || x == wrid)
         && (Outstanding(rings, x) ==> BlockOf(rings', x) == BlockOf(rings, x))
  }

  lemma FlyingMore(rings: seq<Window<nat>>, rings': seq<Window<nat>>, posted: set<nat>, wrid: nat, i: nat)
    requires PostedIs(rings, posted) && OneMore(rings, rings', wrid, i)
    ensures wrid !in posted && PostedIs(rings', posted + {wrid})
    ensures FlyingOf(rings', posted + {wrid}) == FlyingOf(rings, posted)[wrid := i]
  {
    hide Outstanding, BlockOf;
    var was, now := FlyingOf(rings, posted)[wrid := i], FlyingOf(rings', posted + {wrid});
    forall x: nat ensures x in now <==> x in was {
      assert Outstanding(rings, x) ==> Outstanding(rings', x);
    }
    forall x | x in now ensures now[x] == was[x] {
      assert Outstanding(rings', x);
    }
  }

  lemma LaunchOneMore(rings: seq<Window<nat>>, c: nat, isOut: bool, i: nat)
    requires InRange(rings) && Index(c, isOut) < |rings| && rings[Index(c, isOut)].next < SEQNUM_LIMIT
    ensures var k := Index(c, isOut);
      OneMore(rings, rings[k := Stored(rings[k], i)], Encode(InternalWrid(rings[k].next, c, isOut)), i)
  {
    var k := Index(c, isOut);
    var rings' := rings[k := Stored(rings[k], i)];
    var wrid := Encode(InternalWrid(rings[k].next, c, isOut));
    hide Index, Outstanding, BlockOf, InRange;
    LaunchRings(rings, c, isOut, i, wrid);
    forall x: nat ensures (Outstanding(rings', x) <==> Outstanding(rings, x) || x == wrid) &&
      (Outstanding(rings, x) ==> BlockOf(rings', x) == BlockOf(rings, x))
    {
      LaunchRings(rings, c, isOut, i, x);
    }
  }

  lemma RangeSet(rings: seq<Window<nat>>, k: nat, w: Window<nat>)
    requires InRange(rings) && k < |rings| && 0 < w.next <= SEQNUM_LIMIT && Within(w, WINDOW)
    ensures InRange(rings[k := w])
  {
  }

  lemma RangeOf(rings: seq<Window<nat>>, k: nat)
    requires InRange(rings) && k < |rings|
    ensures 0 < rings[k].next <= SEQNUM_LIMIT && Within(rings[k], WINDOW)
  {
  }

  lemma LaunchSettled(blocks: nat, b: Buffers, c: nat, isOut: bool, i: nat)
    requires Settled(blocks, b) && i in b.held && Index(c, isOut) < |b.rings|
    requires b.rings[Index(c, isOut)].next < SEQNUM_LIMIT && !Spanned(b.rings[Index(c, isOut)], WINDOW)
    ensures Settled(blocks, Launch(b, c, isOut, i))
  {
    hide OnePlaceEach, OneMore, Index, InRange, PostedIs, FlyingOf, Within, Spanned;
    var k := Index(c, isOut);
    var wrid := Encode(InternalWrid(b.rings[k].next, c, isOut));
    var rings := b.rings[k := Stored(b.rings[k], i)];
    LaunchOneMore(b.rings, c, isOut, i);
    RangeOf(b.rings, k);
    StoredWithin(b.rings[k], i);
    RangeSet(b.rings, k, Stored(b.rings[k], i));
    FlyingMore(b.rings, rings, b.posted, wrid, i);
    NotFlying(b.rings, b.posted, wrid);
    PlacesLaunch(blocks, b.available, b.held, FlyingOf(b.rings, b.posted), i, wrid);
  }

  lemma NotFlying(rings: seq<Window<nat>>, posted: set<nat>, wrid: nat)
    requires wrid !in posted
    ensures wrid !in FlyingOf(rings, posted)
  {
    hide Outstanding, BlockOf;
  }

  lemma StoredWithin(w: Window<nat>, i: nat)
    requires Within(w, WINDOW) && !Spanned(w, WINDOW) && w.next > 0
    ensures Within(Stored(w, i), WINDOW)
  {
  }

  lemma LandRings(rings: seq<Window<nat>>, wrid: nat, x: nat)
    requires Outstanding(rings, wrid)
    ensures var e := Decode(wrid); var k := Index(e.qpIdx, e.isOut); var rings' :=
      rings[k := Taken(rings[k], e.seqnum)];
      && (Outstanding(rings', x) <==> Outstanding(rings, x) && x != wrid)
      && (Outstanding(rings', x) ==> BlockOf(rings', x) == BlockOf(rings, x))
  {
    DecodeThenEncode(wrid);
    var e := Decode(wrid);
    if x < WORD {
      DecodeThenEncode(x);
      IndexApart(Decode(x).qpIdx, Decode(x).isOut, e.qpIdx, e.isOut);
    }
    hide Encode, Decode, Index;
  }

  ghost predicate OneLess(rings: seq<Window<nat>>, rings': seq<Window<nat>>, wrid: nat) {
    forall x: nat {:trigger Outstanding(rings, x)} {:trigger Outstanding(rings', x)} ::
      && (Outstanding(rings', x) <==> Outstanding(rings, x) && x != wrid)
      && (Outstanding(rings', x) ==> BlockOf(rings', x) == BlockOf(rings, x))
  }

  lemma FlyingLess(rings: seq<Window<nat>>, rings': seq<Window<nat>>, posted: set<nat>, wrid: nat)
    requires PostedIs(rings, posted) && OneLess(rings, rings', wrid) && Outstanding(rings, wrid)
    ensures wrid in posted && PostedIs(rings', posted - {wrid})
    ensures FlyingOf(rings', posted - {wrid}) == FlyingOf(rings, posted) - {wrid}
    ensures wrid in FlyingOf(rings, posted) && FlyingOf(rings, posted)[wrid] == BlockOf(rings, wrid)
  {
    hide Outstanding, BlockOf;
    var was, now := FlyingOf(rings, posted) - {wrid}, FlyingOf(rings', posted - {wrid});
    forall x: nat ensures x in now <==> x in was {
      assert Outstanding(rings', x) ==> Outstanding(rings, x);
    }
    forall x | x in now ensures now[x] == was[x] {
      assert Outstanding(rings', x);
    }
  }

  lemma LandOneLess(rings: seq<Window<nat>>, wrid: nat)
    requires Outstanding(rings, wrid)
    ensures var e := Decode(wrid); var k := Index(e.qpIdx, e.isOut);
      k < |rings| && OneLess(rings, rings[k := Taken(rings[k], e.seqnum)], wrid)
  {
    var e := Decode(wrid);
    var k := Index(e.qpIdx, e.isOut);
    var rings' := rings[k := Taken(rings[k], e.seqnum)];
    hide Index, Outstanding, BlockOf, Decode;
    forall x: nat ensures (Outstanding(rings', x) <==> Outstanding(rings, x) && x != wrid) &&
      (Outstanding(rings', x) ==> BlockOf(rings', x) == BlockOf(rings, x))
    {
      LandRings(rings, wrid, x);
    }
  }

  lemma TakenWithin(w: Window<nat>, id: nat)
    requires Within(w, WINDOW)
    ensures Within(Taken(w, id), WINDOW)
  {
  }

  lemma LandSettled(blocks: nat, b: Buffers, wrid: nat)
    requires Settled(blocks, b) && Outstanding(b.rings, wrid)
    ensures Settled(blocks, Land(b, wrid)) && BlockOf(b.rings, wrid) in Land(b, wrid).held
  {
    hide OnePlaceEach, OneLess, Index, InRange, PostedIs, FlyingOf, Within, Decode, BlockOf;
    var e := Decode(wrid);
    var k := Index(e.qpIdx, e.isOut);
    LandOneLess(b.rings, wrid);
    RangeOf(b.rings, k);
    TakenWithin(b.rings[k], e.seqnum);
    RangeSet(b.rings, k, Taken(b.rings[k], e.seqnum));
    FlyingLess(b.rings, b.rings[k := Taken(b.rings[k], e.seqnum)], b.posted, wrid);
    PlacesLand(blocks, b.available, b.held, FlyingOf(b.rings, b.posted), wrid);
  }

  // A queue takes one more: it is not full and has ids left.
  predicate HasRoom(w: Window<nat>) {
    !Spanned(w, WINDOW) && w.next < SEQNUM_LIMIT
  }

  /**
   A post keeps every block in one place. It succeeds exactly when the queue has room; if not, the block
   is free again and nothing else has changed.
   */
  lemma PostSettled(blocks: nat, b: Buffers, c: nat, isOut: bool, i: nat)
    requires Settled(blocks, b) && i in b.held && Index(c, isOut) < |b.rings|
    ensures var r := Post(b, c, isOut, i);
      && Settled(blocks, r.buffers) && (r.status == Fine <==> HasRoom(b.rings[Index(c, isOut)]))
      && (if r.status == Fine then NewFlight(b, r, i) else r.buffers == Give(b, i))
      && |r.buffers.rings| == |b.rings| && r.buffers.connected == b.connected
  {
    hide Settled, Encode, Index, Spanned;
    if !HasRoom(b.rings[Index(c, isOut)]) {
      GiveSettled(blocks, b, i);
    } else {
      LaunchSettled(blocks, b, c, isOut, i);
      SettledRange(blocks, b);
      LaunchRings(b.rings, c, isOut, i, 0);
      SettledPosted(blocks, b, Post(b, c, isOut, i).wrid);
    }
  }

  // The block has left its holder under a new id that leads back to it.
  ghost predicate NewFlight(b: Buffers, r: Result, i: nat) {
    && r.wrid !in b.posted && r.buffers.posted == b.posted + {r.wrid} && r.buffers.held == b.held - {i}
    && Outstanding(r.buffers.rings, r.wrid) && BlockOf(r.buffers.rings, r.wrid) == i
  }

  lemma SettledRange(blocks: nat, b: Buffers)
    requires Settled(blocks, b)
    ensures InRange(b.rings) && |b.rings| == 2 * |b.connected|
  {
  }

  lemma SettledPosted(blocks: nat, b: Buffers, wrid: nat)
    requires Settled(blocks, b)
    ensures wrid in b.posted <==> Outstanding(b.rings, wrid)
  {
    hide InRange, OnePlaceEach, FlyingOf;
  }

  lemma PostReceiveSettled(blocks: nat, b: Buffers, c: nat)
    requires Settled(blocks, b) && Index(c, false) < |b.rings|
    ensures var r := PostReceive(b, c);
      && Settled(blocks, r.buffers) && (r.status == BadAlloc <==> b.available == [])
      && |r.buffers.rings| == |b.rings| && r.buffers.connected == b.connected
    ensures PostReceive(b, c).status == Fine ==>
      NewFlight(Take(b), PostReceive(b, c), b.available[|b.available| - 1])
  {
    hide Settled, NewFlight;
    TakeSettled(blocks, b);
    if b.available != [] {
      PostSettled(blocks, Take(b), c, false, b.available[|b.available| - 1]);
    }
  }

  lemma {:induction false} BacklogSettled(blocks: nat, b: Buffers, c: nat, n: nat)
    requires Settled(blocks, b) && Index(c, true) < |b.rings|
    ensures Settled(blocks, Backlog(b, c, n).buffers)
  {
    hide Settled, PostReceive, NewFlight;
    if n > 0 {
      BacklogSettled(blocks, b, c, n - 1);
      PostReceiveSettled(blocks, Backlog(b, c, n - 1).buffers, c);
    }
  }

  lemma CompleteSettled(blocks: nat, b: Buffers, wrid: nat, opcode: Opcode)
    requires Settled(blocks, b) && Outstanding(b.rings, wrid)
    ensures Settled(blocks, Complete(b, wrid, opcode))
  {
    hide Settled, Outstanding, BlockOf;
    LandSettled(blocks, b, wrid);
    if opcode == Unknown {
      GiveSettled(blocks, Land(b, wrid), BlockOf(b.rings, wrid));
    }
  }

  /** A completion is handled with its own block even if a receive is posted first. */
  lemma PollSettled(blocks: nat, b: Buffers, wrid: nat, opcode: Opcode)
    requires Settled(blocks, b) && Outstanding(b.rings, wrid)
    ensures Settled(blocks, Poll(b, wrid, opcode).buffers)
    ensures var e := Decode(wrid); var r := if e.isOut then Result(Fine, 0, b) else PostReceive(b, e.qpIdx);
      r.status == Fine ==>
        Outstanding(r.buffers.rings, wrid) && BlockOf(r.buffers.rings, wrid) == BlockOf(b.rings, wrid)
  {
    var e := Decode(wrid);
    if e.isOut {
      hide Settled, Outstanding, BlockOf, Complete;
      CompleteSettled(blocks, b, wrid, opcode);
    } else {
      PostReceiveSettled(blocks, b, e.qpIdx);
      ReceiveKeeps(blocks, b, e.qpIdx, wrid);
      hide Settled, Outstanding, BlockOf, Complete, PostReceive, NewFlight;
      var r := PostReceive(b, e.qpIdx);
      if r.status == Fine {
        CompleteSettled(blocks, r.buffers, wrid, opcode);
      }
    }
  }

  lemma ReceiveKeeps(blocks: nat, b: Buffers, c: nat, wrid: nat)
    requires Settled(blocks, b) && Index(c, false) < |b.rings| && Outstanding(b.rings, wrid)
    ensures var r := PostReceive(b, c);
      r.status == Fine ==>
        Outstanding(r.buffers.rings, wrid) && BlockOf(r.buffers.rings, wrid) == BlockOf(b.rings, wrid)
  {
    SettledRange(blocks, b);
    hide Settled, InRange, Outstanding, BlockOf, Encode, Index, Spanned;
    if PostReceive(b, c).status == Fine {
      LaunchRings(b.rings, c, false, b.available[|b.available| - 1], wrid);
    }
  }

  /** No event loses a block or puts it in two places. */
  lemma StepSettled(blocks: nat, b: Buffers, size: nat, e: Event)
    requires Settled(blocks, b)
    ensures Settled(blocks, Step(b, size, e).buffers)
  {
    hide Settled, Poll, PostReceive, Post, NewFlight, Outstanding, Backlog, Decode, BlockOf;
    if Sensible(b, e) {
      match e
      case Opens(c) =>
        BacklogSettled(blocks, b, c, RECV_BACKLOG);
        var r := Backlog(b, c, RECV_BACKLOG);
        ConnectedSettled(blocks, r.buffers, c);
      case Sends(c, i) => PostSettled(blocks, b, c, true, i);
      case Reads(c, i, length) =>
        GiveSettled(blocks, b, i);
        PostSettled(blocks, b, c, true, i);
      case Completes(wrid, opcode) => PollSettled(blocks, b, wrid, opcode);
      case Takes => TakeSettled(blocks, b);
      case Gives(i) => GiveSettled(blocks, b, i);
    }
  }

  lemma ConnectedSettled(blocks: nat, b: Buffers, c: nat)
    requires Settled(blocks, b) && c < |b.connected|
    ensures Settled(blocks, b.(connected := b.connected[c := true]))
  {
    hide InRange, PostedIs, OnePlaceEach, FlyingOf;
  }

  lemma FreshSettled(blocks: nat, conns: nat)
    requires conns <= QP_LIMIT
    ensures Settled(blocks, Fresh(blocks, conns))
  {
    hide Decode;
    var b := Fresh(blocks, conns);
    assert forall i: nat {:trigger i in b.available} | i < blocks :: b.available[i] == i;
    forall i: nat | i < blocks ensures i in b.available {
      assert b.available[i] == i;
    }
  }

  /** Every run, also past calls that throw: each block is free, or with one holder, or in flight under one id. */
  lemma {:induction false} RunSettled(blocks: nat, conns: nat, size: nat, events: seq<Event>)
    requires conns <= QP_LIMIT
    ensures var b := RunOf(Fresh(blocks, conns), size, events).buffers;
      Settled(blocks, b) && OnePlaceEach(blocks, b.available, b.held, FlyingOf(b.rings, b.posted))
  {
    hide Settled, Step, Fresh, OnePlaceEach, FlyingOf;
    if events == [] {
      FreshSettled(blocks, conns);
    } else {
      var n := |events| - 1;
      RunSettled(blocks, conns, size, events[..n]);
      var before := RunOf(Fresh(blocks, conns), size, events[..n]);
      if !Ends(before.status) {
        StepSettled(blocks, before.buffers, size, events[n]);
      }
    }
    SettledPlaces(blocks, RunOf(Fresh(blocks, conns), size, events).buffers);
  }

  lemma SettledPlaces(blocks: nat, b: Buffers)
    requires Settled(blocks, b)
    ensures OnePlaceEach(blocks, b.available, b.held, FlyingOf(b.rings, b.posted))
  {
    hide OnePlaceEach;
  }

  // No queue has handed out an id from m on.
  ghost predicate Below(rings: seq<Window<nat>>, m: nat) {
    forall k {:trigger rings[k]} | 0 <= k < |rings| :: rings[k].next <= m
  }

  lemma PostBelow(b: Buffers, c: nat, isOut: bool, i: nat, m: nat)
    requires Index(c, isOut) < |b.rings| && Below(b.rings, m) && m < SEQNUM_LIMIT
    ensures var r := Post(b, c, isOut, i); r.status != Exhausted && Below(r.buffers.rings, m + 1)
  {
    hide Encode;
  }

  lemma {:induction false} BacklogBelow(b: Buffers, c: nat, n: nat, m: nat)
    requires Index(c, true) < |b.rings| && Below(b.rings, m) && m + n <= SEQNUM_LIMIT
    ensures var r := Backlog(b, c, n); r.status != Exhausted && Below(r.buffers.rings, m + n)
  {
    hide Below, Post;
    if n > 0 {
      BacklogBelow(b, c, n - 1, m);
      var before := Backlog(b, c, n - 1).buffers;
      if before.available != [] {
        PostBelow(Take(before), c, false, before.available[|before.available| - 1], m + n - 1);
      }
      Loosen(before.rings, m + n - 1, m + n);
    }
  }

  lemma Loosen(rings: seq<Window<nat>>, m: nat, n: nat)
    requires Below(rings, m) && m <= n
    ensures Below(rings, n)
  {
  }

  lemma LandBelow(b: Buffers, wrid: nat, opcode: Opcode, m: nat)
    requires Outstanding(b.rings, wrid) && Below(b.rings, m)
    ensures Below(Complete(b, wrid, opcode).rings, m)
  {
    hide Decode;
  }

  lemma StepBelow(b: Buffers, size: nat, e: Event, m: nat)
    requires Below(b.rings, m) && m + RECV_BACKLOG <= SEQNUM_LIMIT
    ensures var r := Step(b, size, e); r.status != Exhausted && Below(r.buffers.rings, m + RECV_BACKLOG)
  {
    hide Below, Post, Complete, Outstanding, Decode, Backlog;
    Loosen(b.rings, m, m + 1);
    Loosen(b.rings, m, m + RECV_BACKLOG);
    if Sensible(b, e) {
      match e
      case Opens(c) => BacklogBelow(b, c, RECV_BACKLOG, m);
      case Sends(c, i) =>
        PostBelow(b, c, true, i, m);
        Loosen(Post(b, c, true, i).buffers.rings, m + 1, m + RECV_BACKLOG);
      case Reads(c, i, length) =>
        PostBelow(b, c, true, i, m);
        Loosen(Post(b, c, true, i).buffers.rings, m + 1, m + RECV_BACKLOG);
      case Completes(wrid, opcode) => PollBelow(b, wrid, opcode, m);
      case Takes =>
      case Gives(i) =>
    }
  }

  lemma PollBelow(b: Buffers, wrid: nat, opcode: Opcode, m: nat)
    requires Outstanding(b.rings, wrid) && Below(b.rings, m) && m + RECV_BACKLOG <= SEQNUM_LIMIT
    ensures var r := Poll(b, wrid, opcode); r.status != Exhausted && Below(r.buffers.rings, m + RECV_BACKLOG)
  {
    var e := Decode(wrid);
    hide Below, Post, Complete, Decode;
    if !e.isOut && b.available != [] {
      PostBelow(Take(b), e.qpIdx, false, b.available[|b.available| - 1], m);
    }
    Loosen(b.rings, m, m + 1);
    var r := if e.isOut then Result(Fine, 0, b) else PostReceive(b, e.qpIdx);
    Loosen(r.buffers.rings, m + 1, m + RECV_BACKLOG);
    hide Outstanding, PostReceive;
    if r.status == Fine && Outstanding(r.buffers.rings, wrid) {
      LandBelow(r.buffers, wrid, opcode, m + RECV_BACKLOG);
    }
  }

  /** Within the first 8 thousand million events no queue uses up its sequence numbers. */
  lemma {:induction false} RunNotExhausted(blocks: nat, conns: nat, size: nat, events: seq<Event>)
    requires 1 + RECV_BACKLOG * |events| <= SEQNUM_LIMIT
    ensures var r := RunOf(Fresh(blocks, conns), size, events);
      r.status != Exhausted && Below(r.buffers.rings, 1 + RECV_BACKLOG * |events|)
  {
    if events != [] {
      hide Step, Fresh, Below;
      var n := |events| - 1;
      RunNotExhausted(blocks, conns, size, events[..n]);
      var before := RunOf(Fresh(blocks, conns), size, events[..n]).buffers;
      StepBelow(before, size, events[n], 1 + RECV_BACKLOG * n);
      Loosen(before.rings, 1 + RECV_BACKLOG * n, 1 + RECV_BACKLOG * |events|);
    }
  }

  // A held block is sent on a connection that is not open.
  predicate Rash(b: Buffers, e: Event) {
    e.Sends? && Sensible(b, e) && !b.connected[e.conn]
  }

  lemma PostStatus(b: Buffers, c: nat, isOut: bool, i: nat)
    requires Index(c, isOut) < |b.rings|
    ensures Post(b, c, isOut, i).status != NotConnected
  {
  }

  lemma {:induction false} BacklogStatus(b: Buffers, c: nat, n: nat)
    requires Index(c, true) < |b.rings|
    ensures Backlog(b, c, n).status != NotConnected
  {
    hide Post;
    if n > 0 {
      BacklogStatus(b, c, n - 1);
      var before := Backlog(b, c, n - 1).buffers;
      if before.available != [] {
        PostStatus(Take(before), c, false, before.available[|before.available| - 1]);
      }
    }
  }

  lemma StepRashIff(b: Buffers, size: nat, e: Event)
    ensures Step(b, size, e).status == NotConnected <==> Rash(b, e)
  {
    hide Post, Complete, Outstanding, Decode, Backlog;
    if Sensible(b, e) {
      match e
      case Opens(c) => BacklogStatus(b, c, RECV_BACKLOG);
      case Sends(c, i) => PostStatus(b, c, true, i);
      case Reads(c, i, length) => PostStatus(b, c, true, i);
      case Completes(wrid, opcode) => PollStatus(b, wrid, opcode);
      case Takes =>
      case Gives(i) =>
    }
  }

  lemma PollStatus(b: Buffers, wrid: nat, opcode: Opcode)
    requires Outstanding(b.rings, wrid)
    ensures Poll(b, wrid, opcode).status != NotConnected
  {
    var e := Decode(wrid);
    if b.available != [] && !e.isOut {
      PostStatus(Take(b), e.qpIdx, false, b.available[|b.available| - 1]);
    }
    hide Post, Complete, Decode;
  }

  // Some event is rash when its turn comes.
  ghost predicate SomeRash(start: Buffers, size: nat, events: seq<Event>) {
    exists k {:trigger events[k]} :: 0 <= k < |events| && Rash(RunOf(start, size, events[..k]).buffers, events[k])
  }

  lemma SomeRashMore(start: Buffers, size: nat, events: seq<Event>)
    requires events != []
    ensures var n := |events| - 1;
      SomeRash(start, size, events) <==>
        SomeRash(start, size, events[..n]) || Rash(RunOf(start, size, events[..n]).buffers, events[n])
  {
    hide RunOf, Rash;
    var n := |events| - 1;
    assert forall k {:trigger events[k]} | 0 <= k < n :: events[..n][..k] == events[..k] && events[..n][k] == events[k];
    if SomeRash(start, size, events[..n]) {
      var k :| 0 <= k < n && Rash(RunOf(start, size, events[..n][..k]).buffers, events[..n][k]);
      assert Rash(RunOf(start, size, events[..k]).buffers, events[k]);
    }
  }

  /** Until then a run ends exactly when a held block is sent on a connection that is not open. */
  lemma {:induction false} RunEndsIff(blocks: nat, conns: nat, size: nat, events: seq<Event>)
    requires 1 + RECV_BACKLOG * |events| <= SEQNUM_LIMIT
    ensures var start := Fresh(blocks, conns);
      Ends(RunOf(start, size, events).status) <==> SomeRash(start, size, events)
  {
    var start := Fresh(blocks, conns);
    RunNotExhausted(blocks, conns, size, events);
    if events != [] {
      hide Step, Fresh, Rash, SomeRash, Below;
      var n := |events| - 1;
      RunEndsIff(blocks, conns, size, events[..n]);
      SomeRashMore(start, size, events);
      var before := RunOf(start, size, events[..n]);
      StepRashIff(before.buffers, size, events[n]);
    }
  }
}
