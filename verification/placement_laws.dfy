/** Where sessions are placed, and how they follow their rates: said outright. */
module PlacementLaws {
  import opened Wrappers
  import opened DutyCycles
  import opened BackendDelegates
  import opened Routing
  import opened Orderings
  import opened Placement
  import opened PlacementSafety
  import opened PlacementEpochs

  /**
   An offer: the backend is not skipped, has nothing to run if the rate is next to nothing, and would
   take the session so.
   */
  lemma OfferedIff(backends: Backends, s: Session, rate: real, skips: set<NodeId>, c: Candidate)
    ensures Offered(backends, s, rate, skips, c) <==>
      && c.rate == rate && c.node in backends && c.node !in skips
      && (-0.001 < rate < 0.001 ==> backends[c.node].gpu.exec == 0.0)
      && Prepare(backends[c.node].profiles, backends[c.node].gpu, s, rate) == Ready(c.inst, c.occupancy)
  {
    hide Prepare;
  }

  // A session's entry.
  ghost function Entry(table: Table, s: Session, info: SessionInfo): Table {
    table[s := info]
  }

  /** One backend takes the session on as it offered: it is on the route with its throughput. */
  ghost predicate TakesOn(net: Net, s: Session, c: Candidate, net': Net) {
    && c.node in net.backends && s in net.table && c.node !in net.table[s].weights && c.node in net'.backends
    && Loaded(net.backends[c.node].gpu, c.inst) == Some(net'.backends[c.node].gpu)
    && net'.backends == net.backends[c.node := net.backends[c.node].(gpu := net'.backends[c.node].gpu)]
    && net'.table == Entry(net.table, s,
         SessionInfo(net.table[s].weights[c.node := c.inst.throughput], net.table[s].unassigned))
  }

  /**
   The session goes on one backend after the other, each an offer that no other beats for what is still to be
   served, until that is next to nothing or nobody offers.
   */
  ghost predicate Greedy(net: Net, s: Session, rate: real, chosen: seq<Candidate>, net': Net, rest: real)
    decreases |chosen|
  {
    if chosen == [] then
      net' == net && rest == rate && (rate <= 0.001 || Unoffered(net.backends, s, rate, {}))
    else
      && rate > 0.001 && Unbeaten(net.backends, s, rate, {}, chosen[0])
      && exists mid {:trigger TakesOn(net, s, chosen[0], mid)} ::
           TakesOn(net, s, chosen[0], mid) && Greedy(mid, s, rate - chosen[0].inst.throughput, chosen[1..], net', rest)
  }

  lemma LoadOnTakes(net: Net, s: Session, c: Candidate)
    requires Sane(net) && s in net.table && Willing(net.backends, s, c)
    ensures LoadOn(net, s, c).Some? && TakesOn(net, s, c, LoadOn(net, s, c).value)
  {
    hide Sane, Prepare, Loaded;
    LoadOnKeeps(net, s, c);
  }

  lemma {:induction false} PlaceAllGreedy(net: Net, nodes: seq<NodeId>, s: Session, rate: real)
    requires Sane(net) && s in net.table && Lists(nodes, net.backends.Keys) && PlaceAll(net, nodes, s, rate).Some?
    ensures var p := PlaceAll(net, nodes, s, rate).value; Greedy(net, s, rate, p.placed, p.net, p.rate)
    decreases |Lacking(net.backends, s)|
  {
    hide Sane, Lists, BestBackend, LoadOn, Lacking, Unoffered, Willing, Unbeaten, TakesOn, Kin, SetWeight;
    var r, p := BestBackend(net.backends, nodes, s, rate, {}), PlaceAll(net, nodes, s, rate).value;
    if rate > SMALL {
      BestOrNone(net.backends, nodes, s, rate, {});
      if r.Best? {
        var c := r.candidate;
        LoadOnKeeps(net, s, c);
        LoadOnTakes(net, s, c);
        LackingShrinks(net, s, c);
        var mid := LoadOn(net, s, c).value;
        KinKeys(net, mid);
        PlaceAllGreedy(mid, nodes, s, rate - c.inst.throughput);
        assert p.placed[0] == c && p.placed[1..] == PlaceAll(mid, nodes, s, rate - c.inst.throughput).value.placed;
      }
    }
  }

  /** What a session lacks is placed; the rest stays unassigned, and next to nothing counts as nothing. */
  ghost predicate PlacedFor(net: Net, s: Session, net': Net) {
    s in net.table &&
    exists chosen, mid, rest {:trigger Greedy(net, s, net.table[s].unassigned, chosen, mid, rest)} ::
      && Greedy(net, s, net.table[s].unassigned, chosen, mid, rest) && s in mid.table
      && net' == mid.(table :=
           Entry(mid.table, s, SessionInfo(mid.table[s].weights, if rest < 0.001 then 0.0 else rest)))
  }

  lemma AllocateForPlaces(net: Net, nodes: seq<NodeId>, s: Session)
    requires Sane(net) && s in net.table && Lists(nodes, net.backends.Keys) && AllocateFor(net, nodes, s).Some?
    ensures PlacedFor(net, s, AllocateFor(net, nodes, s).value)
  {
    hide Sane, Lists, PlaceAll, Kin, Joined, SumOf, Greedy;
    var p := PlaceAll(net, nodes, s, net.table[s].unassigned).value;
    PlaceAllGreedy(net, nodes, s, net.table[s].unassigned);
    PlaceAllKeeps(net, nodes, s, net.table[s].unassigned);
    KinKeys(net, p.net);
  }

  // One session after the other is placed; the nets between.
  ghost predicate PlacedInTurn(net: Net, sessions: seq<Session>, nets: seq<Net>, net': Net) {
    && |nets| == |sessions| + 1 && nets[0] == net && nets[|sessions|] == net'
    && forall i {:trigger sessions[i]} | 0 <= i < |sessions| :: PlacedFor(nets[i], sessions[i], nets[i + 1])
  }

  lemma {:induction false} AllocateEachPlaces(net: Net, nodes: seq<NodeId>, sessions: seq<Session>)
    returns (nets: seq<Net>)
    requires Sane(net) && Lists(nodes, net.backends.Keys) && AllocateEach(net, nodes, sessions).Some?
    requires forall s {:trigger s in sessions} | s in sessions :: s in net.table
    ensures PlacedInTurn(net, sessions, nets, AllocateEach(net, nodes, sessions).value)
  {
    hide Sane, Lists, AllocateFor, PlacedFor, Kin, AllFast;
    if sessions == [] {
      nets := [net];
    } else {
      var n := |sessions| - 1;
      var rest := sessions[..n];
      assert forall s {:trigger s in rest} | s in rest :: s in sessions;
      var before := AllocateEachPlaces(net, nodes, rest);
      var mid, net' := AllocateEach(net, nodes, rest).value, AllocateEach(net, nodes, sessions).value;
      AllocateEachKeeps(net, nodes, rest);
      KinKeys(net, mid);
      assert sessions[n] in sessions;
      AllocateForPlaces(mid, nodes, sessions[n]);
      nets := before + [net'];
      forall i | 0 <= i < |sessions| ensures PlacedFor(nets[i], sessions[i], nets[i + 1]) {
        if i < n {
          assert sessions[i] == rest[i];
        }
      }
    }
  }

  // The sessions that lack more than next to nothing, each once, those that lack most first.
  ghost predicate MostLackingFirst(table: Table, sessions: seq<Session>) {
    && NoRepeats(sessions)
    && (forall s {:trigger s in sessions} :: s in sessions <==> s in table && table[s].unassigned > 0.001)
    && forall i, j {:trigger sessions[i], sessions[j]} | 0 <= i < j < |sessions| ::
         sessions[i] in table && sessions[j] in table ==>
           table[sessions[i]].unassigned >= table[sessions[j]].unassigned
  }

  /** All that lack something are placed in turn. */
  ghost predicate AllPlaced(net: Net, net': Net) {
    exists sessions, nets {:trigger PlacedInTurn(net, sessions, nets, net')} ::
      MostLackingFirst(net.table, sessions) && PlacedInTurn(net, sessions, nets, net')
  }

  lemma WaitingLacks(table: Table, sessions: seq<Session>)
    requires Lists(sessions, table.Keys)
    ensures MostLackingFirst(table, Waiting(table, sessions))
  {
    WaitingIs(table, sessions);
    hide Waiting, NoRepeats;
    var r, rates := Waiting(table, sessions), map s | s in table :: table[s].unassigned;
    forall i, j | 0 <= i < j < |r| && r[i] in table && r[j] in table
      ensures table[r[i]].unassigned >= table[r[j]].unassigned
    {
      assert Orderings.At(rates, r[i]) >= Orderings.At(rates, r[j]);
    }
  }

  lemma AllocatePlaces(net: Net, orders: Orders)
    requires Sane(net) && Lists(orders.nodes, net.backends.Keys) && Lists(orders.sessions, net.table.Keys)
    requires Allocate(net, orders).Some?
    ensures AllPlaced(net, Allocate(net, orders).value)
  {
    hide Sane, Lists, AllocateEach, PlacedInTurn, NoRepeats, Waiting;
    WaitingLacks(net.table, orders.sessions);
    var sessions := Waiting(net.table, orders.sessions);
    var nets := AllocateEachPlaces(net, orders.nodes, sessions);
  }

  /** A backend that joins is idle at first, and then all that lack something are placed. */
  lemma RegisterPlaces(net: Net, orders: Orders, b: NodeId, profiles: Profiles)
    requires Sane(net) && FitsAll(profiles) && Register(net, orders, b, profiles).Some?
    requires Lists(orders.nodes, net.backends.Keys + {b}) && Lists(orders.sessions, net.table.Keys)
    ensures b !in net.backends
    ensures AllPlaced(
      net.(backends := net.backends[b := Backend(profiles, Gpu([], 0.0, 0.0, false))], logs := net.logs[b := []]),
      Register(net, orders, b, profiles).value)
  {
    hide Sane, Lists, Allocate, AllPlaced, FitsAll;
    RegisteredSane(net, b, profiles);
    var next := net.(backends := net.backends[b := Backend(profiles, IDLE)], logs := net.logs[b := []]);
    assert next.backends.Keys == net.backends.Keys + {b};
    AllocatePlaces(next, orders);
  }

  // What is left for the backend at place i of a walk: the rate less what those before it serve at the end.
  ghost function LeftAt(f: Flow, s: Session, order: seq<NodeId>, f': Flow, i: nat): real
    requires i <= |order| && s in f'.net.table
  {
    f.rate - Total(f'.net.table[s].weights, order[..i])
  }

  // A backend is off the route and no longer runs the session.
  ghost predicate LetGo(f: Flow, s: Session, f': Flow, b: NodeId) {
    && b in f.net.backends && b in f'.net.backends && s in f'.net.table && b !in f'.net.table[s].weights
    && Unloaded(f.net.backends[b].gpu, s) == Some(f'.net.backends[b].gpu)
  }

  // It runs the session for another rate, and is on the route with the throughput that gives.
  ghost predicate Retuned(f: Flow, s: Session, f': Flow, b: NodeId, rate: real) {
    && b in f.net.backends && b in f'.net.backends && s in f'.net.table && b in f'.net.table[s].weights
    && Updated(f.net.backends[b].gpu, s, rate) ==
         Some(Outcome(f'.net.backends[b].gpu, f'.net.table[s].weights[b]))
  }

  // It goes on as before.
  ghost predicate LeftAlone(f: Flow, s: Session, f': Flow, b: NodeId) {
    && b in f.net.backends && b in f'.net.backends && s in f.net.table && s in f'.net.table
    && f'.net.backends[b] == f.net.backends[b] && b in f.net.table[s].weights && b in f'.net.table[s].weights
    && f'.net.table[s].weights[b] == f.net.table[s].weights[b]
  }

  /**
   The turn of the backend at place i: with nothing left for it, it is let go; otherwise it takes all that is
   left, unless the work shrinks and its share fits in.
   */
  ghost predicate WalkTurn(f: Flow, s: Session, order: seq<NodeId>, grow: bool, f': Flow, i: nat)
    requires i < |order| && s in f.net.table && s in f'.net.table
  {
    var b, left := order[i], LeftAt(f, s, order, f', i);
    if left < 0.001 then LetGo(f, s, f', b)
    else if grow || At(f.net.table[s].weights, b) > left then Retuned(f, s, f', b, left)
    else LeftAlone(f, s, f', b)
  }

  // The backends of the walk that run the session and are overloaded by more than a twentieth.
  ghost function OverOf(net: Net, s: Session, order: seq<NodeId>): seq<NodeId>
    requires s in net.table
  {
    if order == [] then []
    else
      var n := |order| - 1;
      OverOf(net, s, order[..n]) + if Over(net, s, order[n]) then [order[n]] else []
  }

  ghost predicate Over(net: Net, s: Session, b: NodeId)
    requires s in net.table
  {
    && b in net.backends && b in net.table[s].weights && net.backends[b].gpu.overload
    && net.backends[b].gpu.duty != 0.0 && net.backends[b].gpu.exec / net.backends[b].gpu.duty > 1.05
  }

  // Backends outside the walk are not touched.
  ghost predicate OthersSame(f: Flow, order: seq<NodeId>, f': Flow) {
    f'.net.backends.Keys == f.net.backends.Keys &&
    forall x {:trigger f'.net.backends[x]} | x in f.net.backends && x !in order ::
      f'.net.backends[x] == f.net.backends[x]
  }

  /** A walk along a route: each backend has its turn. */
  ghost predicate WalkTurns(f: Flow, s: Session, order: seq<NodeId>, grow: bool, f': Flow) {
    && s in f.net.table && s in f'.net.table && OthersSame(f, order, f')
    && (forall i {:trigger WalkTurn(f, s, order, grow, f', i)} | 0 <= i < |order| :: WalkTurn(f, s, order, grow, f', i))
    && f'.rate == f.rate - Total(f'.net.table[s].weights, order)
    && f'.overloaded == f.overloaded + (if grow then OverOf(f'.net, s, order) else [])
    && OnlyRoute(f.net.table, f'.net.table, s, order)
  }

  // What one step of a walk does: to its backend and nothing else.
  ghost predicate StepTurn(f: Flow, s: Session, b: NodeId, grow: bool, f': Flow) {
    && s in f.net.table && s in f'.net.table && OthersSame(f, [b], f') && OnlyRoute(f.net.table, f'.net.table, s, [b])
    && f'.rate == f.rate - At(f'.net.table[s].weights, b)
    && (if f.rate < 0.001 then LetGo(f, s, f', b)
        else if grow || At(f.net.table[s].weights, b) > f.rate then Retuned(f, s, f', b, f.rate)
        else LeftAlone(f, s, f', b))
    && f'.overloaded == f.overloaded + (if grow && Over(f'.net, s, b) then [b] else [])
  }

  lemma LeaveTurn(f: Flow, s: Session, b: NodeId)
    requires Sane(f.net) && s in f.net.table && b in f.net.table[s].weights
    ensures Leave(f, s, b).Some?
    ensures var f' := Leave(f, s, b).value;
      && s in f'.net.table
      && LetGo(f, s, f', b) && OthersSame(f, [b], f') && OnlyRoute(f.net.table, f'.net.table, s, [b])
      && At(f'.net.table[s].weights, b) == 0.0 && f'.rate == f.rate && f'.overloaded == f.overloaded
  {
    hide Sane, Kin, Unloaded, OnlyRoute, SessionsOf, At;
    UnloadFromKeeps(f.net, s, b);
    RouteOne(f.net.table, s, b, 0.0);
    OnRoute(f.net, s, b);
  }

  lemma UpdateTurn(f: Flow, s: Session, b: NodeId)
    requires Sane(f.net) && s in f.net.table && b in f.net.table[s].weights && UpdateOn(f, s, b).Some?
    ensures var f' := UpdateOn(f, s, b).value;
      && s in f'.net.table
      && Retuned(f, s, f', b, f.rate) && OthersSame(f, [b], f') && OnlyRoute(f.net.table, f'.net.table, s, [b])
      && f'.rate == f.rate - At(f'.net.table[s].weights, b) && f'.overloaded == f.overloaded
  {
    hide Sane, Updated, OnlyRoute, SessionsOf, At;
    OnRoute(f.net, s, b);
    var o := Updated(f.net.backends[b].gpu, s, f.rate).value;
    RouteOne(f.net.table, s, b, o.value);
    AtIs(UpdateOn(f, s, b).value.net.table[s].weights, b);
  }

  lemma AtIs(weights: map<NodeId, real>, b: NodeId)
    ensures At(weights, b) == if b in weights then weights[b] else 0.0
  {
  }

  lemma ShrinkOnTurn(f: Flow, s: Session, b: NodeId, weight: real)
    requires Sane(f.net) && s in f.net.table && b in f.net.table[s].weights && weight == At(f.net.table[s].weights, b)
    requires ShrinkOn(f, s, b, weight).Some?
    ensures StepTurn(f, s, b, false, ShrinkOn(f, s, b, weight).value)
  {
    hide Sane, Leave, UpdateOn, OnlyRoute, LetGo, Retuned, SessionsOf, Over, OthersSame, At;
    if f.rate < SMALL {
      LeaveTurn(f, s, b);
    } else if weight > f.rate {
      UpdateTurn(f, s, b);
    } else {
      OnRoute(f.net, s, b);
      RouteOne(f.net.table, s, b, 0.0);
      KeptTurn(f, b, f.rate - weight);
    }
  }

  lemma KeptTurn(f: Flow, b: NodeId, rate: real)
    ensures OthersSame(f, [b], f.(rate := rate))
  {
  }

  lemma OverIff(g: Gpu)
    ensures g.overload && Occupancy(g) > 1.05 <==> g.overload && g.duty != 0.0 && g.exec / g.duty > 1.05
  {
  }

  lemma GrowOnTurn(f: Flow, s: Session, b: NodeId)
    requires Sane(f.net) && s in f.net.table && b in f.net.table[s].weights && GrowOn(f, s, b).Some?
    ensures StepTurn(f, s, b, true, GrowOn(f, s, b).value)
  {
    hide Sane, Leave, UpdateOn, OnlyRoute, SessionsOf, Updated, Unloaded, OthersSame;
    if f.rate < SMALL {
      LeaveTurn(f, s, b);
    } else {
      UpdateTurn(f, s, b);
      var f' := UpdateOn(f, s, b).value;
      OverIff(f'.net.backends[b].gpu);
      hide Occupancy;
      GrownSame(f, f', s, b, GrowOn(f, s, b).value);
    }
  }

  // Noting an overload changes nothing else.
  lemma GrownSame(f: Flow, mid: Flow, s: Session, b: NodeId, f': Flow)
    requires f' == mid.(overloaded := f'.overloaded) && OthersSame(f, [b], mid)
    ensures OthersSame(f, [b], f')
  {
  }

  // Two flows that agree on a backend and its place on the route.
  ghost predicate AgreeOn(f: Flow, f': Flow, s: Session, x: NodeId) {
    && s in f.net.table && s in f'.net.table && (x in f.net.backends <==> x in f'.net.backends)
    && (x in f.net.backends ==> f.net.backends[x] == f'.net.backends[x])
    && (x in f.net.table[s].weights <==> x in f'.net.table[s].weights)
    && At(f.net.table[s].weights, x) == At(f'.net.table[s].weights, x)
  }

  ghost predicate AgreeAll(f: Flow, f': Flow, s: Session, order: seq<NodeId>) {
    forall x {:trigger x in order} | x in order :: AgreeOn(f, f', s, x)
  }

  lemma StepAgrees(f: Flow, s: Session, b: NodeId, grow: bool, f': Flow, order: seq<NodeId>)
    requires StepTurn(f, s, b, grow, f') && b !in order
    ensures AgreeAll(f, f', s, order)
  {
    hide LetGo, Retuned, LeftAlone, Over, At;
    forall x | x in order ensures AgreeOn(f, f', s, x) {
      assert x !in [b];
      assert x in f'.net.table[s].weights <==> x in f.net.table[s].weights;
    }
  }

  lemma WalkAgrees(f: Flow, s: Session, order: seq<NodeId>, grow: bool, f': Flow, b: NodeId)
    requires WalkTurns(f, s, order, grow, f') && b !in order
    ensures AgreeOn(f, f', s, b)
  {
    hide At, WalkTurn, OverOf;
    assert b in f'.net.table[s].weights <==> b in f.net.table[s].weights;
  }

  lemma AgreeFirst(f: Flow, f': Flow, s: Session, order: seq<NodeId>, i: nat)
    requires AgreeAll(f, f', s, order) && i <= |order|
    ensures AgreeAll(f, f', s, order[..i])
  {
    hide AgreeOn;
    forall x | x in order[..i] ensures AgreeOn(f, f', s, x) {
      assert x in order;
    }
  }

  lemma AgreeTotal(f: Flow, f': Flow, s: Session, order: seq<NodeId>)
    requires AgreeAll(f, f', s, order) && s in f.net.table && s in f'.net.table
    ensures Total(f.net.table[s].weights, order) == Total(f'.net.table[s].weights, order)
  {
    hide At;
    TotalSame(f.net.table[s].weights, f'.net.table[s].weights, order);
  }

  lemma {:induction false} AgreeOver(f: Flow, f': Flow, s: Session, order: seq<NodeId>)
    requires AgreeAll(f, f', s, order) && s in f.net.table && s in f'.net.table
    ensures OverOf(f.net, s, order) == OverOf(f'.net, s, order)
  {
    if order != [] {
      var n := |order| - 1;
      AgreeFirst(f, f', s, order, n);
      AgreeOver(f, f', s, order[..n]);
      assert order[n] in order;
      assert AgreeOn(f, f', s, order[n]);
    }
  }

  // A turn stays as it was when later ones follow.
  lemma TurnStays(f: Flow, s: Session, order: seq<NodeId>, grow: bool, mid: Flow, b: NodeId, f': Flow, i: nat)
    requires i < |order| && s in f.net.table && s in mid.net.table && s in f'.net.table
    requires WalkTurn(f, s, order, grow, mid, i) && AgreeAll(mid, f', s, order)
    ensures WalkTurn(f, s, order + [b], grow, f', i)
  {
    AgreeFirst(mid, f', s, order, i);
    AgreeTotal(mid, f', s, order[..i]);
    assert (order + [b])[..i] == order[..i] && (order + [b])[i] == order[i];
    assert order[i] in order;
    assert AgreeOn(mid, f', s, order[i]);
    hide Total, Updated, Unloaded, AgreeAll;
  }

  // A step is the next turn.
  lemma TurnComes(f: Flow, s: Session, order: seq<NodeId>, grow: bool, mid: Flow, b: NodeId, f': Flow)
    requires s in f.net.table && AgreeOn(f, mid, s, b) && StepTurn(mid, s, b, grow, f') && AgreeAll(mid, f', s, order)
    requires mid.rate == f.rate - Total(mid.net.table[s].weights, order)
    ensures WalkTurn(f, s, order + [b], grow, f', |order|)
  {
    hide Total, AgreeAll, OnlyRoute, OthersSame, Over, LetGo, Retuned, LeftAlone;
    AgreeTotal(mid, f', s, order);
    assert (order + [b])[..|order|] == order && (order + [b])[|order|] == b;
    AgreeTurn(f, mid, s, b, f');
  }

  // A turn depends only on what its backend has.
  lemma AgreeTurn(f: Flow, mid: Flow, s: Session, b: NodeId, f': Flow)
    requires AgreeOn(f, mid, s, b) && s in f'.net.table
    ensures LetGo(mid, s, f', b) ==> LetGo(f, s, f', b)
    ensures Retuned(mid, s, f', b, mid.rate) ==> Retuned(f, s, f', b, mid.rate)
    ensures LeftAlone(mid, s, f', b) ==> LeftAlone(f, s, f', b)
  {
    hide Updated, Unloaded;
  }

  lemma OthersJoin(f: Flow, order: seq<NodeId>, mid: Flow, b: NodeId, f': Flow)
    requires OthersSame(f, order, mid) && OthersSame(mid, [b], f')
    ensures OthersSame(f, order + [b], f')
  {
    forall x | x in f.net.backends && x !in order + [b] ensures f'.net.backends[x] == f.net.backends[x] {
      assert x !in order && x !in [b];
      assert mid.net.backends[x] == f.net.backends[x];
    }
  }

  lemma TotalMoreOne(weights: map<NodeId, real>, order: seq<NodeId>, b: NodeId)
    ensures Total(weights, order + [b]) == Total(weights, order) + At(weights, b)
  {
    assert (order + [b])[..|order|] == order;
  }

  lemma OverMoreOne(net: Net, s: Session, order: seq<NodeId>, b: NodeId)
    requires s in net.table
    ensures OverOf(net, s, order + [b]) == OverOf(net, s, order) + (if Over(net, s, b) then [b] else [])
  {
    assert (order + [b])[..|order|] == order;
  }

  lemma TurnsMore(f: Flow, s: Session, order: seq<NodeId>, grow: bool, mid: Flow, b: NodeId, f': Flow)
    requires WalkTurns(f, s, order, grow, mid) && StepTurn(mid, s, b, grow, f') && b !in order
    ensures WalkTurns(f, s, order + [b], grow, f')
  {
    hide WalkTurn, LetGo, Retuned, LeftAlone, OnlyRoute, Over, OverOf, Total, At, OthersSame, AgreeAll, AgreeOn;
    var all := order + [b];
    StepAgrees(mid, s, b, grow, f', order);
    WalkAgrees(f, s, order, grow, mid, b);
    forall i | 0 <= i < |all| ensures WalkTurn(f, s, all, grow, f', i) {
      if i < |order| {
        assert WalkTurn(f, s, order, grow, mid, i);
        TurnStays(f, s, order, grow, mid, b, f', i);
      } else {
        TurnComes(f, s, order, grow, mid, b, f');
      }
    }
    AgreeTotal(mid, f', s, order);
    TotalMoreOne(f'.net.table[s].weights, order, b);
    AgreeOver(mid, f', s, order);
    OverMoreOne(f'.net, s, order, b);
    OthersJoin(f, order, mid, b, f');
    RoutesJoin(f.net.table, mid.net.table, f'.net.table, s, order, b);
  }

  lemma NoTurns(f: Flow, s: Session, grow: bool)
    requires s in f.net.table
    ensures WalkTurns(f, s, [], grow, f)
  {
  }

  /** With less work every backend of the route has its turn. */
  lemma {:induction false} ShrinkTurns(f: Flow, s: Session, order: seq<NodeId>)
    requires Sane(f.net) && s in f.net.table && NoRepeats(order) && AllOn(f.net.table[s].weights, order)
    ensures var r := ShrinkAll(f, s, order, f.net.table[s].weights); r.Some? ==> WalkTurns(f, s, order, false, r.value)
  {
    hide Sane, NoRepeats, AllOn, AllFast, Walked, ShrinkOn, At, WalkTurns, StepTurn;
    var weights := f.net.table[s].weights;
    if order == [] {
      NoTurns(f, s, false);
    } else {
      var n := |order| - 1;
      LastOf(order, weights);
      ShrinkTurns(f, s, order[..n]);
      ShrinkAllWalks(f, s, order[..n]);
      var mid := ShrinkAll(f, s, order[..n], weights);
      if mid.Some? {
        StillOn(f, s, order[..n], mid.value, order[n]);
        if ShrinkOn(mid.value, s, order[n], At(weights, order[n])).Some? {
          ShrinkOnTurn(mid.value, s, order[n], At(weights, order[n]));
          TurnsMore(f, s, order[..n], false, mid.value, order[n],
            ShrinkOn(mid.value, s, order[n], At(weights, order[n])).value);
        }
      }
    }
  }

  /** And with more. */
  lemma {:induction false} GrowTurns(f: Flow, s: Session, order: seq<NodeId>)
    requires Sane(f.net) && s in f.net.table && NoRepeats(order) && AllOn(f.net.table[s].weights, order)
    ensures var r := GrowAll(f, s, order); r.Some? ==> WalkTurns(f, s, order, true, r.value)
  {
    hide Sane, NoRepeats, AllOn, AllFast, Walked, GrowOn, At, WalkTurns, StepTurn;
    if order == [] {
      NoTurns(f, s, true);
    } else {
      var n := |order| - 1;
      LastOf(order, f.net.table[s].weights);
      GrowTurns(f, s, order[..n]);
      GrowAllWalks(f, s, order[..n]);
      var mid := GrowAll(f, s, order[..n]);
      if mid.Some? {
        StillOn(f, s, order[..n], mid.value, order[n]);
        if GrowOn(mid.value, s, order[n]).Some? {
          GrowOnTurn(mid.value, s, order[n]);
          TurnsMore(f, s, order[..n], true, mid.value, order[n], GrowOn(mid.value, s, order[n]).value);
        }
      }
    }
  }

  // The backends of a route, each once, those that serve most first.
  ghost predicate HeaviestFirst(weights: map<NodeId, real>, order: seq<NodeId>) {
    && Lists(order, weights.Keys)
    && forall i, j {:trigger order[i], order[j]} | 0 <= i < j < |order| ::
         At(weights, order[i]) >= At(weights, order[j])
  }

  // The session lacks so much, and its backends have a rate to follow.
  ghost function Rated(f: Flow, s: Session, lacks: real, rate: real): Flow
    requires s in f.net.table
  {
    f.(net := f.net.(table := Entry(f.net.table, s, SessionInfo(f.net.table[s].weights, lacks))), rate := rate)
  }

  /**
   A session follows its estimated rate. A little less than its route serves changes nothing; with less than that,
   or more, the backends have their turns, the heaviest first. What more work leaves over is lacking.
   */
  ghost predicate Follows(f: Flow, s: Session, order: seq<NodeId>, estimate: real, f': Flow) {
    && s in f.net.table && HeaviestFirst(f.net.table[s].weights, order)
    && var total := Total(f.net.table[s].weights, order);
       var start := Rated(f, s, if estimate > total then estimate - total else 0.0, estimate);
       if estimate < 0.97 * total then WalkTurns(start, s, order, false, f')
       else if estimate <= total then f' == start
       else GrowsTo(start, s, order, f')
  }

  // The backends have their turns, and what they leave over is lacking, if it is more than next to nothing.
  ghost predicate GrowsTo(start: Flow, s: Session, order: seq<NodeId>, f': Flow) {
    exists g {:trigger WalkTurns(start, s, order, true, g)} ::
      && WalkTurns(start, s, order, true, g) && s in g.net.table
      && f' == Rated(g, s, if g.rate > 0.001 then g.rate else 0.0, g.rate)
  }

  lemma SortedHeaviest(route: seq<NodeId>, weights: map<NodeId, real>)
    requires Lists(route, weights.Keys)
    ensures var order := SortDown(Listed(route, weights.Keys), weights);
      HeaviestFirst(weights, order) && Total(weights, order) == Total(weights, route)
  {
    SortedKeys(route, weights);
    ListedAll(route, weights.Keys);
    SortDownPermutes(route, weights);
    TotalPermuted(weights, SortDown(route, weights), route);
    hide SortDown, Listed, Total, At;
  }

  lemma AdjustFollows(f: Flow, s: Session, route: seq<NodeId>, estimate: real)
    requires Sane(f.net) && s in f.net.table && Lists(route, f.net.table[s].weights.Keys)
    requires Adjust(f, s, route, estimate).Some?
    ensures exists order {:trigger Follows(f, s, order, estimate, Adjust(f, s, route, estimate).value)} ::
      Follows(f, s, order, estimate, Adjust(f, s, route, estimate).value)
  {
    hide Sane, NoRepeats, AllOn, Falling, SortDown, Listed, ShrinkAll, GrowAll, Total, Kin, WalkTurns, HeaviestFirst;
    var weights := f.net.table[s].weights;
    var total := Total(weights, route);
    var order := SortDown(Listed(route, weights.Keys), weights);
    RouteSorted(route, weights);
    SortedHeaviest(route, weights);
    var lacks := Larger(0.0, estimate - total);
    var f1 := f.(net := SetRate(f.net, s, lacks), rate := estimate);
    assert f1 == Rated(f, s, lacks, estimate);
    SetRateKeeps(f.net, s, lacks);
    hide Lists;
    ShrinkTurns(f1, s, order);
    GrowTurns(f1, s, order);
    var f' := Adjust(f, s, route, estimate).value;
    assert total * 0.97 == 0.97 * total;
    if !(estimate < total * 0.97) && estimate > total {
      var g := GrowAll(f1, s, order).value;
      TurnsTable(f1, s, order, true, g);
    }
    assert Follows(f, s, order, estimate, f');
  }

  lemma TurnsTable(f: Flow, s: Session, order: seq<NodeId>, grow: bool, f': Flow)
    requires WalkTurns(f, s, order, grow, f')
    ensures s in f'.net.table && f'.net.table == Entry(f.net.table, s, f'.net.table[s])
  {
    hide WalkTurn, Total, OverOf, At;
  }

  /** One session's turn in an epoch: with an estimate of its rate, of at least 0.1, its backends follow that. */
  ghost predicate EpochTurn(f: Flow, rates: map<Session, real>, s: Session, f': Flow) {
    if s !in rates || s !in f.net.table then f' == f
    else
      var estimate := if rates[s] < 0.1 then 0.1 else rates[s];
      FollowsIn(f, s, estimate, f')
  }

  ghost predicate FollowsIn(f: Flow, s: Session, estimate: real, f': Flow) {
    exists order {:trigger Follows(f, s, order, estimate, f')} :: Follows(f, s, order, estimate, f')
  }

  // The sessions have their turns; the flows between.
  ghost predicate EpochTurns(f: Flow, rates: map<Session, real>, sessions: seq<Session>, flows: seq<Flow>, f': Flow) {
    && |flows| == |sessions| + 1 && flows[0] == f && flows[|sessions|] == f'
    && forall i {:trigger sessions[i]} | 0 <= i < |sessions| :: EpochTurn(flows[i], rates, sessions[i], flows[i + 1])
  }

  // The routes are walked in full.
  ghost predicate WalksRoutes(table: Table, orders: Orders) {
    forall s {:trigger table[s]} | s in table :: Lists(RouteOf(orders, s), table[s].weights.Keys)
  }

  // Entries of some sessions are as they were.
  ghost predicate SameEntries(table: Table, table': Table, but: seq<Session>) {
    table'.Keys == table.Keys && forall s {:trigger table'[s]} | s in table && s !in but :: table'[s] == table[s]
  }

  lemma FollowsEntry(f: Flow, s: Session, order: seq<NodeId>, estimate: real, f': Flow)
    requires Follows(f, s, order, estimate, f')
    ensures s in f'.net.table && f'.net.table == Entry(f.net.table, s, f'.net.table[s])
  {
    hide WalkTurns, HeaviestFirst, Total;
    var total := Total(f.net.table[s].weights, order);
    var start := Rated(f, s, if estimate > total then estimate - total else 0.0, estimate);
    if estimate < 0.97 * total {
      TurnsTable(start, s, order, false, f');
    } else if estimate > total {
      var g :| WalkTurns(start, s, order, true, g) && s in g.net.table &&
        f' == Rated(g, s, if g.rate > 0.001 then g.rate else 0.0, g.rate);
      TurnsTable(start, s, order, true, g);
    }
  }

  lemma AdjustTurn(f: Flow, orders: Orders, rates: map<Session, real>, s: Session, r: Option<Flow>)
    requires Sane(f.net) && (s in f.net.table ==> Lists(RouteOf(orders, s), f.net.table[s].weights.Keys))
    requires r == if s in rates then Adjust(f, s, RouteOf(orders, s), Larger(rates[s], LEAST_RATE)) else Some(f)
    requires r.Some?
    ensures EpochTurn(f, rates, s, r.value) && SameEntries(f.net.table, r.value.net.table, [s])
  {
    hide Sane, Lists, Follows;
    assert s !in rates || s !in f.net.table ==> r.value == f;
    if s in rates && s in f.net.table {
      var estimate := Larger(rates[s], LEAST_RATE);
      hide Adjust;
      AdjustFollows(f, s, RouteOf(orders, s), estimate);
      var order :| Follows(f, s, order, estimate, r.value);
      FollowsEntry(f, s, order, estimate, r.value);
    }
  }

  lemma SameJoin(a: Table, b: Table, c: Table, but: seq<Session>, s: Session)
    requires SameEntries(a, b, but) && SameEntries(b, c, [s])
    ensures SameEntries(a, c, but + [s])
  {
    forall x | x in a && x !in but + [s] ensures c[x] == a[x] {
      assert x !in but && x !in [s];
      assert b[x] == a[x];
    }
  }

  lemma {:induction false} AdjustEachTurns(
    f: Flow, orders: Orders, rates: map<Session, real>, sessions: seq<Session>) returns (flows: seq<Flow>)
    requires Flowing(f) && Proper(orders) && NoRepeats(sessions) && WalksRoutes(f.net.table, orders)
    requires AdjustEach(f, orders, rates, sessions).Some?
    ensures var f' := AdjustEach(f, orders, rates, sessions).value;
      EpochTurns(f, rates, sessions, flows, f') && SameEntries(f.net.table, f'.net.table, sessions)
  {
    hide Sane, Lists, EpochTurn, Adjust, Kin, AllFast, SameEntries, NoRepeats;
    if sessions == [] {
      flows := [f];
      NoneChanged(f.net.table);
    } else {
      var n := |sessions| - 1;
      var rest, s := sessions[..n], sessions[n];
      LastSession(sessions);
      var before := AdjustEachTurns(f, orders, rates, rest);
      var mid, r := AdjustEach(f, orders, rates, rest).value, AdjustEach(f, orders, rates, sessions);
      AdjustEachKeeps(f, orders, rates, rest);
      StillListed(f.net.table, mid.net.table, rest, s, orders);
      AdjustTurn(mid, orders, rates, s, r);
      SameJoin(f.net.table, mid.net.table, r.value.net.table, rest, s);
      flows := before + [r.value];
      forall i | 0 <= i < |sessions| ensures EpochTurn(flows[i], rates, sessions[i], flows[i + 1]) {
        if i < n {
          assert sessions[i] == rest[i];
        }
      }
    }
  }

  lemma NoneChanged(table: Table)
    ensures SameEntries(table, table, [])
  {
  }

  lemma LastSession(sessions: seq<Session>)
    requires sessions != [] && NoRepeats(sessions)
    ensures var n := |sessions| - 1;
      NoRepeats(sessions[..n]) && sessions[n] !in sessions[..n] && sessions == sessions[..n] + [sessions[n]]
  {
  }

  lemma StillListed(table: Table, table': Table, but: seq<Session>, s: Session, orders: Orders)
    requires SameEntries(table, table', but) && s !in but && WalksRoutes(table, orders)
    ensures s in table' ==> Lists(RouteOf(orders, s), table'[s].weights.Keys)
  {
    hide Lists;
    assert s in table ==> table'[s] == table[s];
  }

  /** An overloaded backend gives up what its rebuild spills: that leaves its routes and is lacking again. */
  ghost predicate GivesUp(net: Net, b: NodeId, net': Net) {
    && b in net.backends && b in net'.backends
    && exists spill {:trigger Dropped(net.table, net'.table, b, spill)} ::
         && SpilledOut(net.backends[b].profiles, net.backends[b].gpu) ==
              Some(Outcome(net'.backends[b].gpu, spill))
         && net'.backends == net.backends[b := net.backends[b].(gpu := net'.backends[b].gpu)]
         && Dropped(net.table, net'.table, b, spill)
  }

  lemma SpillFromGivesUp(net: Net, b: NodeId)
    requires Sane(net) && b in net.backends
    ensures SpillFrom(net, b).Some? && GivesUp(net, b, SpillFrom(net, b).value)
  {
    hide Sane, Kin, SpilledOut, Dropped, SessionsOf, Spilled, DropAll;
    SpillFromKeeps(net, b);
    var o := SpilledOut(net.backends[b].profiles, net.backends[b].gpu).value;
    assert o == Outcome(o.gpu, o.value);
  }

  ghost predicate AllGiveUp(net: Net, nodes: seq<NodeId>, nets: seq<Net>, net': Net) {
    && |nets| == |nodes| + 1 && nets[0] == net && nets[|nodes|] == net'
    && forall i {:trigger nodes[i]} | 0 <= i < |nodes| :: GivesUp(nets[i], nodes[i], nets[i + 1])
  }

  lemma {:induction false} SpillEachGivesUp(net: Net, nodes: seq<NodeId>) returns (nets: seq<Net>)
    requires Sane(net) && forall b {:trigger b in nodes} | b in nodes :: b in net.backends
    ensures SpillEach(net, nodes).Some? && AllGiveUp(net, nodes, nets, SpillEach(net, nodes).value)
  {
    hide Sane, GivesUp, SpillFrom, Kin;
    if nodes == [] {
      nets := [net];
    } else {
      var n := |nodes| - 1;
      var rest := nodes[..n];
      assert forall b {:trigger b in rest} | b in rest :: b in nodes;
      var before := SpillEachGivesUp(net, rest);
      SpillEachKeeps(net, rest);
      var mid := SpillEach(net, rest).value;
      KinKeys(net, mid);
      assert nodes[n] in nodes;
      SpillFromGivesUp(mid, nodes[n]);
      nets := before + [SpillEach(net, nodes).value];
      forall i | 0 <= i < |nodes| ensures GivesUp(nets[i], nodes[i], nets[i + 1]) {
        if i < n {
          assert nodes[i] == rest[i];
        }
      }
    }
  }

  /**
   An epoch: each session has its turn, the backends found overloaded give up what they spill, and then all
   sessions that lack something are placed.
   */
  ghost predicate EpochOf(net: Net, rates: map<Session, real>, sessions: seq<Session>, flows: seq<Flow>, f: Flow,
                          nets: seq<Net>, spilled: Net, net': Net) {
    && Lists(sessions, net.table.Keys) && EpochTurns(Flow(net, 0.0, []), rates, sessions, flows, f)
    && AllGiveUp(f.net, f.overloaded, nets, spilled) && AllPlaced(spilled, net')
  }

  lemma EpochIs(net: Net, orders: Orders, rates: map<Session, real>)
    requires Sane(net) && Proper(orders) && Epoch(net, orders, rates).Some? && WalksRoutes(net.table, orders)
    requires Lists(orders.nodes, net.backends.Keys) && Lists(orders.sessions, net.table.Keys)
    ensures exists flows, f, nets, spilled
      {:trigger EpochOf(net, rates, orders.sessions, flows, f, nets, spilled, Epoch(net, orders, rates).value)} ::
      EpochOf(net, rates, orders.sessions, flows, f, nets, spilled, Epoch(net, orders, rates).value)
  {
    var start := Flow(net, 0.0, []);
    assert NoRepeats(orders.sessions);
    hide Sane, Proper, Lists, AdjustEach, SpillEach, Allocate, EpochTurns, AllGiveUp, AllPlaced, Kin, AllFast;
    hide WalksRoutes, NoRepeats, SameEntries;
    var flows := AdjustEachTurns(start, orders, rates, orders.sessions);
    AdjustEachKeeps(start, orders, rates, orders.sessions);
    var f := AdjustEach(start, orders, rates, orders.sessions).value;
    SpillEachKeeps(f.net, f.overloaded);
    var nets := SpillEachGivesUp(f.net, f.overloaded);
    var spilled := SpillEach(f.net, f.overloaded).value;
    KinKeys(net, f.net);
    KinKeys(f.net, spilled);
    AllocatePlaces(spilled, orders);
    assert EpochOf(net, rates, orders.sessions, flows, f, nets, spilled, Epoch(net, orders, rates).value);
  }

  /** Backends for a session, each the best offer for what is still to be served, among those not taken yet. */
  ghost predicate GreedyPick(
    backends: Backends, s: Session, rate: real, used: set<NodeId>, chosen: seq<Candidate>, rest: real)
    decreases |chosen|
  {
    if chosen == [] then rest == rate
    else
      && rate > 0.001 && Unbeaten(backends, s, rate, used, chosen[0])
      && GreedyPick(backends, s, rate - chosen[0].inst.throughput, used + {chosen[0].node}, chosen[1..], rest)
  }

  ghost function NodesIn(chosen: seq<Candidate>): set<NodeId> {
    set i | 0 <= i < |chosen| :: chosen[i].node
  }

  lemma NodesFirst(c: Candidate, more: seq<Candidate>)
    ensures NodesIn([c] + more) == {c.node} + NodesIn(more)
  {
    var all := [c] + more;
    forall b ensures b in NodesIn(all) <==> b == c.node || b in NodesIn(more) {
      assert all[0] == c;
      if b in NodesIn(more) {
        var i :| 0 <= i < |more| && more[i].node == b;
        assert all[i + 1].node == b;
      }
      if b in NodesIn(all) && b != c.node {
        var i :| 0 <= i < |all| && all[i].node == b;
        assert more[i - 1].node == b;
      }
    }
  }

  // The offers found before somebody was missing.
  lemma {:induction false} PickGreedy(
    backends: Backends, nodes: seq<NodeId>, s: Session, rate: real, used: set<NodeId>)
    returns (chosen: seq<Candidate>, rest: real)
    requires Lists(nodes, backends.Keys) && !Pick(backends, nodes, s, rate, used).PickDied?
    ensures GreedyPick(backends, s, rate, used, chosen, rest)
    ensures var r := Pick(backends, nodes, s, rate, used);
      if r.Picked? then chosen == r.chosen && rest <= 0.001
      else rest > 0.001 && Unoffered(backends, s, rest, used + NodesIn(chosen))
    decreases |backends.Keys - used|
  {
    hide Lists, BestBackend, Unoffered, Unbeaten, NodesIn, Willing, Lacking, GreedyPick;
    chosen, rest := [], rate;
    NonePicks(backends, s, rate, used);
    NoNodes();
    if rate > SMALL {
      var r := BestBackend(backends, nodes, s, rate, used);
      BestOrNone(backends, nodes, s, rate, used);
      if r.NoBackend? {
        assert used + NodesIn([]) == used;
      } else {
        var c := r.candidate;
        Shrinks(backends.Keys, used, c.node);
        var more;
        more, rest := PickGreedy(backends, nodes, s, rate - c.inst.throughput, used + {c.node});
        chosen := [c] + more;
        GreedyMore(backends, s, rate, used, c, more, rest);
      }
    }
  }

  lemma NonePicks(backends: Backends, s: Session, rate: real, used: set<NodeId>)
    ensures GreedyPick(backends, s, rate, used, [], rate)
  {
  }

  lemma BestOrNone(backends: Backends, nodes: seq<NodeId>, s: Session, rate: real, used: set<NodeId>)
    requires Lists(nodes, backends.Keys)
    ensures match BestBackend(backends, nodes, s, rate, used)
      case Died => true
      case NoBackend => Unoffered(backends, s, rate, used)
      case Best(c) =>
        && Unbeaten(backends, s, rate, used, c) && c.node in backends && c.node !in used
        && Willing(backends, s, c) && c.inst.session == s && c.node in Lacking(backends, s)
  {
    hide Lists, Unoffered, Willing, Lacking, Unbeaten, BestBackend;
    BestIsUnbeaten(backends, nodes, s, rate, used);
    BestIsWilling(backends, nodes, s, rate, used);
    if BestBackend(backends, nodes, s, rate, used).NoBackend? {
      NobodyOffers(backends, nodes, s, rate, used);
    }
  }

  lemma GreedyMore(backends: Backends, s: Session, rate: real, used: set<NodeId>, c: Candidate,
                   more: seq<Candidate>, rest: real)
    requires rate > 0.001 && Unbeaten(backends, s, rate, used, c)
    requires GreedyPick(backends, s, rate - c.inst.throughput, used + {c.node}, more, rest)
    ensures GreedyPick(backends, s, rate, used, [c] + more, rest)
    ensures used + NodesIn([c] + more) == used + {c.node} + NodesIn(more)
  {
    hide Unbeaten, NodesIn;
    NodesFirst(c, more);
    assert ([c] + more)[1..] == more;
  }

  lemma NoNodes()
    ensures NodesIn([]) == {}
  {
  }

  // Just enough backends for the workload, or the best one if that is not known.
  ghost predicate Enough(backends: Backends, s: Session, workload: real, chosen: seq<Candidate>) {
    if workload == 0.0 then |chosen| == 1 && Unbeaten(backends, s, 0.0, {}, chosen[0])
    else
      exists rest {:trigger GreedyPick(backends, s, workload, {}, chosen, rest)} ::
        GreedyPick(backends, s, workload, {}, chosen, rest) && rest <= 0.001
  }

  // There are not: after some, nobody else offers to take what is left.
  ghost predicate Short(backends: Backends, s: Session, workload: real) {
    if workload == 0.0 then Unoffered(backends, s, 0.0, {})
    else
      exists chosen, rest {:trigger GreedyPick(backends, s, workload, {}, chosen, rest)} ::
        GreedyPick(backends, s, workload, {}, chosen, rest) && rest > 0.001 &&
        Unoffered(backends, s, rest, NodesIn(chosen))
  }

  lemma PickForGreedy(backends: Backends, nodes: seq<NodeId>, s: Session, workload: real)
    requires Lists(nodes, backends.Keys)
    ensures match PickFor(backends, nodes, s, workload)
      case PickDied => true
      case TooFew => Short(backends, s, workload)
      case Picked(chosen) => Enough(backends, s, workload, chosen)
  {
    hide Lists, BestBackend, Unoffered, Unbeaten, GreedyPick, Pick, NodesIn;
    if workload == 0.0 {
      BestIsUnbeaten(backends, nodes, s, workload, {});
      if BestBackend(backends, nodes, s, workload, {}).NoBackend? {
        NobodyOffers(backends, nodes, s, workload, {});
      }
    } else if !Pick(backends, nodes, s, workload, {}).PickDied? {
      var chosen, rest := PickGreedy(backends, nodes, s, workload, {});
      assert {} + NodesIn(chosen) == NodesIn(chosen);
    }
  }

  // Each of the candidates has loaded the session as it offered; nobody else has changed.
  ghost predicate AllLoad(net: Net, chosen: seq<Candidate>, net': Net) {
    && net'.backends.Keys == net.backends.Keys
    && (forall i {:trigger chosen[i]} | 0 <= i < |chosen| && chosen[i].node in net.backends ::
          Loaded(net.backends[chosen[i].node].gpu, chosen[i].inst) == Some(net'.backends[chosen[i].node].gpu))
    && forall b {:trigger net'.backends[b]} | b in net.backends && b !in NodesIn(chosen) ::
         net'.backends[b] == net.backends[b]
  }

  lemma NodesLast(chosen: seq<Candidate>, c: Candidate)
    ensures NodesIn(chosen + [c]) == NodesIn(chosen) + {c.node}
  {
    var all := chosen + [c];
    forall b ensures b in NodesIn(all) <==> b in NodesIn(chosen) || b == c.node {
      assert all[|chosen|] == c;
      if b in NodesIn(chosen) {
        var i :| 0 <= i < |chosen| && chosen[i].node == b;
        assert all[i].node == b;
      }
    }
  }

  lemma OneMoreLoads(net: Net, s: Session, chosen: seq<Candidate>, mid: Net, c: Candidate, net': Net)
    requires AllLoad(net, chosen, mid) && LoadOn(mid, s, c) == Some(net') && c.node in net.backends
    requires forall i {:trigger chosen[i]} | 0 <= i < |chosen| :: chosen[i].node != c.node
    ensures AllLoad(net, chosen + [c], net')
  {
    hide Loaded, SetWeight, Noted;
    var all := chosen + [c];
    NodesLast(chosen, c);
    assert c.node !in NodesIn(chosen);
    hide NodesIn;
    assert mid.backends[c.node] == net.backends[c.node];
    forall i | 0 <= i < |all| && all[i].node in net.backends
      ensures Loaded(net.backends[all[i].node].gpu, all[i].inst) == Some(net'.backends[all[i].node].gpu)
    {
      if i < |chosen| {
        assert all[i] == chosen[i];
      }
    }
  }

  lemma {:induction false} LoadAllLoads(net: Net, s: Session, chosen: seq<Candidate>)
    requires Sane(net) && s in net.table && AllWilling(net.backends, s, chosen, {})
    ensures LoadAll(net, s, chosen).Some? && AllLoad(net, chosen, LoadAll(net, s, chosen).value)
  {
    hide Sane, LoadOn, Willing, AllLoad, LoadedSome;
    if chosen == [] {
      NothingLoads(net);
    } else {
      var n := |chosen| - 1;
      assert AllWilling(net.backends, s, chosen[..n], {});
      LoadAllLoads(net, s, chosen[..n]);
      LoadAllKeeps(net, s, chosen);
      WillingNode(net.backends, s, chosen[n]);
      OneMoreLoads(net, s, chosen[..n], LoadAll(net, s, chosen[..n]).value, chosen[n], LoadAll(net, s, chosen).value);
      assert chosen == chosen[..n] + [chosen[n]];
    }
  }

  lemma WillingNode(backends: Backends, s: Session, c: Candidate)
    requires Willing(backends, s, c)
    ensures c.node in backends
  {
  }

  lemma NothingLoads(net: Net)
    ensures AllLoad(net, [], net)
  {
  }

  /**
   A session that is asked for: a known one changes nothing; a new one is loaded on just enough backends and
   routed to them, or on none because there are not enough.
   */
  ghost predicate LoadsAs(net: Net, s: Session, workload: real, r: Reply) {
    if s in net.table then r == Reply(net, true)
    else if r.ok then
      exists chosen {:trigger Enough(net.backends, s, workload, chosen)} ::
        && Enough(net.backends, s, workload, chosen) && AllLoad(net, chosen, r.net)
        && r.net.table == Joined(net.table[s := SessionInfo(map[], 0.0)], s, chosen)
    else r.net == net && Short(net.backends, s, workload)
  }

  lemma LoadModelIs(net: Net, nodes: seq<NodeId>, s: Session, workload: real)
    requires Sane(net) && Lists(nodes, net.backends.Keys) && LoadModel(net, nodes, s, workload).Some?
    ensures LoadsAs(net, s, workload, LoadModel(net, nodes, s, workload).value)
  {
    hide Sane, Lists, AllFast, PickFor, LoadAll, AllWilling, JustEnough, Joined, Enough, Short, AllLoad;
    LoadModelKeeps(net, nodes, s, workload);
    if s !in net.table {
      PickForGreedy(net.backends, nodes, s, workload);
      var p := PickFor(net.backends, nodes, s, workload);
      if p.Picked? {
        NewSession(net, s);
        var next := net.(table := net.table[s := SessionInfo(map[], 0.0)]);
        LoadAllLoads(next, s, p.chosen);
        SameLoads(net, next, p.chosen, LoadAll(next, s, p.chosen).value);
      }
    }
  }

  lemma SameLoads(net: Net, next: Net, chosen: seq<Candidate>, net': Net)
    requires AllLoad(next, chosen, net') && next.backends == net.backends
    ensures AllLoad(net, chosen, net')
  {
  }
}
