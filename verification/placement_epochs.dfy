/** Whole epochs and runs of the scheduler. */
module PlacementEpochs {
  import opened Wrappers
  import opened DutyCycles
  import opened BackendDelegates
  import opened Routing
  import opened Orderings
  import opened Placement
  import opened PlacementSafety

  // No hash table gives an element twice.
  ghost predicate Proper(orders: Orders) {
    forall s {:trigger orders.routes[s]} | s in orders.routes :: NoRepeats(orders.routes[s])
  }

  // A flow with its overloaded backends among those there are.
  ghost predicate Flowing(f: Flow) {
    Sane(f.net) && forall b {:trigger b in f.overloaded} | b in f.overloaded :: b in f.net.backends
  }

  ghost predicate FlowKeeps(f: Flow, r: Option<Flow>) {
    && (AllFast(f.net.backends) ==> r.Some?)
    && (r.Some? ==> Flowing(r.value) && Kin(f.net, r.value.net))
  }

  lemma WalkedFlows(f: Flow, s: Session, order: seq<NodeId>, f': Flow)
    requires Flowing(f) && Walked(f, s, order, f')
    ensures Flowing(f') && Kin(f.net, f'.net)
  {
  }

  lemma Rated(f: Flow, s: Session, rate: real, left: real)
    requires Flowing(f)
    ensures var f' := f.(net := SetRate(f.net, s, rate), rate := left);
      Flowing(f') && Kin(f.net, f'.net) && f'.net.backends == f.net.backends
  {
    SetRateKeeps(f.net, s, rate);
    hide Sane;
  }

  lemma FlowTrans(f: Flow, mid: Flow, r: Option<Flow>)
    requires Kin(f.net, mid.net) && FlowKeeps(mid, r)
    ensures FlowKeeps(f, r)
  {
    hide AllFast, Kin, Flowing;
    if AllFast(f.net.backends) {
      KinFast(f.net, mid.net);
    }
    if r.Some? {
      KinTrans(f.net, mid.net, r.value.net);
    }
  }

  // The backends of a route in the order they are dealt with.
  lemma RouteSorted(route: seq<NodeId>, weights: map<NodeId, real>)
    requires NoRepeats(route)
    ensures var order := SortDown(Listed(route, weights.Keys), weights);
      NoRepeats(order) && AllOn(weights, order) && Falling(order, weights)
  {
    SortedKeys(route, weights);
    hide Listed, SortDown, Falling, NoRepeats;
  }

  lemma ShrinkFlows(f: Flow, s: Session, order: seq<NodeId>)
    requires Flowing(f) && s in f.net.table && NoRepeats(order) && AllOn(f.net.table[s].weights, order)
    ensures FlowKeeps(f, ShrinkAll(f, s, order, f.net.table[s].weights))
  {
    hide Sane, NoRepeats, AllOn, AllFast, Walked, ShrinkAll;
    ShrinkAllWalks(f, s, order);
    var r := ShrinkAll(f, s, order, f.net.table[s].weights);
    if r.Some? {
      WalkedFlows(f, s, order, r.value);
    }
  }

  lemma GrowFlows(f: Flow, s: Session, order: seq<NodeId>)
    requires Flowing(f) && s in f.net.table && NoRepeats(order) && AllOn(f.net.table[s].weights, order)
    ensures FlowKeeps(f, GrowAll(f, s, order))
  {
    hide Sane, NoRepeats, AllOn, AllFast, Walked, GrowAll;
    GrowAllWalks(f, s, order);
    var r := GrowAll(f, s, order);
    if r.Some? {
      WalkedFlows(f, s, order, r.value);
    }
  }

  lemma FlowRated(f: Flow, r: Option<Flow>, s: Session, rate: real)
    requires FlowKeeps(f, r) && r.Some?
    ensures FlowKeeps(f, Some(r.value.(net := SetRate(r.value.net, s, rate))))
  {
    hide AllFast, Kin, Flowing;
    Rated(r.value, s, rate, r.value.rate);
    KinTrans(f.net, r.value.net, SetRate(r.value.net, s, rate));
  }

  lemma AdjustKeeps(f: Flow, s: Session, route: seq<NodeId>, estimate: real)
    requires Flowing(f) && NoRepeats(route)
    ensures FlowKeeps(f, Adjust(f, s, route, estimate))
  {
    hide AllFast, Kin, Flowing, NoRepeats, AllOn, ShrinkAll, GrowAll, SortDown, Listed, Falling, Total, FlowKeeps;
    if s !in f.net.table {
      FlowSelf(f);
    } else {
      var weights := f.net.table[s].weights;
      var total := Total(weights, route);
      var order := SortDown(Listed(route, weights.Keys), weights);
      RouteSorted(route, weights);
      var unassigned := Larger(0.0, estimate - total);
      Rated(f, s, unassigned, estimate);
      var f' := f.(net := SetRate(f.net, s, unassigned), rate := estimate);
      assert f'.net.table[s].weights == weights;
      FlowSelf(f');
      ShrinkFlows(f', s, order);
      GrowFlows(f', s, order);
      FlowTrans(f, f', Some(f'));
      FlowTrans(f, f', ShrinkAll(f', s, order, weights));
      var g := GrowAll(f', s, order);
      FlowTrans(f, f', g);
      if g.Some? {
        FlowRated(f, g, s, if g.value.rate > SMALL then g.value.rate else 0.0);
      } else {
        FlowNone(f, g);
      }
    }
  }

  lemma FlowSelf(f: Flow)
    requires Flowing(f)
    ensures FlowKeeps(f, Some(f))
  {
    KinSelf(f.net);
  }

  lemma FlowNone(f: Flow, r: Option<Flow>)
    requires FlowKeeps(f, r) && r == None
    ensures FlowKeeps(f, None)
  {
  }

  lemma {:induction false} AdjustEachKeeps(f: Flow, orders: Orders, rates: map<Session, real>, sessions: seq<Session>)
    requires Flowing(f) && Proper(orders)
    ensures FlowKeeps(f, AdjustEach(f, orders, rates, sessions))
  {
    hide AllFast, Kin, Flowing, Adjust;
    if sessions == [] {
      FlowSelf(f);
    } else {
      var n := |sessions| - 1;
      var s := sessions[n];
      AdjustEachKeeps(f, orders, rates, sessions[..n]);
      var mid := AdjustEach(f, orders, rates, sessions[..n]);
      if mid.Some? && s in rates {
        var estimate := Larger(rates[s], LEAST_RATE);
        assert NoRepeats(RouteOf(orders, s));
        AdjustKeeps(mid.value, s, RouteOf(orders, s), estimate);
        FlowTrans(f, mid.value, Adjust(mid.value, s, RouteOf(orders, s), estimate));
      }
    }
  }

  // The sessions spilled by the first n entries.
  lemma SpilledFirst(spill: Spill, n: nat)
    requires |spill| == n + 1 && SpilledOnce(spill)
    ensures Spilled(spill) == Spilled(spill[..n]) + {spill[n].0} && spill[n].0 !in Spilled(spill[..n])
    ensures SpilledOnce(spill[..n])
  {
    assert spill[..n] + [(spill[n].0, spill[n].1)] == spill;
    SpilledNext(spill[..n], spill[n].0, spill[n].1);
  }

  // What each spilled session's entry becomes.
  ghost predicate Dropped(table: Table, table': Table, b: NodeId, spill: Spill) {
    && table'.Keys == table.Keys
    && (forall s {:trigger table'[s]} | s in table && s !in Spilled(spill) :: table'[s] == table[s])
    && (forall i {:trigger spill[i]} | 0 <= i < |spill| && spill[i].0 in table ::
          var s := spill[i].0;
          table'[s] == SessionInfo(table[s].weights - {b}, table[s].unassigned + spill[i].1))
  }

  ghost predicate Known(table: Table, spill: Spill) {
    forall s {:trigger s in Spilled(spill)} | s in Spilled(spill) :: s in table
  }

  lemma DroppedMore(table: Table, t: Table, b: NodeId, spill: Spill, t': Table)
    requires spill != [] && SpilledOnce(spill) && Known(table, spill) && Dropped(table, t, b, spill[..|spill| - 1])
    requires spill[|spill| - 1].0 in table
    requires var s, w := spill[|spill| - 1].0, spill[|spill| - 1].1;
      t' == t[s := SessionInfo(table[s].weights - {b}, table[s].unassigned + w)]
    ensures Dropped(table, t', b, spill)
  {
    var n := |spill| - 1;
    SpilledFirst(spill, n);
    hide SpilledOnce, Spilled;
    forall i | 0 <= i < |spill| && spill[i].0 in table
      ensures t'[spill[i].0] == SessionInfo(table[spill[i].0].weights - {b}, table[spill[i].0].unassigned + spill[i].1)
    {
      if i < n {
        assert spill[..n][i] == spill[i];
        SpilledHas(spill[..n], i);
      }
    }
  }

  lemma SpilledHas(spill: Spill, i: nat)
    requires i < |spill|
    ensures spill[i].0 in Spilled(spill)
  {
  }

  /** Spilled sessions leave the backend's routes, their workloads become unassigned, and no other entry changes. */
  lemma {:induction false} DropAllIs(table: Table, b: NodeId, spill: Spill)
    requires SpilledOnce(spill) && Known(table, spill)
    ensures DropAll(table, b, spill).Some? && Dropped(table, DropAll(table, b, spill).value, b, spill)
  {
    if spill != [] {
      var n := |spill| - 1;
      KnownFirst(table, spill, n);
      hide SpilledOnce, Spilled, Known;
      DropAllIs(table, b, spill[..n]);
      var t := DropAll(table, b, spill[..n]).value;
      LastKept(table, t, b, spill, n);
      DropSet(t, spill[n].0, b, t[spill[n].0].unassigned + spill[n].1);
      hide Dropped, DropWeight, SetUnassigned;
      DroppedMore(table, t, b, spill, DropAll(table, b, spill).value);
    }
  }

  lemma DropSet(t: Table, s: Session, b: NodeId, lacks: real)
    requires s in t
    ensures s in DropWeight(t, s, b)
    ensures SetUnassigned(DropWeight(t, s, b), s, lacks) == t[s := SessionInfo(t[s].weights - {b}, lacks)]
  {
  }

  lemma KnownFirst(table: Table, spill: Spill, n: nat)
    requires |spill| == n + 1 && SpilledOnce(spill) && Known(table, spill)
    ensures SpilledOnce(spill[..n]) && Known(table, spill[..n]) && spill[n].0 in table
  {
    SpilledFirst(spill, n);
    SpilledHas(spill, n);
    hide SpilledOnce, Spilled;
  }

  lemma LastKept(table: Table, t: Table, b: NodeId, spill: Spill, n: nat)
    requires |spill| == n + 1 && SpilledOnce(spill) && Dropped(table, t, b, spill[..n]) && spill[n].0 in table
    ensures spill[n].0 in t && t[spill[n].0] == table[spill[n].0]
  {
    SpilledFirst(spill, n);
    hide SpilledOnce, Spilled;
  }

  lemma RoutedDropped(table: Table, hosts: Hosts, b: NodeId, spill: Spill, table': Table)
    requires Routed(table, hosts) && b in hosts && Spilled(spill) <= hosts[b] && Dropped(table, table', b, spill)
    ensures Routed(table', hosts[b := hosts[b] - Spilled(spill)])
  {
    var left := Spilled(spill);
    forall s | s in left ensures s in table && table'[s].weights == table[s].weights - {b} {
      assert s in hosts[b];
      var i :| 0 <= i < |spill| && spill[i].0 == s;
    }
    hide Spilled;
  }

  // Whatever a backend runs is in the table.
  lemma HostedKnown(net: Net, b: NodeId, spill: Spill)
    requires Sane(net) && b in net.backends && Spilled(spill) <= SessionsOf(net.backends[b].gpu.models)
    ensures Known(net.table, spill)
  {
    hide Sane, SessionsOf, Spilled;
    forall s | s in Spilled(spill) ensures s in net.table {
      InTable(net, s, b);
    }
  }

  /**
   An overloaded backend always survives giving up some sessions. They leave its routes, their
   workloads are unassigned, and the routes agree with the backends again.
   */
  lemma SpillFromKeeps(net: Net, b: NodeId)
    requires Sane(net) && b in net.backends
    ensures SpillFrom(net, b).Some?
    ensures var net', o := SpillFrom(net, b).value, SpilledOut(net.backends[b].profiles, net.backends[b].gpu);
      && Sane(net') && Kin(net, net') && o.Some? && Dropped(net.table, net'.table, b, o.value.value)
      && SessionsOf(net'.backends[b].gpu.models) == SessionsOf(net.backends[b].gpu.models) - Spilled(o.value.value)
  {
    hide Good, FitsAll, SpilledOut, SessionsOf, Sane, Kin, Dropped, Spilled, SpilledOnce, CurrentBut;
    hide WithWorkloads;
    SaneFine(net);
    var profiles, g := net.backends[b].profiles, net.backends[b].gpu;
    FineOne(net.backends, b);
    SpilledOutDivides(profiles, g);
    var o := SpilledOut(profiles, g).value;
    NoneSpilled();
    hide AllFine;
    HostedKnown(net, b, o.value);
    DropAllIs(net.table, b, o.value);
    DividedGood(profiles, g);
    SpillSane(net, b, o.gpu, o.value, DropAll(net.table, b, o.value).value);
  }

  lemma DividedGood(profiles: Profiles, g: Gpu)
    requires FitsAll(profiles) && Good(profiles, g)
    ensures SpilledOut(profiles, g).Some? && Good(profiles, SpilledOut(profiles, g).value.gpu)
  {
    hide FitsAll, Good, SpilledOut;
    SpilledOutDivides(profiles, g);
  }

  lemma NoneSpilled()
    ensures Spilled([]) == {} && SpilledOnce([])
  {
  }

  lemma SpillSane(net: Net, b: NodeId, g: Gpu, spill: Spill, table: Table)
    requires Sane(net) && b in net.backends && Good(net.backends[b].profiles, g)
    requires Step(net.backends[b].profiles, net.backends[b].gpu, Rebuild) == Some(g)
    requires Spilled(spill) <= SessionsOf(net.backends[b].gpu.models) && Dropped(net.table, table, b, spill)
    requires SessionsOf(g.models) == SessionsOf(net.backends[b].gpu.models) - Spilled(spill)
    ensures var net' := Told(net, b, g, Rebuild, table); Sane(net') && Kin(net, net')
  {
    hide Good, Step, SessionsOf, AllFine, Logged, Routed, Spilled, Noted;
    RoutedDropped(net.table, HostsOf(net.backends), b, spill, table);
    Replaced(net, b, g, Rebuild, table);
  }

  lemma {:induction false} SpillEachKeeps(net: Net, nodes: seq<NodeId>)
    requires Sane(net) && forall b {:trigger b in nodes} | b in nodes :: b in net.backends
    ensures var r := SpillEach(net, nodes); r.Some? && Sane(r.value) && Kin(net, r.value)
  {
    hide Sane, Kin, SpillFrom, Dropped;
    if nodes == [] {
      KinSelf(net);
    } else {
      var n := |nodes| - 1;
      assert forall b {:trigger b in nodes[..n]} | b in nodes[..n] :: b in nodes;
      assert nodes[n] in nodes;
      SpillEachKeeps(net, nodes[..n]);
      var before := SpillEach(net, nodes[..n]).value;
      KinKeys(net, before);
      SpillFromKeeps(before, nodes[n]);
      KinTrans(net, before, SpillFrom(before, nodes[n]).value);
    }
  }

  /** A whole epoch keeps the routes in agreement with the backends, and never fails on fast enough GPUs. */
  lemma EpochKeeps(net: Net, orders: Orders, rates: map<Session, real>)
    requires Sane(net) && Proper(orders)
    ensures Keeps(net, Epoch(net, orders, rates))
  {
    hide Sane, Kin, AllFast, Proper, AdjustEach, SpillEach, Allocate;
    var f := Flow(net, 0.0, []);
    AdjustEachKeeps(f, orders, rates, orders.sessions);
    var r := AdjustEach(f, orders, rates, orders.sessions);
    if r.Some? {
      SpillEachKeeps(r.value.net, r.value.overloaded);
      var spilled := SpillEach(r.value.net, r.value.overloaded).value;
      KinTrans(net, r.value.net, spilled);
      AllocateKeeps(spilled, orders);
      KeepsTrans(net, spilled, Allocate(spilled, orders));
    }
  }

  lemma IdleFine(profiles: Profiles)
    requires FitsAll(profiles)
    ensures Fine(Backend(profiles, IDLE)) && SessionsOf(IDLE.models) == {} && RunOf(profiles, []) == Some(IDLE)
  {
  }

  lemma RegisteredSane(net: Net, b: NodeId, profiles: Profiles)
    requires Sane(net) && b !in net.backends && FitsAll(profiles)
    ensures Sane(net.(backends := net.backends[b := Backend(profiles, IDLE)], logs := net.logs[b := []]))
  {
    hide Fine, Routed, SessionsOf, FitsAll, RunOf;
    IdleFine(profiles);
    var backends := net.backends[b := Backend(profiles, IDLE)];
    assert HostsOf(backends) == HostsOf(net.backends)[b := {}];
    RoutedNewBackend(net.table, HostsOf(net.backends), b);
    forall x | x in backends ensures Fine(backends[x]) {
      assert x != b ==> Fine(net.backends[x]);
    }
  }

  /** A backend joins if its number is new, and the net stays sane. */
  lemma RegisterKeeps(net: Net, orders: Orders, b: NodeId, profiles: Profiles)
    requires Sane(net) && FitsAll(profiles)
    ensures b in net.backends ==> Register(net, orders, b, profiles) == None
    ensures b !in net.backends && AllFast(net.backends) && Fast(profiles) ==> Register(net, orders, b, profiles).Some?
    ensures Register(net, orders, b, profiles).Some? ==>
      var net' := Register(net, orders, b, profiles).value;
      && Sane(net') && net'.table.Keys == net.table.Keys && net'.backends.Keys == net.backends.Keys + {b}
      && (AllFast(net.backends) && Fast(profiles) ==> AllFast(net'.backends))
  {
    hide Sane, FitsAll, Fast, Allocate;
    if b !in net.backends {
      var next := net.(backends := net.backends[b := Backend(profiles, IDLE)], logs := net.logs[b := []]);
      RegisteredSane(net, b, profiles);
      AllocateKeeps(next, orders);
      var r := Allocate(next, orders);
      if AllFast(net.backends) && Fast(profiles) {
        assert AllFast(next.backends);
        if r.Some? {
          KinFast(next, r.value);
        }
      }
    }
  }

  // Different backends, each willing, and none of them in a set.
  ghost predicate AllWilling(backends: Backends, s: Session, chosen: seq<Candidate>, used: set<NodeId>) {
    && (forall i {:trigger chosen[i]} | 0 <= i < |chosen| ::
          Willing(backends, s, chosen[i]) && chosen[i].node !in used)
    && (forall i, j {:trigger chosen[i], chosen[j]} | 0 <= i < j < |chosen| :: chosen[i].node != chosen[j].node)
  }

  // As many as it takes.
  ghost predicate JustEnough(chosen: seq<Candidate>, rate: real) {
    && SumOf(chosen) >= rate - SMALL
    && (chosen != [] ==> SumOf(chosen[..|chosen| - 1]) < rate - SMALL)
  }

  lemma EnoughFirst(c: Candidate, more: seq<Candidate>, rate: real)
    requires rate > SMALL && JustEnough(more, rate - c.inst.throughput)
    ensures JustEnough([c] + more, rate)
  {
    SumFirst(c, more);
    var all := [c] + more;
    if more == [] {
      assert all[..0] == [];
    } else {
      var n := |more| - 1;
      assert all[..n + 1] == [c] + more[..n];
      SumFirst(c, more[..n]);
    }
  }

  lemma WillingFirst(backends: Backends, s: Session, c: Candidate, more: seq<Candidate>, used: set<NodeId>)
    requires Willing(backends, s, c) && c.node !in used && AllWilling(backends, s, more, used + {c.node})
    ensures AllWilling(backends, s, [c] + more, used)
  {
    hide Willing;
    var all := [c] + more;
    forall i | 0 <= i < |all| ensures Willing(backends, s, all[i]) && all[i].node !in used {
      assert i > 0 ==> all[i] == more[i - 1];
    }
    forall i, j | 0 <= i < j < |all| ensures all[i].node != all[j].node {
      assert all[j] == more[j - 1];
      assert i > 0 ==> all[i] == more[i - 1];
    }
  }

  /** The backends picked for a session are willing, different, and just enough. */
  lemma {:induction false} PickIs(backends: Backends, nodes: seq<NodeId>, s: Session, rate: real, used: set<NodeId>)
    ensures var r := Pick(backends, nodes, s, rate, used);
      && (r.Picked? ==> AllWilling(backends, s, r.chosen, used) && JustEnough(r.chosen, rate))
      && (AllFine(backends) && AllFast(backends) ==> !r.PickDied?)
    decreases |backends.Keys - used|
  {
    hide AllFine, AllFast, BestBackend, AllWilling, JustEnough, Lacking, Willing;
    if rate <= SMALL {
      NonePicked(backends, s, rate, used);
    } else {
      if AllFine(backends) && AllFast(backends) {
        BestSurvives(backends, nodes, s, rate, used);
      }
      BestIsWilling(backends, nodes, s, rate, used);
      var r := BestBackend(backends, nodes, s, rate, used);
      if r.Best? {
        var c := r.candidate;
        Shrinks(backends.Keys, used, c.node);
        PickIs(backends, nodes, s, rate - c.inst.throughput, used + {c.node});
        var more := Pick(backends, nodes, s, rate - c.inst.throughput, used + {c.node});
        if more.Picked? {
          WillingFirst(backends, s, c, more.chosen, used);
          EnoughFirst(c, more.chosen, rate);
        }
      }
    }
  }

  lemma NonePicked(backends: Backends, s: Session, rate: real, used: set<NodeId>)
    requires rate <= SMALL
    ensures AllWilling(backends, s, [], used) && JustEnough([], rate)
  {
  }

  lemma OnePicked(backends: Backends, s: Session, c: Candidate)
    requires Willing(backends, s, c)
    ensures AllWilling(backends, s, [c], {})
  {
    hide Willing;
  }

  lemma PickForIs(backends: Backends, nodes: seq<NodeId>, s: Session, workload: real)
    ensures var r := PickFor(backends, nodes, s, workload);
      && (r.Picked? ==>
            && AllWilling(backends, s, r.chosen, {})
            && if workload == 0.0 then |r.chosen| == 1 else JustEnough(r.chosen, workload))
      && (AllFine(backends) && AllFast(backends) ==> !r.PickDied?)
  {
    hide AllFine, AllFast, BestBackend, AllWilling, JustEnough, Pick, Lacking, Willing;
    PickIs(backends, nodes, s, workload, {});
    if workload == 0.0 {
      if AllFine(backends) && AllFast(backends) {
        BestSurvives(backends, nodes, s, workload, {});
      }
      BestIsWilling(backends, nodes, s, workload, {});
      var r := BestBackend(backends, nodes, s, workload, {});
      if r.Best? {
        OnePicked(backends, s, r.candidate);
      }
    }
  }

  /** If too few backends are found, then at some point work was left that nobody else offered to take. */
  lemma {:induction false} TooFewMeans(
      backends: Backends, nodes: seq<NodeId>, s: Session, rate: real, used: set<NodeId>)
    returns (rest: real, tried: set<NodeId>)
    requires Lists(nodes, backends.Keys) && Pick(backends, nodes, s, rate, used).TooFew?
    ensures SMALL < rest && used <= tried && Unoffered(backends, s, rest, tried)
    decreases |backends.Keys - used|
  {
    hide BestBackend, Lists, Unoffered, Willing, Lacking;
    var r := BestBackend(backends, nodes, s, rate, used);
    if r.NoBackend? {
      NobodyOffers(backends, nodes, s, rate, used);
      return rate, used;
    }
    BestIsWilling(backends, nodes, s, rate, used);
    Shrinks(backends.Keys, used, r.candidate.node);
    rest, tried := TooFewMeans(backends, nodes, s, rate - r.candidate.inst.throughput, used + {r.candidate.node});
  }

  // The net after some candidates have been loaded: the other backends are as they were.
  ghost predicate LoadedSome(net: Net, s: Session, chosen: seq<Candidate>, net': Net)
    requires s in net.table
  {
    && Sane(net') && Kin(net, net') && net'.table == Joined(net.table, s, chosen)
    && forall b {:trigger net'.backends[b]} |
         b in net.backends && (forall c {:trigger c in chosen} | c in chosen :: c.node != b) ::
         net'.backends[b] == net.backends[b]
  }

  lemma LoadedMore(net: Net, s: Session, chosen: seq<Candidate>, c: Candidate, mid: Net)
    requires s in net.table && LoadedSome(net, s, chosen, mid) && Willing(net.backends, s, c)
    requires forall d {:trigger d in chosen} | d in chosen :: d.node != c.node
    ensures s in mid.table && LoadOn(mid, s, c).Some? && LoadedSome(net, s, chosen + [c], LoadOn(mid, s, c).value)
  {
    hide Sane, Prepare, LoadOn, SetWeight;
    assert mid.backends[c.node] == net.backends[c.node];
    LoadOnKeeps(mid, s, c);
    var net' := LoadOn(mid, s, c).value;
    KinTrans(net, mid, net');
    assert (chosen + [c])[..|chosen|] == chosen;
    hide Kin, Joined;
    var all := chosen + [c];
    forall b | b in net.backends && (forall d {:trigger d in all} | d in all :: d.node != b)
      ensures net'.backends[b] == net.backends[b]
    {
      assert c in all;
      forall d | d in chosen ensures d.node != b {
        assert d in all;
      }
      assert mid.backends[b] == net.backends[b];
    }
  }

  lemma LoadedNone(net: Net, s: Session)
    requires Sane(net) && s in net.table
    ensures LoadedSome(net, s, [], net)
  {
    KinSelf(net);
  }

  lemma {:induction false} LoadAllKeeps(net: Net, s: Session, chosen: seq<Candidate>)
    requires Sane(net) && s in net.table && AllWilling(net.backends, s, chosen, {})
    ensures LoadAll(net, s, chosen).Some? && LoadedSome(net, s, chosen, LoadAll(net, s, chosen).value)
  {
    hide Sane, LoadOn, LoadedSome, Willing;
    if chosen == [] {
      LoadedNone(net, s);
    } else {
      var n := |chosen| - 1;
      assert AllWilling(net.backends, s, chosen[..n], {});
      LoadAllKeeps(net, s, chosen[..n]);
      LoadedMore(net, s, chosen[..n], chosen[n], LoadAll(net, s, chosen[..n]).value);
      assert chosen == chosen[..n] + [chosen[n]];
    }
  }

  lemma NewSession(net: Net, s: Session)
    requires Sane(net) && s !in net.table
    ensures Sane(net.(table := net.table[s := SessionInfo(map[], 0.0)]))
  {
    hide AllFine, Logged, Routed;
    RoutedNewSession(net.table, HostsOf(net.backends), s);
  }

  /**
   Loading a session never fails on fast enough GPUs. A new session gets just enough willing
   backends for its workload, or the net stays as it was; a known one changes nothing.
   */
  lemma LoadModelKeeps(net: Net, nodes: seq<NodeId>, s: Session, workload: real)
    requires Sane(net)
    ensures AllFast(net.backends) ==> LoadModel(net, nodes, s, workload).Some?
    ensures LoadModel(net, nodes, s, workload).Some? ==>
      var r := LoadModel(net, nodes, s, workload).value;
      && Sane(r.net) && Kin(net.(table := r.net.table), r.net) && (s in net.table || !r.ok ==> r.net == net)
      && (r.ok && s !in net.table ==>
            var p := PickFor(net.backends, nodes, s, workload);
            && p.Picked? && AllWilling(net.backends, s, p.chosen, {})
            && (if workload == 0.0 then |p.chosen| == 1 else JustEnough(p.chosen, workload))
            && r.net.table == Joined(net.table[s := SessionInfo(map[], 0.0)], s, p.chosen))
  {
    hide Sane, AllFast, PickFor, LoadAll, AllWilling, JustEnough, Joined;
    if s !in net.table {
      SaneFine(net);
      PickForIs(net.backends, nodes, s, workload);
      var p := PickFor(net.backends, nodes, s, workload);
      if p.Picked? {
        NewSession(net, s);
        LoadAllKeeps(net.(table := net.table[s := SessionInfo(map[], 0.0)]), s, p.chosen);
      }
    }
  }

  // A list without the element at k.
  function Less(order: seq<NodeId>, k: nat): (r: seq<NodeId>)
    requires k < |order|
    ensures |r| == |order| - 1
  {
    order[..k] + order[k + 1..]
  }

  lemma LessLast(order: seq<NodeId>, k: nat)
    requires k < |order|
    ensures var n := |order| - 1;
      if k == n then Less(order, k) == order[..n]
      else Less(order, k) == Less(order[..n], k) + [order[n]] && order[..n][k] == order[k]
  {
  }

  lemma TotalMore(w: map<NodeId, real>, order: seq<NodeId>, b: NodeId)
    ensures Total(w, order + [b]) == Total(w, order) + At(w, b)
  {
    hide At;
    assert (order + [b])[..|order|] == order;
  }

  lemma {:induction false} TotalWithout(w: map<NodeId, real>, order: seq<NodeId>, k: nat)
    requires k < |order|
    ensures Total(w, order) == At(w, order[k]) + Total(w, Less(order, k))
  {
    hide At, Total, Less;
    var n := |order| - 1;
    LessLast(order, k);
    assert order == order[..n] + [order[n]];
    TotalMore(w, order[..n], order[n]);
    if k < n {
      TotalWithout(w, order[..n], k);
      TotalMore(w, Less(order[..n], k), order[n]);
    }
  }

  lemma WithoutOne(a: seq<NodeId>, k: nat)
    requires k < |a|
    ensures multiset(Less(a, k)) == multiset(a) - multiset{a[k]}
  {
    assert a == a[..k] + [a[k]] + a[k + 1..];
  }

  /** What a route serves does not depend on the order it is walked in. */
  lemma {:induction false} TotalPermuted(w: map<NodeId, real>, a: seq<NodeId>, b: seq<NodeId>)
    requires multiset(a) == multiset(b)
    ensures Total(w, a) == Total(w, b)
  {
    hide At;
    if a == [] {
      assert |b| == |multiset(b)| == 0;
    } else {
      var n := |a| - 1;
      assert a[n] in multiset(b);
      var k :| 0 <= k < |b| && b[k] == a[n];
      var rest := Less(b, k);
      WithoutOne(a, n);
      WithoutOne(b, k);
      LessLast(a, n);
      TotalPermuted(w, a[..n], rest);
      TotalWithout(w, b, k);
    }
  }

  lemma {:induction false} ListedAll<T>(order: seq<T>, keys: set<T>)
    requires forall x {:trigger x in order} | x in order :: x in keys
    ensures Listed(order, keys) == order
  {
    if order != [] {
      var n := |order| - 1;
      assert order[n] in order;
      assert forall x {:trigger x in order[..n]} | x in order[..n] :: x in order;
      ListedAll(order[..n], keys);
    }
  }

  // A walk over a route in any order of it accounts for the rate.
  lemma WalkedTotal(f: Flow, s: Session, route: seq<NodeId>, weights: map<NodeId, real>, f': Flow)
    requires s in f.net.table && Lists(route, weights.Keys)
    requires Walked(f, s, SortDown(Listed(route, weights.Keys), weights), f')
    ensures s in f'.net.table && Total(f'.net.table[s].weights, route) == f.rate - f'.rate
    ensures f'.net.table[s].unassigned == f.net.table[s].unassigned
  {
    ListedAll(route, weights.Keys);
    SortDownPermutes(route, weights);
    TotalPermuted(f'.net.table[s].weights, SortDown(route, weights), route);
    hide Sane, Kin, Total, SortDown, Listed;
  }

  /**
   A session's estimate is accounted for. If its route is walked, what the route serves
   afterwards is the estimate less the rest; the rest is unassigned when the work has grown,
   and nothing is when it has not. An estimate just below what is served changes no weight.
   */
  lemma AdjustAccounts(f: Flow, s: Session, route: seq<NodeId>, estimate: real)
    requires Sane(f.net) && s in f.net.table && Lists(route, f.net.table[s].weights.Keys)
    requires Adjust(f, s, route, estimate).Some?
    ensures var f', total := Adjust(f, s, route, estimate).value, Total(f.net.table[s].weights, route);
      && s in f'.net.table
      && (estimate < total * 0.97 || estimate > total ==> Total(f'.net.table[s].weights, route) == estimate - f'.rate)
      && (total * 0.97 <= estimate <= total ==> f'.net.table[s].weights == f.net.table[s].weights)
      && f'.net.table[s].unassigned ==
           if estimate < total * 0.97 || estimate <= total then Larger(0.0, estimate - total)
           else if f'.rate > SMALL then f'.rate else 0.0
  {
    hide Sane, NoRepeats, AllOn, Falling, SortDown, Listed, ShrinkAll, GrowAll, Total, Kin, AllFast, Walked;
    var weights := f.net.table[s].weights;
    var total := Total(weights, route);
    var order := SortDown(Listed(route, weights.Keys), weights);
    RouteSorted(route, weights);
    var unassigned := Larger(0.0, estimate - total);
    var f1 := f.(net := SetRate(f.net, s, unassigned), rate := estimate);
    SetRateKeeps(f.net, s, unassigned);
    hide Lists;
    if estimate < total * 0.97 {
      ShrinkAllWalks(f1, s, order);
      WalkedTotal(f1, s, route, weights, ShrinkAll(f1, s, order, weights).value);
    } else if estimate > total {
      GrowAllWalks(f1, s, order);
      WalkedTotal(f1, s, route, weights, GrowAll(f1, s, order).value);
    }
  }
}
