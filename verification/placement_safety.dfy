/** What every placement keeps: routes that agree with the backends, and models that keep their objectives. */
module PlacementSafety {
  import opened Wrappers
  import opened DutyCycles
  import opened BackendDelegates
  import opened Routing
  import opened Orderings
  import opened Placement

  ghost function HostsOf(backends: Backends): Hosts {
    map b | b in backends :: SessionsOf(backends[b].gpu.models)
  }

  ghost predicate Fine(backend: Backend) {
    FitsAll(backend.profiles) && Good(backend.profiles, backend.gpu)
  }

  ghost predicate AllFine(backends: Backends) {
    forall b {:trigger backends[b]} | b in backends :: Fine(backends[b])
  }

  /** Each backend is in the state that what it has been told leads to. */
  ghost predicate Logged(backends: Backends, logs: Logs) {
    forall b {:trigger backends[b]} | b in backends ::
      b in logs && RunOf(backends[b].profiles, logs[b]) == Some(backends[b].gpu)
  }

  /** Every backend is in order and as it was told, and the routes say exactly what the backends run. */
  ghost predicate Sane(net: Net) {
    AllFine(net.backends) && Logged(net.backends, net.logs) && Routed(net.table, HostsOf(net.backends))
  }

  // A full GPU serves at least 0.001 requests a second.
  ghost predicate Fast(profiles: Profiles) {
    forall s {:trigger profiles[s]} | s in profiles :: Checkable(profiles[s], s, 0.0)
  }

  ghost predicate AllFast(backends: Backends) {
    forall b {:trigger backends[b]} | b in backends :: Fast(backends[b].profiles)
  }

  // The same backends and sessions.
  ghost predicate Kin(net: Net, net': Net) {
    && net'.table.Keys == net.table.Keys && net'.backends.Keys == net.backends.Keys
    && forall b {:trigger net'.backends[b]} | b in net'.backends ::
      net'.backends[b].profiles == net.backends[b].profiles
  }

  lemma KinTrans(a: Net, b: Net, c: Net)
    requires Kin(a, b) && Kin(b, c)
    ensures Kin(a, c)
  {
    forall x | x in c.backends ensures c.backends[x].profiles == a.backends[x].profiles {
      assert b.backends[x].profiles == a.backends[x].profiles;
    }
  }

  lemma KinFast(a: Net, b: Net)
    requires Kin(a, b) && AllFast(a.backends)
    ensures AllFast(b.backends)
  {
    hide Fast;
    forall x | x in b.backends ensures Fast(b.backends[x].profiles) {
      assert Fast(a.backends[x].profiles);
    }
  }

  lemma FineOne(backends: Backends, b: NodeId)
    requires AllFine(backends) && b in backends
    ensures FitsAll(backends[b].profiles) && Good(backends[b].profiles, backends[b].gpu)
  {
    hide FitsAll, Good;
    assert Fine(backends[b]);
  }

  lemma RunMore(profiles: Profiles, events: seq<Event>, e: Event)
    requires RunOf(profiles, events).Some?
    ensures RunOf(profiles, events + [e]) == Step(profiles, RunOf(profiles, events).value, e)
  {
    hide Step;
    assert (events + [e])[..|events|] == events;
  }

  lemma LoggedMore(backends: Backends, logs: Logs, b: NodeId, g: Gpu, e: Event)
    requires Logged(backends, logs) && b in backends && Step(backends[b].profiles, backends[b].gpu, e) == Some(g)
    ensures Logged(backends[b := backends[b].(gpu := g)], Noted(logs, b, e))
  {
    hide Step, RunOf;
    assert b in logs && RunOf(backends[b].profiles, logs[b]) == Some(backends[b].gpu);
    RunMore(backends[b].profiles, logs[b], e);
  }

  lemma FineMore(backends: Backends, b: NodeId, g: Gpu)
    requires AllFine(backends) && b in backends && Good(backends[b].profiles, g)
    ensures AllFine(backends[b := backends[b].(gpu := g)])
  {
    hide Good, FitsAll;
    var backends' := backends[b := backends[b].(gpu := g)];
    forall x | x in backends' ensures Fine(backends'[x]) {
      assert Fine(backends[x]);
    }
  }

  lemma HostsMore(backends: Backends, b: NodeId, g: Gpu)
    requires b in backends
    ensures HostsOf(backends[b := backends[b].(gpu := g)]) == HostsOf(backends)[b := SessionsOf(g.models)]
  {
    hide SessionsOf;
  }

  // One backend does what it is told.
  lemma Replaced(net: Net, b: NodeId, g: Gpu, e: Event, table: Table)
    requires AllFine(net.backends) && Logged(net.backends, net.logs) && b in net.backends
    requires Good(net.backends[b].profiles, g) && Step(net.backends[b].profiles, net.backends[b].gpu, e) == Some(g)
    requires table.Keys == net.table.Keys
    ensures var net' := Told(net, b, g, e, table);
      && AllFine(net'.backends) && Logged(net'.backends, net'.logs) && Kin(net, net')
      && HostsOf(net'.backends) == HostsOf(net.backends)[b := SessionsOf(g.models)]
  {
    hide Good, SessionsOf, Logged, AllFine, HostsOf, Step, Noted;
    LoggedMore(net.backends, net.logs, b, g, e);
    FineMore(net.backends, b, g);
    HostsMore(net.backends, b, g);
  }

  // Who has a session is on its route, and the other way round.
  lemma OnRoute(net: Net, s: Session, b: NodeId)
    requires Sane(net) && s in net.table
    ensures b in net.table[s].weights <==> b in net.backends && s in SessionsOf(net.backends[b].gpu.models)
  {
    hide AllFine, Logged, SessionsOf;
    assert b in net.backends ==> HostsOf(net.backends)[b] == SessionsOf(net.backends[b].gpu.models);
  }

  // Whatever a backend has is in the table.
  lemma InTable(net: Net, s: Session, b: NodeId)
    requires Sane(net) && b in net.backends && s in SessionsOf(net.backends[b].gpu.models)
    ensures s in net.table && b in net.table[s].weights
  {
    hide AllFine, Logged, SessionsOf;
    assert s in HostsOf(net.backends)[b];
  }

  // The backend would take the session as the candidate says.
  ghost predicate Willing(backends: Backends, s: Session, c: Candidate) {
    && c.node in backends
    && Prepare(backends[c.node].profiles, backends[c.node].gpu, s, c.rate) == Ready(c.inst, c.occupancy)
  }

  /** A backend's offer can be taken up, and then its models run no longer than their cycle. */
  lemma LoadOnKeeps(net: Net, s: Session, c: Candidate)
    requires Sane(net) && s in net.table && Willing(net.backends, s, c)
    ensures LoadOn(net, s, c).Some?
    ensures var net' := LoadOn(net, s, c).value;
      && Sane(net') && Kin(net, net')
      && c.node !in net.table[s].weights && net'.table == SetWeight(net.table, s, c.node, c.inst.throughput)
      && net'.backends == net.backends[c.node := net'.backends[c.node]]
      && net'.backends[c.node].gpu.exec <= net'.backends[c.node].gpu.duty
  {
    hide Good, FitsAll, Prepare, Loaded, SessionsOf, CurrentBut, Sane, Kin, AllFine, SetWeight;
    SaneFine(net);
    var b := net.backends[c.node];
    FineOne(net.backends, c.node);
    ReadySession(b.profiles, b.gpu, s, c.rate);
    ReadyLoads(b.profiles, b.gpu, s, c.rate);
    OnRoute(net, s, c.node);
    Taken(net, s, c.node, Loaded(b.gpu, c.inst).value, Load(s, c.rate), c.inst.throughput);
  }

  lemma BestIsWilling(backends: Backends, nodes: seq<NodeId>, s: Session, rate: real, used: set<NodeId>)
    ensures var r := BestBackend(backends, nodes, s, rate, used);
      r.Best? ==>
        && Willing(backends, s, r.candidate) && r.candidate.node !in used && r.candidate.inst.session == s
        && r.candidate.node in Lacking(backends, s) && r.candidate.node in backends
  {
    BestIsNew(backends, nodes, s, rate, used);
    hide BestBackend, Prepare, SessionsOf;
  }

  // A backend joins the route.
  lemma Taken(net: Net, s: Session, b: NodeId, g: Gpu, e: Event, w: real)
    requires Sane(net) && s in net.table && b in net.backends
    requires Good(net.backends[b].profiles, g) && Step(net.backends[b].profiles, net.backends[b].gpu, e) == Some(g)
    requires SessionsOf(g.models) == SessionsOf(net.backends[b].gpu.models) + {s}
    ensures var net' := Told(net, b, g, e, SetWeight(net.table, s, b, w)); Sane(net') && Kin(net, net')
  {
    hide Good, Step, SessionsOf, AllFine, Logged, Routed, Noted;
    RoutedLoad(net.table, HostsOf(net.backends), s, b, w);
    Replaced(net, b, g, e, SetWeight(net.table, s, b, w));
  }

  // A rate that passes the checks wherever the GPU is fast enough.
  predicate Asking(rate: real) {
    rate == 0.0 || rate >= SMALL
  }

  lemma FastChecks(profiles: Profiles, s: Session, rate: real)
    requires Fast(profiles) && s in profiles && Asking(rate)
    ensures Checkable(profiles[s], s, rate)
  {
    assert Checkable(profiles[s], s, 0.0);
  }

  lemma AnswerSurvives(backends: Backends, b: NodeId, s: Session, rate: real, skips: set<NodeId>)
    requires AllFine(backends) && AllFast(backends) && Asking(rate)
    ensures !Answer(backends, b, s, rate, skips).Died?
  {
    hide FitsAll, Good, Fast, Checkable, Prepare, Room, Served;
    if b in backends {
      FineOne(backends, b);
      PrepareIff(backends[b].profiles, backends[b].gpu, s, rate);
      if s in backends[b].profiles {
        FastChecks(backends[b].profiles, s, rate);
      }
    }
  }

  lemma BestSurvives(backends: Backends, nodes: seq<NodeId>, s: Session, rate: real, skips: set<NodeId>)
    requires AllFine(backends) && AllFast(backends) && Asking(rate)
    ensures !BestBackend(backends, nodes, s, rate, skips).Died?
  {
    OffersAre(backends, nodes, s, rate, skips);
    forall b | b in nodes ensures !Answer(backends, b, s, rate, skips).Died? {
      AnswerSurvives(backends, b, s, rate, skips);
    }
    hide Offers, Answer, AllFine, AllFast;
  }

  // What the candidates serve together.
  ghost function SumOf(chosen: seq<Candidate>): real {
    if chosen == [] then 0.0 else SumOf(chosen[..|chosen| - 1]) + chosen[|chosen| - 1].inst.throughput
  }

  // The route with the candidates on it.
  ghost function Joined(table: Table, s: Session, chosen: seq<Candidate>): Table
    requires s in table
    ensures Joined(table, s, chosen).Keys == table.Keys
  {
    if chosen == [] then table
    else
      var c := chosen[|chosen| - 1];
      SetWeight(Joined(table, s, chosen[..|chosen| - 1]), s, c.node, c.inst.throughput)
  }

  lemma {:induction false} JoinedFirst(table: Table, s: Session, c: Candidate, more: seq<Candidate>)
    requires s in table
    ensures Joined(table, s, [c] + more) == Joined(SetWeight(table, s, c.node, c.inst.throughput), s, more)
  {
    hide SetWeight;
    var all := [c] + more;
    if more == [] {
      assert all[..0] == [] && all[0] == c;
      assert Joined(table, s, all[..0]) == table;
    } else {
      var n := |more| - 1;
      JoinedFirst(table, s, c, more[..n]);
      assert all[..n + 1] == [c] + more[..n] && all[n + 1] == more[n];
    }
  }

  lemma {:induction false} SumFirst(c: Candidate, more: seq<Candidate>)
    ensures SumOf([c] + more) == c.inst.throughput + SumOf(more)
  {
    var all := [c] + more;
    if more == [] {
      assert all[..0] == [] && all[0] == c;
      assert SumOf(all[..0]) == 0.0;
    } else {
      var n := |more| - 1;
      SumFirst(c, more[..n]);
      assert all[..n + 1] == [c] + more[..n] && all[n + 1] == more[n];
    }
  }

  // What placing a session brings about.
  ghost predicate PlacedWell(net: Net, s: Session, rate: real, p: Placed)
    requires s in net.table
  {
    && Sane(p.net) && Kin(net, p.net)
    && p.net.table == Joined(net.table, s, p.placed) && p.rate == rate - SumOf(p.placed)
  }

  lemma PlacedMore(net: Net, s: Session, rate: real, c: Candidate, net1: Net, p: Placed)
    requires s in net.table && Kin(net, net1) && net1.table == SetWeight(net.table, s, c.node, c.inst.throughput)
    requires PlacedWell(net1, s, rate - c.inst.throughput, p)
    ensures PlacedWell(net, s, rate, p.(placed := [c] + p.placed))
  {
    hide Sane, Kin, Joined, SumOf, SetWeight;
    JoinedFirst(net.table, s, c, p.placed);
    SumFirst(c, p.placed);
    KinTrans(net, net1, p.net);
  }

  lemma KinSelf(net: Net)
    ensures Kin(net, net)
  {
  }

  /**
   Placing a session never fails on fast enough GPUs. The route grows by the candidates taken,
   and the rate falls by what they serve.
   */
  lemma {:induction false} PlaceAllKeeps(net: Net, nodes: seq<NodeId>, s: Session, rate: real)
    requires Sane(net) && s in net.table
    ensures AllFast(net.backends) ==> PlaceAll(net, nodes, s, rate).Some?
    ensures PlaceAll(net, nodes, s, rate).Some? ==> PlacedWell(net, s, rate, PlaceAll(net, nodes, s, rate).value)
    decreases |Lacking(net.backends, s)|
  {
    hide Sane, Kin, AllFast, LoadOn, BestBackend, Lacking, SetWeight, Willing;
    KinSelf(net);
    if rate > SMALL {
      if AllFast(net.backends) {
        SaneFine(net);
        BestSurvives(net.backends, nodes, s, rate, {});
      }
      var r := BestBackend(net.backends, nodes, s, rate, {});
      if r.Best? {
        var c := r.candidate;
        BestIsWilling(net.backends, nodes, s, rate, {});
        LoadOnKeeps(net, s, c);
        var net1 := LoadOn(net, s, c).value;
        LackingShrinks(net, s, c);
        KinKeys(net, net1);
        PlaceAllKeeps(net1, nodes, s, rate - c.inst.throughput);
        if AllFast(net.backends) {
          KinFast(net, net1);
        }
        var p := PlaceAll(net1, nodes, s, rate - c.inst.throughput);
        if p.Some? {
          hide PlacedWell, Joined, SumOf;
          PlacedMore(net, s, rate, c, net1, p.value);
        }
      }
    }
  }

  lemma KinKeys(net: Net, net': Net)
    requires Kin(net, net')
    ensures net'.table.Keys == net.table.Keys && net'.backends.Keys == net.backends.Keys
  {
  }

  lemma SaneFine(net: Net)
    requires Sane(net)
    ensures AllFine(net.backends)
  {
  }

  lemma SetRateKeeps(net: Net, s: Session, rate: real)
    requires Sane(net)
    ensures Sane(SetRate(net, s, rate)) && Kin(net, SetRate(net, s, rate))
  {
    hide AllFine, Routed;
    if s in net.table {
      RoutedRate(net.table, HostsOf(net.backends), s, rate);
    }
  }

  // The outcome of a step on all of the net.
  ghost predicate Keeps(net: Net, r: Option<Net>) {
    && (AllFast(net.backends) ==> r.Some?)
    && (r.Some? ==> Sane(r.value) && Kin(net, r.value))
  }

  lemma KeepsTrans(net: Net, mid: Net, r: Option<Net>)
    requires Kin(net, mid) && Keeps(mid, r)
    ensures Keeps(net, r)
  {
    hide AllFast, Sane, Kin;
    if AllFast(net.backends) {
      KinFast(net, mid);
    }
    if r.Some? {
      KinTrans(net, mid, r.value);
    }
  }

  /** What is left of a session's rate stays unassigned, and next to nothing counts as nothing. */
  lemma AllocateForKeeps(net: Net, nodes: seq<NodeId>, s: Session)
    requires Sane(net) && s in net.table
    ensures Keeps(net, AllocateFor(net, nodes, s))
    ensures AllocateFor(net, nodes, s).Some? ==>
      var placed := PlaceAll(net, nodes, s, net.table[s].unassigned).value.placed;
      AllocateFor(net, nodes, s).value.table ==
        SetUnassigned(Joined(net.table, s, placed), s, Clipped(net.table[s].unassigned - SumOf(placed)))
  {
    hide Sane, Kin, AllFast, PlaceAll, Clipped, SetUnassigned, Joined, SumOf;
    PlaceAllKeeps(net, nodes, s, net.table[s].unassigned);
    var p := PlaceAll(net, nodes, s, net.table[s].unassigned);
    if p.Some? {
      SetRateKeeps(p.value.net, s, Clipped(p.value.rate));
      KinTrans(net, p.value.net, SetRate(p.value.net, s, Clipped(p.value.rate)));
    }
  }

  lemma {:induction false} AllocateEachKeeps(net: Net, nodes: seq<NodeId>, sessions: seq<Session>)
    requires Sane(net) && forall s {:trigger s in sessions} | s in sessions :: s in net.table
    ensures Keeps(net, AllocateEach(net, nodes, sessions))
  {
    hide Sane, Kin, AllFast, AllocateFor, Joined, SumOf;
    if sessions == [] {
      KinSelf(net);
    } else {
      var n := |sessions| - 1;
      assert forall s {:trigger s in sessions[..n]} | s in sessions[..n] :: s in sessions;
      AllocateEachKeeps(net, nodes, sessions[..n]);
      var before := AllocateEach(net, nodes, sessions[..n]);
      if before.Some? {
        assert sessions[n] in sessions;
        KinKeys(net, before.value);
        AllocateForKeeps(before.value, nodes, sessions[n]);
        KeepsTrans(net, before.value, AllocateFor(before.value, nodes, sessions[n]));
      }
    }
  }

  /** The sessions that wait, in falling order of rate, each once. */
  lemma WaitingIs(table: Table, sessions: seq<Session>)
    ensures var r, rates := Waiting(table, sessions), map s | s in table :: table[s].unassigned;
      && Falling(r, rates) && (NoRepeats(sessions) ==> NoRepeats(r))
      && forall s {:trigger s in r} :: s in r <==> s in sessions && s in table && table[s].unassigned > SMALL
  {
    var rates := map s | s in table :: table[s].unassigned;
    var keys := set s | s in table && table[s].unassigned > SMALL;
    ListedMembers(sessions, keys);
    var list := Listed(sessions, keys);
    SortDownPermutes(list, rates);
    SortDownFalls(list, rates);
    var r := SortDown(list, rates);
    forall s ensures s in r <==> s in list {
      assert s in multiset(r) <==> s in multiset(list);
    }
    if NoRepeats(sessions) {
      ListedNoRepeats(sessions, keys);
      PermutedNoRepeats(list, r);
    }
    hide Falling, NoRepeats;
  }

  lemma AllocateKeeps(net: Net, orders: Orders)
    requires Sane(net)
    ensures Keeps(net, Allocate(net, orders))
  {
    hide Sane, Keeps, AllocateEach, Waiting, Falling, NoRepeats;
    WaitingIs(net.table, orders.sessions);
    AllocateEachKeeps(net, orders.nodes, Waiting(net.table, orders.sessions));
  }

  // No backend that is not skipped offers to take the session.
  ghost predicate Unoffered(backends: Backends, s: Session, rate: real, skips: set<NodeId>) {
    forall c {:trigger Offered(backends, s, rate, skips, c)} :: !Offered(backends, s, rate, skips, c)
  }

  lemma NobodyOffers(backends: Backends, nodes: seq<NodeId>, s: Session, rate: real, skips: set<NodeId>)
    requires Lists(nodes, backends.Keys) && BestBackend(backends, nodes, s, rate, skips).NoBackend?
    ensures Unoffered(backends, s, rate, skips)
  {
    BestIsUnbeaten(backends, nodes, s, rate, skips);
    hide Lists, Offered, BestBackend;
  }

  lemma LoadOnNodes(net: Net, s: Session, c: Candidate)
    requires LoadOn(net, s, c).Some?
    ensures LoadOn(net, s, c).value.backends.Keys == net.backends.Keys
  {
    hide Loaded, SetWeight;
  }

  /** What is left when placing ends is next to nothing, or no backend offers to take it. */
  lemma {:induction false} PlaceAllEnds(net: Net, nodes: seq<NodeId>, s: Session, rate: real)
    requires Lists(nodes, net.backends.Keys) && PlaceAll(net, nodes, s, rate).Some?
    ensures var p := PlaceAll(net, nodes, s, rate).value; p.rate > SMALL ==> Unoffered(p.net.backends, s, p.rate, {})
    decreases |Lacking(net.backends, s)|
  {
    hide Lists, BestBackend, LoadOn, Lacking, Unoffered, Willing;
    var r := BestBackend(net.backends, nodes, s, rate, {});
    if rate > SMALL && r.NoBackend? {
      NobodyOffers(net.backends, nodes, s, rate, {});
    } else if rate > SMALL {
      BestIsWilling(net.backends, nodes, s, rate, {});
      LoadOnNodes(net, s, r.candidate);
      LackingShrinks(net, s, r.candidate);
      PlaceAllEnds(LoadOn(net, s, r.candidate).value, nodes, s, rate - r.candidate.inst.throughput);
    }
  }

  // A session is loaded on a backend of its route, and what is asked of it there is done.
  lemma UnloadFromKeeps(net: Net, s: Session, b: NodeId)
    requires Sane(net) && s in net.table
    ensures UnloadFrom(net, s, b).Some? <==> b in net.table[s].weights
    ensures UnloadFrom(net, s, b).Some? ==>
      var net' := UnloadFrom(net, s, b).value;
      Sane(net') && Kin(net, net') && net'.table == DropWeight(net.table, s, b)
  {
    hide Good, FitsAll, Unloaded, SessionsOf, CurrentBut, SameTasks, Without, Sane, Kin, DropWeight;
    OnRoute(net, s, b);
    SaneFine(net);
    if b in net.backends {
      FineOne(net.backends, b);
      hide AllFine;
      UnloadedKept(net.backends[b].profiles, net.backends[b].gpu, s);
      if Unloaded(net.backends[b].gpu, s).Some? {
        Released(net, s, b, Unloaded(net.backends[b].gpu, s).value);
      }
    }
  }

  // A backend leaves the route.
  lemma Released(net: Net, s: Session, b: NodeId, g: Gpu)
    requires Sane(net) && s in net.table && b in net.backends
    requires Good(net.backends[b].profiles, g) && Unloaded(net.backends[b].gpu, s) == Some(g)
    requires SessionsOf(g.models) == SessionsOf(net.backends[b].gpu.models) - {s}
    ensures var net' := Told(net, b, g, Unload(s), DropWeight(net.table, s, b)); Sane(net') && Kin(net, net')
  {
    hide Good, Unloaded, SessionsOf, AllFine, Logged, Routed, DropWeight, Noted;
    RoutedUnload(net.table, HostsOf(net.backends), s, b);
    DropKeys(net.table, s, b);
    Replaced(net, b, g, Unload(s), DropWeight(net.table, s, b));
  }

  lemma DropKeys(table: Table, s: Session, b: NodeId)
    requires s in table
    ensures DropWeight(table, s, b).Keys == table.Keys
  {
  }

  lemma UpdatedSessions(profiles: Profiles, g: Gpu, s: Session, rate: real)
    requires FitsAll(profiles) && Good(profiles, g)
    ensures Updated(g, s, rate).Some? ==>
      var g' := Updated(g, s, rate).value.gpu;
      Good(profiles, g') && SessionsOf(g'.models) == SessionsOf(g.models) && s in SessionsOf(g.models)
    ensures Fast(profiles) && Asking(rate) && s in SessionsOf(g.models) ==> Updated(g, s, rate).Some?
  {
    UpdatedKept(profiles, g, s, rate);
    if Fast(profiles) && Asking(rate) && s in SessionsOf(g.models) {
      ServedProfile(profiles, g, s);
      FastChecks(profiles, s, rate);
    }
    hide Good, FitsAll, Updated, SessionsOf, Skips, CurrentBut, Timely, InObjective, Fast, Checkable;
  }

  lemma ServedProfile(profiles: Profiles, g: Gpu, s: Session)
    requires Good(profiles, g) && s in SessionsOf(g.models)
    ensures s in profiles
  {
    assert Served(profiles, g.models[IndexOf(g.models, s)]);
  }

  // The backend of a route takes on another weight.
  lemma Reweighted(net: Net, s: Session, b: NodeId, g: Gpu, e: Event, w: real)
    requires Sane(net) && s in net.table && b in net.table[s].weights && b in net.backends
    requires Good(net.backends[b].profiles, g) && Step(net.backends[b].profiles, net.backends[b].gpu, e) == Some(g)
    requires SessionsOf(g.models) == SessionsOf(net.backends[b].gpu.models)
    ensures var net' := Told(net, b, g, e, SetWeight(net.table, s, b, w)); Sane(net') && Kin(net, net')
  {
    hide Good, Step, SessionsOf, AllFine, Logged, Routed, Noted;
    RoutedWeight(net.table, HostsOf(net.backends), s, b, w);
    Replaced(net, b, g, e, SetWeight(net.table, s, b, w));
    assert HostsOf(net.backends)[b := SessionsOf(g.models)] == HostsOf(net.backends);
  }

  lemma UpdateOnKeeps(f: Flow, s: Session, b: NodeId)
    requires Sane(f.net) && s in f.net.table
    ensures AllFast(f.net.backends) && Asking(f.rate) && b in f.net.table[s].weights ==> UpdateOn(f, s, b).Some?
    ensures UpdateOn(f, s, b).Some? ==>
      var f' := UpdateOn(f, s, b).value;
      && b in f.net.table[s].weights && Sane(f'.net) && Kin(f.net, f'.net)
      && f'.net.table == SetWeight(f.net.table, s, b, f.rate - f'.rate) && f'.overloaded == f.overloaded
  {
    hide Good, FitsAll, Updated, SessionsOf, Fast, Sane, Kin;
    var net := f.net;
    OnRoute(net, s, b);
    SaneFine(net);
    if b in net.backends {
      var profiles, g := net.backends[b].profiles, net.backends[b].gpu;
      FineOne(net.backends, b);
      hide AllFine;
      UpdatedSessions(profiles, g, s, f.rate);
      var o := Updated(g, s, f.rate);
      if o.Some? {
        Reweighted(net, s, b, o.value.gpu, Update(s, f.rate), o.value.value);
      }
    }
  }

  // The entry of s is all that changes, and of its route only what concerns the backends in a list.
  ghost predicate OnlyRoute(table: Table, table': Table, s: Session, order: seq<NodeId>) {
    && s in table && s in table' && table' == table[s := table[s].(weights := table'[s].weights)]
    && forall x {:trigger x in table'[s].weights} {:trigger At(table'[s].weights, x)} | x !in order ::
         (x in table'[s].weights <==> x in table[s].weights) && At(table'[s].weights, x) == At(table[s].weights, x)
  }

  // The net after some backends of a session's route have been dealt with: what they serve is off the rate.
  ghost predicate Walked(f: Flow, s: Session, order: seq<NodeId>, f': Flow) {
    && Sane(f'.net) && Kin(f.net, f'.net) && OnlyRoute(f.net.table, f'.net.table, s, order)
    && Total(f'.net.table[s].weights, order) == f.rate - f'.rate
    && (forall b {:trigger b in f'.overloaded} | b in f'.overloaded :: b in f.overloaded || b in f.net.backends)
  }

  lemma {:induction false} TotalSame(w: map<NodeId, real>, v: map<NodeId, real>, order: seq<NodeId>)
    requires forall x {:trigger x in order} | x in order :: At(w, x) == At(v, x)
    ensures Total(w, order) == Total(v, order)
  {
    hide At;
    if order != [] {
      var n := |order| - 1;
      assert order[n] in order;
      assert forall x {:trigger x in order[..n]} | x in order[..n] :: x in order;
      TotalSame(w, v, order[..n]);
    }
  }

  lemma TotalOne(w: map<NodeId, real>, b: NodeId)
    ensures Total(w, [b]) == At(w, b)
  {
    assert [b][..0] == [];
    assert Total(w, [b][..0]) == 0.0;
  }

  lemma RouteOne(table: Table, s: Session, b: NodeId, w: real)
    requires s in table
    ensures OnlyRoute(table, DropWeight(table, s, b), s, [b]) && At(DropWeight(table, s, b)[s].weights, b) == 0.0
    ensures OnlyRoute(table, SetWeight(table, s, b, w), s, [b]) && At(SetWeight(table, s, b, w)[s].weights, b) == w
    ensures OnlyRoute(table, table, s, [b])
  {
  }

  lemma LeaveWalks(f: Flow, s: Session, b: NodeId)
    requires Sane(f.net) && s in f.net.table
    ensures Leave(f, s, b).Some? <==> b in f.net.table[s].weights
    ensures Leave(f, s, b).Some? ==> Walked(f, s, [b], Leave(f, s, b).value)
  {
    hide Sane, Kin, UnloadFrom, DropWeight, SetWeight, OnlyRoute;
    UnloadFromKeeps(f.net, s, b);
    RouteOne(f.net.table, s, b, 0.0);
    if Leave(f, s, b).Some? {
      TotalOne(Leave(f, s, b).value.net.table[s].weights, b);
    }
  }

  lemma UpdateWalks(f: Flow, s: Session, b: NodeId)
    requires Sane(f.net) && s in f.net.table
    ensures AllFast(f.net.backends) && Asking(f.rate) && b in f.net.table[s].weights ==> UpdateOn(f, s, b).Some?
    ensures UpdateOn(f, s, b).Some? ==> Walked(f, s, [b], UpdateOn(f, s, b).value)
  {
    hide Sane, Kin, UpdateOn, DropWeight, SetWeight, OnlyRoute, AllFast;
    UpdateOnKeeps(f, s, b);
    var r := UpdateOn(f, s, b);
    if r.Some? {
      RouteOne(f.net.table, s, b, f.rate - r.value.rate);
      TotalOne(r.value.net.table[s].weights, b);
    }
  }

  lemma ShrinkOnWalks(f: Flow, s: Session, b: NodeId, weight: real)
    requires Sane(f.net) && s in f.net.table && weight == At(f.net.table[s].weights, b)
    ensures AllFast(f.net.backends) && b in f.net.table[s].weights ==> ShrinkOn(f, s, b, weight).Some?
    ensures ShrinkOn(f, s, b, weight).Some? ==> Walked(f, s, [b], ShrinkOn(f, s, b, weight).value)
  {
    hide Sane, Kin, Leave, UpdateOn, OnlyRoute, AllFast;
    LeaveWalks(f, s, b);
    UpdateWalks(f, s, b);
    RouteOne(f.net.table, s, b, 0.0);
    TotalOne(f.net.table[s].weights, b);
    KinSelf(f.net);
  }

  lemma GrowOnWalks(f: Flow, s: Session, b: NodeId)
    requires Sane(f.net) && s in f.net.table
    ensures AllFast(f.net.backends) && b in f.net.table[s].weights ==> GrowOn(f, s, b).Some?
    ensures GrowOn(f, s, b).Some? ==> Walked(f, s, [b], GrowOn(f, s, b).value)
  {
    hide Sane, Leave, UpdateOn, OnlyRoute, AllFast, Occupancy;
    LeaveWalks(f, s, b);
    UpdateWalks(f, s, b);
  }

  lemma WalkedMore(f: Flow, s: Session, order: seq<NodeId>, mid: Flow, b: NodeId, f': Flow)
    requires Walked(f, s, order, mid) && Walked(mid, s, [b], f') && b !in order
    ensures Walked(f, s, order + [b], f')
  {
    KinTrans(f.net, mid.net, f'.net);
    var w, v := mid.net.table[s].weights, f'.net.table[s].weights;
    TotalSame(w, v, order);
    TotalOne(v, b);
    assert (order + [b])[..|order|] == order;
    RoutesJoin(f.net.table, mid.net.table, f'.net.table, s, order, b);
    hide Sane, OnlyRoute, At;
  }

  lemma RoutesJoin(t0: Table, t1: Table, t2: Table, s: Session, order: seq<NodeId>, b: NodeId)
    requires OnlyRoute(t0, t1, s, order) && OnlyRoute(t1, t2, s, [b])
    ensures OnlyRoute(t0, t2, s, order + [b])
  {
    hide At;
    forall x | x !in order + [b]
      ensures (x in t2[s].weights <==> x in t0[s].weights) && At(t2[s].weights, x) == At(t0[s].weights, x)
    {
      assert x !in order && x !in [b];
      assert x in t1[s].weights <==> x in t0[s].weights;
    }
  }

  lemma WalkedNone(f: Flow, s: Session)
    requires Sane(f.net) && s in f.net.table
    ensures Walked(f, s, [], f)
  {
    KinSelf(f.net);
  }

  ghost predicate AllOn(weights: map<NodeId, real>, order: seq<NodeId>) {
    forall x {:trigger x in order} | x in order :: x in weights
  }

  // The next backend of the route is as it was.
  lemma StillOn(f: Flow, s: Session, order: seq<NodeId>, mid: Flow, b: NodeId)
    requires Walked(f, s, order, mid) && b !in order
    ensures s in mid.net.table && At(mid.net.table[s].weights, b) == At(f.net.table[s].weights, b)
    ensures b in f.net.table[s].weights ==> b in mid.net.table[s].weights
    ensures AllFast(f.net.backends) ==> AllFast(mid.net.backends)
    ensures Sane(mid.net)
  {
    if AllFast(f.net.backends) {
      KinFast(f.net, mid.net);
    }
    hide AllFast, Sane;
    assert b in mid.net.table[s].weights <==> b in f.net.table[s].weights;
  }

  lemma LastOf(order: seq<NodeId>, weights: map<NodeId, real>)
    requires order != [] && NoRepeats(order) && AllOn(weights, order)
    ensures var n := |order| - 1;
      NoRepeats(order[..n]) && AllOn(weights, order[..n]) && order[n] !in order[..n] && order[n] in weights &&
        order == order[..n] + [order[n]]
  {
    var n := |order| - 1;
    assert order[n] in order;
    forall x | x in order[..n] ensures x in weights {
      assert x in order;
    }
  }

  /** Shrinking deals with every backend of the route and never fails; what the route then serves is off the rate. */
  lemma {:induction false} ShrinkAllWalks(f: Flow, s: Session, order: seq<NodeId>)
    requires Sane(f.net) && s in f.net.table && NoRepeats(order) && AllOn(f.net.table[s].weights, order)
    ensures var r := ShrinkAll(f, s, order, f.net.table[s].weights);
      (AllFast(f.net.backends) ==> r.Some?) && (r.Some? ==> Walked(f, s, order, r.value))
  {
    hide Sane, NoRepeats, AllOn, AllFast, Walked, ShrinkOn, At;
    var weights := f.net.table[s].weights;
    if order == [] {
      WalkedNone(f, s);
    } else {
      var n := |order| - 1;
      LastOf(order, weights);
      ShrinkAllWalks(f, s, order[..n]);
      var mid := ShrinkAll(f, s, order[..n], weights);
      if mid.Some? {
        StillOn(f, s, order[..n], mid.value, order[n]);
        ShrinkOnWalks(mid.value, s, order[n], At(weights, order[n]));
        var r := ShrinkOn(mid.value, s, order[n], At(weights, order[n]));
        if r.Some? {
          WalkedMore(f, s, order[..n], mid.value, order[n], r.value);
        }
      }
    }
  }

  /** Growing does so too. */
  lemma {:induction false} GrowAllWalks(f: Flow, s: Session, order: seq<NodeId>)
    requires Sane(f.net) && s in f.net.table && NoRepeats(order) && AllOn(f.net.table[s].weights, order)
    ensures var r := GrowAll(f, s, order);
      (AllFast(f.net.backends) ==> r.Some?) && (r.Some? ==> Walked(f, s, order, r.value))
  {
    hide Sane, NoRepeats, AllOn, AllFast, Walked, GrowOn, At;
    if order == [] {
      WalkedNone(f, s);
    } else {
      var n := |order| - 1;
      LastOf(order, f.net.table[s].weights);
      GrowAllWalks(f, s, order[..n]);
      var mid := GrowAll(f, s, order[..n]);
      if mid.Some? {
        StillOn(f, s, order[..n], mid.value, order[n]);
        GrowOnWalks(mid.value, s, order[n]);
        var r := GrowOn(mid.value, s, order[n]);
        if r.Some? {
          WalkedMore(f, s, order[..n], mid.value, order[n], r.value);
        }
      }
    }
  }
}
