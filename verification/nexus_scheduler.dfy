/** The epoch scheduler: it owns the backends and the routes, and answers requests. */
module NexusScheduler {
  import opened Wrappers
  import opened DutyCycles
  import opened BackendDelegates
  import opened Routing
  import opened Orderings
  import opened Placement
  import opened PlacementSafety
  import opened PlacementEpochs
  import opened PlacementLaws

  // What is known of the backends.
  function ValuesOf(backends: map<NodeId, BackendDelegate>): Backends
    reads backends.Values
  {
    map b | b in backends :: Backend(backends[b].profiles, backends[b].Value())
  }

  // The backends are told apart by their ids.
  ghost predicate BackendsOk(backends: map<NodeId, BackendDelegate>)
    reads backends.Values
  {
    forall b {:trigger backends[b]} | b in backends :: backends[b].nodeId == b && backends[b].Valid()
  }

  // Candidates in front of those picked later.
  function Before(chosen: seq<Candidate>, p: Picked): Picked {
    if p.Picked? then Picked(chosen + p.chosen) else p
  }

  function PlacedBefore(placed: seq<Candidate>, r: Option<Placed>): Option<Placed> {
    if r.Some? then Some(r.value.(placed := placed + r.value.placed)) else None
  }

  class Scheduler {
    var backends: map<NodeId, BackendDelegate>
    var table: Table
    ghost var logs: Logs

    ghost predicate Valid()
      reads this, backends.Values
    {
      BackendsOk(backends)
    }

    ghost function Value(): Net
      reads this, backends.Values
    {
      Net(ValuesOf(backends), table, logs)
    }

    constructor ()
      ensures Valid() && Value() == EMPTY && backends == map[]
    {
      backends, table, logs := map[], map[], map[];
    }

    method FindBestBackend(nodes: seq<NodeId>, s: Session, rate: real, skips: set<NodeId>) returns (r: Choice)
      requires Valid()
      ensures r == BestBackend(Value().backends, nodes, s, rate, skips)
    {
      hide Prepare, BestBy;
      ghost var all := Value().backends;
      var fastest, fullest: Option<Candidate> := None, None;
      ghost var offers := [];
      for i := 0 to |nodes|
        invariant Offers(all, nodes[..i], s, rate, skips) == Some(offers)
        invariant if offers == [] then fastest == fullest == None
          else fastest == Some(BestBy(offers, true)) && fullest == Some(BestBy(offers, false))
      {
        assert nodes[..i + 1][..i] == nodes[..i];
        var b := nodes[i];
        if b !in backends || b in skips || (Abs(rate) < SMALL && backends[b].exec != 0.0) {
          continue;
        }
        var p := backends[b].PrepareLoadModel(s, rate);
        assert p == Answer(all, b, s, rate, skips);
        if p.Died? {
          OffersFail(all, nodes, s, rate, skips, i + 1);
          return Choice.Died;
        }
        if p.Ready? {
          var c := Candidate(b, p.inst, p.occupancy, rate);
          BestByMore(offers, c, true);
          BestByMore(offers, c, false);
          if fastest == None || c.inst.throughput > fastest.value.inst.throughput {
            fastest := Some(c);
          }
          if fullest == None || c.occupancy > fullest.value.occupancy {
            fullest := Some(c);
          }
          offers := offers + [c];
        }
      }
      assert nodes[..|nodes|] == nodes;
      if fastest == None {
        return NoBackend;
      }
      r := if Abs(rate) < SMALL || fastest.value.inst.throughput < rate then Best(fastest.value) else
        Best(fullest.value);
    }

    // One backend has changed.
    twostate lemma OnlyOne(b: NodeId)
      requires old(Valid()) && backends == old(backends) && b in backends && backends[b].Valid()
      requires forall c {:trigger backends[c]} | c in backends && c != b :: unchanged(backends[c])
      ensures Valid()
      ensures Value().backends == old(Value().backends)[b := Backend(backends[b].profiles, backends[b].Value())]
    {
    }

    lemma Known(b: NodeId)
      ensures b in backends <==> b in Value().backends
      ensures b in backends ==> Value().backends[b] == Backend(backends[b].profiles, backends[b].Value())
    {
    }

    lemma Apart(b: NodeId)
      requires Valid() && b in backends
      ensures forall c {:trigger backends[c]} | c in backends && c != b :: backends[c] != backends[b]
    {
    }

    method LoadOnBackend(s: Session, c: Candidate) returns (ok: bool)
      requires Valid()
      modifies `table, `logs, backends.Values
      ensures ok ==> Valid()
      ensures LoadOn(old(Value()), s, c) == if ok then Some(Value()) else None
    {
      hide Loaded, BackendDelegate.Valid, BackendDelegate.Value;
      Known(c.node);
      hide ValuesOf;
      if c.node !in backends || s !in table {
        return false;
      }
      Apart(c.node);
      ok := backends[c.node].LoadModel(c.inst);
      if ok {
        OnlyOne(c.node);
        logs := Noted(logs, c.node, Load(s, c.rate));
        if c.node !in table[s].weights {
          table := SetWeight(table, s, c.node, c.inst.throughput);
        }
      }
    }

    method Choose(nodes: seq<NodeId>, s: Session, workload: real) returns (r: Picked)
      requires Valid()
      ensures r == PickFor(Value().backends, nodes, s, workload)
    {
      hide BestBackend, Scheduler.Valid, ValuesOf, Pick;
      if workload != 0.0 {
        r := ChooseMany(nodes, s, workload);
      } else {
        var c := FindBestBackend(nodes, s, workload, {});
        r := match c case Died => PickDied case NoBackend => TooFew case Best(x) => Picked([x]);
      }
    }

    method ChooseMany(nodes: seq<NodeId>, s: Session, workload: real) returns (r: Picked)
      requires Valid()
      ensures r == Pick(Value().backends, nodes, s, workload, {})
    {
      hide BestBackend, Scheduler.Valid, ValuesOf, Pick, Before;
      ghost var all := Value().backends;
      var rest, used, chosen: seq<Candidate> := workload, {}, [];
      BeforeNone(all, nodes, s, workload, {});
      while rest > SMALL
        invariant Before(chosen, Pick(all, nodes, s, rest, used)) == Pick(all, nodes, s, workload, {})
        decreases |all.Keys - used|
      {
        var c := FindBestBackend(nodes, s, rest, used);
        PickStep(all, nodes, s, rest, used, chosen, c);
        if c.Died? {
          return PickDied;
        }
        if c.NoBackend? {
          return TooFew;
        }
        chosen, used := chosen + [c.candidate], used + {c.candidate.node};
        rest := rest - c.candidate.inst.throughput;
      }
      PickEnd(all, nodes, s, rest, used, chosen);
      r := Picked(chosen);
    }

    method LoadSession(nodes: seq<NodeId>, s: Session, workload: real) returns (alive: bool, ok: bool)
      requires Valid()
      modifies `table, `logs, backends.Values
      ensures alive ==> Valid()
      ensures LoadModel(old(Value()), nodes, s, workload) == if alive then Some(Reply(Value(), ok)) else None
    {
      hide LoadOn, PickFor;
      if s in table {
        return true, true;
      }
      var p := Choose(nodes, s, workload);
      if p.PickDied? {
        return false, false;
      }
      if p.TooFew? {
        return true, false;
      }
      table := table[s := SessionInfo(map[], 0.0)];
      ghost var start := Value();
      for i := 0 to |p.chosen|
        invariant Valid() && LoadAll(start, s, p.chosen[..i]) == Some(Value())
      {
        assert p.chosen[..i + 1][..i] == p.chosen[..i];
        var loaded := LoadOnBackend(s, p.chosen[i]);
        if !loaded {
          LoadAllFails(start, s, p.chosen, i + 1);
          return false, false;
        }
      }
      assert p.chosen[..|p.chosen|] == p.chosen;
      alive, ok := true, true;
    }

    method PlaceOn(nodes: seq<NodeId>, s: Session) returns (alive: bool, rate: real, ghost placed: seq<Candidate>)
      requires Valid() && s in table
      modifies `table, `logs, backends.Values
      ensures alive ==> Valid()
      ensures PlaceAll(old(Value()), nodes, s, old(table[s].unassigned)) ==
        if alive then Some(Placed(Value(), rate, placed)) else None
    {
      hide BestBackend, LoadOn, Lacking, PlaceAll, PlacedBefore, Scheduler.Valid, ValuesOf, Willing;
      rate := table[s].unassigned;
      placed := [];
      PlacedNone(Value(), nodes, s, rate);
      while rate > SMALL
        invariant Valid()
        invariant PlacedBefore(placed, PlaceAll(Value(), nodes, s, rate)) ==
          PlaceAll(old(Value()), nodes, s, old(table[s].unassigned))
        decreases |Lacking(Value().backends, s)|
      {
        ghost var before := Value();
        var c := FindBestBackend(nodes, s, rate, {});
        PlaceStep(before, nodes, s, rate, placed, c);
        if c.Died? {
          return false, rate, placed;
        }
        if c.NoBackend? {
          alive := true;
          return;
        }
        BestIsWilling(before.backends, nodes, s, rate, {});
        var ok := LoadOnBackend(s, c.candidate);
        if !ok {
          return false, rate, placed;
        }
        LackingShrinks(before, s, c.candidate);
        placed := placed + [c.candidate];
        rate := rate - c.candidate.inst.throughput;
      }
      PlaceEnd(Value(), nodes, s, rate, placed);
      alive := true;
    }

    method AllocateSession(nodes: seq<NodeId>, s: Session) returns (alive: bool)
      requires Valid()
      modifies `table, `logs, backends.Values
      ensures alive ==> Valid()
      ensures AllocateFor(old(Value()), nodes, s) == if alive then Some(Value()) else None
    {
      hide PlaceAll;
      if s !in table {
        return false;
      }
      var rate;
      ghost var placed;
      alive, rate, placed := PlaceOn(nodes, s);
      if !alive {
        return;
      }
      if Abs(rate) < SMALL {
        rate := 0.0;
      }
      SetSessionRate(s, if rate > 0.0 then rate else 0.0);
    }

    method SetSessionRate(s: Session, rate: real)
      requires Valid()
      modifies `table
      ensures Valid() && Value() == SetRate(old(Value()), s, rate)
    {
      if s in table {
        table := SetUnassigned(table, s, rate);
      }
    }

    method AllocateUnassignedWorkloads(orders: Orders) returns (alive: bool)
      requires Valid()
      modifies `table, `logs, backends.Values
      ensures alive ==> Valid()
      ensures Allocate(old(Value()), orders) == if alive then Some(Value()) else None
    {
      hide AllocateFor, Waiting;
      var waiting := Waiting(table, orders.sessions);
      for i := 0 to |waiting|
        invariant Valid() && AllocateEach(old(Value()), orders.nodes, waiting[..i]) == Some(Value())
      {
        assert waiting[..i + 1][..i] == waiting[..i];
        alive := AllocateSession(orders.nodes, waiting[i]);
        if !alive {
          AllocateEachFails(old(Value()), orders.nodes, waiting, i + 1);
          return;
        }
      }
      assert waiting[..|waiting|] == waiting;
      alive := true;
    }

    method Release(s: Session, b: NodeId) returns (alive: bool)
      requires Valid()
      modifies `table, `logs, backends.Values
      ensures alive ==> Valid()
      ensures UnloadFrom(old(Value()), s, b) == if alive then Some(Value()) else None
    {
      hide Unloaded, BackendDelegate.Valid, BackendDelegate.Value;
      Known(b);
      hide ValuesOf;
      if b !in backends || s !in table {
        return false;
      }
      Apart(b);
      alive := backends[b].UnloadModel(s);
      if alive {
        OnlyOne(b);
        table, logs := DropWeight(table, s, b), Noted(logs, b, Unload(s));
      }
    }

    method Follow(s: Session, b: NodeId, rate: real, ghost overloaded: seq<NodeId>) returns (alive: bool, left: real)
      requires Valid()
      modifies `table, `logs, backends.Values
      ensures alive ==> Valid()
      ensures UpdateOn(Flow(old(Value()), rate, overloaded), s, b) ==
        if alive then Some(Flow(Value(), left, overloaded)) else None
    {
      hide Updated, BackendDelegate.Valid, BackendDelegate.Value;
      Known(b);
      hide ValuesOf;
      left := rate;
      if b !in backends || s !in table {
        return false, left;
      }
      Apart(b);
      var throughput;
      alive, throughput := backends[b].UpdateModelThroughput(s, rate);
      if alive {
        OnlyOne(b);
        table, logs := SetWeight(table, s, b, throughput), Noted(logs, b, Update(s, rate));
        left := rate - throughput;
      }
    }

    method ShrinkBackend(s: Session, b: NodeId, weight: real, rate: real, ghost overloaded: seq<NodeId>)
      returns (alive: bool, left: real)
      requires Valid()
      modifies `table, `logs, backends.Values
      ensures alive ==> Valid()
      ensures ShrinkOn(Flow(old(Value()), rate, overloaded), s, b, weight) ==
        if alive then Some(Flow(Value(), left, overloaded)) else None
    {
      hide Scheduler.Valid, UnloadFrom, UpdateOn, ValuesOf;
      alive, left := true, rate;
      if rate < SMALL {
        alive := Release(s, b);
      } else if weight > rate {
        alive, left := Follow(s, b, rate, overloaded);
      } else {
        left := rate - weight;
      }
    }

    /** Less work than before: backends are released or slowed down, those with the most weight kept first. */
    method ShrinkSession(
      s: Session, order: seq<NodeId>, weights: map<NodeId, real>, estimate: real, ghost overloaded: seq<NodeId>)
      returns (alive: bool, rate: real)
      requires Valid()
      modifies `table, `logs, backends.Values
      ensures alive ==> Valid()
      ensures ShrinkAll(Flow(old(Value()), estimate, overloaded), s, order, weights) ==
        if alive then Some(Flow(Value(), rate, overloaded)) else None
    {
      hide Scheduler.Valid, ShrinkOn, ValuesOf, At;
      alive, rate := true, estimate;
      ghost var start := Flow(Value(), estimate, overloaded);
      for i := 0 to |order|
        invariant alive && Valid() && ShrinkAll(start, s, order[..i], weights) == Some(Flow(Value(), rate, overloaded))
      {
        assert order[..i + 1][..i] == order[..i];
        alive, rate := ShrinkBackend(s, order[i], At(weights, order[i]), rate, overloaded);
        if !alive {
          ShrinkFails(start, s, order, weights, i + 1);
          return;
        }
      }
      assert order[..|order|] == order;
    }

    method GrowBackend(s: Session, b: NodeId, rate: real, overloaded: seq<NodeId>)
      returns (alive: bool, left: real, overloaded': seq<NodeId>)
      requires Valid()
      modifies `table, `logs, backends.Values
      ensures alive ==> Valid()
      ensures GrowOn(Flow(old(Value()), rate, overloaded), s, b) ==
        if alive then Some(Flow(Value(), left, overloaded')) else None
    {
      hide Scheduler.Valid, UnloadFrom, UpdateOn;
      alive, left, overloaded' := true, rate, overloaded;
      if rate < SMALL {
        alive := Release(s, b);
      } else {
        alive, left := Follow(s, b, rate, overloaded);
        if alive && b in backends {
          assert Value().backends[b].gpu == backends[b].Value();
          if backends[b].overload && Occupancy(backends[b].Value()) > 1.05 {
            overloaded' := overloaded + [b];
          }
        }
      }
    }

    /** More work than before: each backend takes what it can, and overloaded ones are noted. */
    method GrowSession(s: Session, order: seq<NodeId>, estimate: real, overloaded: seq<NodeId>)
      returns (alive: bool, rate: real, overloaded': seq<NodeId>)
      requires Valid()
      modifies `table, `logs, backends.Values
      ensures alive ==> Valid()
      ensures GrowAll(Flow(old(Value()), estimate, overloaded), s, order) ==
        if alive then Some(Flow(Value(), rate, overloaded')) else None
    {
      hide Scheduler.Valid, GrowOn, ValuesOf;
      alive, rate, overloaded' := true, estimate, overloaded;
      ghost var start := Flow(Value(), estimate, overloaded);
      for i := 0 to |order|
        invariant alive && Valid() && GrowAll(start, s, order[..i]) == Some(Flow(Value(), rate, overloaded'))
      {
        assert order[..i + 1][..i] == order[..i];
        alive, rate, overloaded' := GrowBackend(s, order[i], rate, overloaded');
        if !alive {
          GrowFails(start, s, order, i + 1);
          return;
        }
      }
      assert order[..|order|] == order;
    }

    method TotalThroughput(weights: map<NodeId, real>, route: seq<NodeId>) returns (total: real)
      ensures total == Total(weights, route)
    {
      hide At;
      total := 0.0;
      for i := 0 to |route|
        invariant total == Total(weights, route[..i])
      {
        assert route[..i + 1][..i] == route[..i];
        total := total + At(weights, route[i]);
      }
      assert route[..|route|] == route;
    }

    method AdjustSession(s: Session, route: seq<NodeId>, estimate: real, rate: real, overloaded: seq<NodeId>)
      returns (alive: bool, rate': real, overloaded': seq<NodeId>)
      requires Valid()
      modifies `table, `logs, backends.Values
      ensures alive ==> Valid()
      ensures Adjust(Flow(old(Value()), rate, overloaded), s, route, estimate) ==
        if alive then Some(Flow(Value(), rate', overloaded')) else None
    {
      hide Scheduler.Valid, ShrinkAll, GrowAll, ValuesOf, SortDown, Listed, Total;
      alive, rate', overloaded' := true, rate, overloaded;
      if s !in table {
        return;
      }
      var weights := table[s].weights;
      var total := TotalThroughput(weights, route);
      var order := SortDown(Listed(route, weights.Keys), weights);
      SetSessionRate(s, Larger(0.0, estimate - total));
      rate' := estimate;
      if estimate < total * 0.97 {
        alive, rate' := ShrinkSession(s, order, weights, estimate, overloaded);
      } else if estimate > total {
        alive, rate', overloaded' := GrowSession(s, order, estimate, overloaded);
        if alive {
          SetSessionRate(s, if rate' > SMALL then rate' else 0.0);
        }
      }
    }

    method AdjustAll(orders: Orders, rates: map<Session, real>)
      returns (alive: bool, rate: real, overloaded: seq<NodeId>)
      requires Valid()
      modifies `table, `logs, backends.Values
      ensures alive ==> Valid()
      ensures AdjustEach(Flow(old(Value()), 0.0, []), orders, rates, orders.sessions) ==
        if alive then Some(Flow(Value(), rate, overloaded)) else None
    {
      hide Scheduler.Valid, Adjust, ValuesOf, RouteOf;
      alive, rate, overloaded := true, 0.0, [];
      ghost var start := Flow(Value(), 0.0, []);
      var sessions := orders.sessions;
      for i := 0 to |sessions|
        invariant alive && Valid()
        invariant AdjustEach(start, orders, rates, sessions[..i]) == Some(Flow(Value(), rate, overloaded))
      {
        assert sessions[..i + 1][..i] == sessions[..i];
        var s := sessions[i];
        if s in rates {
          alive, rate, overloaded :=
            AdjustSession(s, RouteOf(orders, s), Larger(rates[s], LEAST_RATE), rate, overloaded);
          if !alive {
            AdjustFails(start, orders, rates, sessions, i + 1);
            return;
          }
        }
      }
      assert sessions[..|sessions|] == sessions;
    }

    /** What an overloaded backend gives up leaves its route and is unassigned again. */
    method SpillBackend(b: NodeId) returns (alive: bool)
      requires Valid()
      modifies `table, `logs, backends.Values
      ensures alive ==> Valid()
      ensures SpillFrom(old(Value()), b) == if alive then Some(Value()) else None
    {
      hide SpilledOut, BackendDelegate.Valid, BackendDelegate.Value, DropAll;
      Known(b);
      hide ValuesOf;
      if b !in backends {
        return false;
      }
      Apart(b);
      var spill;
      alive, spill := backends[b].SpillOutWorkload();
      if alive {
        OnlyOne(b);
        logs := Noted(logs, b, Rebuild);
        alive, table := DropSpilled(table, b, spill);
      }
    }

    method SpillOverloaded(nodes: seq<NodeId>) returns (alive: bool)
      requires Valid()
      modifies `table, `logs, backends.Values
      ensures alive ==> Valid()
      ensures SpillEach(old(Value()), nodes) == if alive then Some(Value()) else None
    {
      hide Scheduler.Valid, SpillFrom, ValuesOf;
      alive := true;
      for i := 0 to |nodes|
        invariant alive && Valid() && SpillEach(old(Value()), nodes[..i]) == Some(Value())
      {
        assert nodes[..i + 1][..i] == nodes[..i];
        alive := SpillBackend(nodes[i]);
        if !alive {
          SpillFails(old(Value()), nodes, i + 1);
          return;
        }
      }
      assert nodes[..|nodes|] == nodes;
    }

    /** One epoch: sessions are adjusted to their rates, overloaded backends spill, and what is unassigned is placed. */
    method EpochSchedule(orders: Orders, rates: map<Session, real>) returns (alive: bool)
      requires Valid()
      modifies `table, `logs, backends.Values
      ensures alive ==> Valid()
      ensures Epoch(old(Value()), orders, rates) == if alive then Some(Value()) else None
    {
      hide Scheduler.Valid, ValuesOf, AdjustEach, SpillEach, Allocate;
      var rate, overloaded;
      alive, rate, overloaded := AdjustAll(orders, rates);
      if alive {
        alive := SpillOverloaded(overloaded);
      }
      if alive {
        alive := AllocateUnassignedWorkloads(orders);
      }
    }

    /** A backend joins; a number already taken is a fatal error. Unassigned rates may go to it at once. */
    method RegisterBackend(orders: Orders, b: NodeId, profiles: Profiles) returns (alive: bool)
      requires Valid()
      modifies this, backends.Values
      ensures alive ==> Valid()
      ensures fresh(backends.Values - old(backends.Values))
      ensures Register(old(Value()), orders, b, profiles) == if alive then Some(Value()) else None
    {
      hide BackendDelegate.Valid, Allocate;
      if b in backends {
        return false;
      }
      var backend := new BackendDelegate(b, profiles);
      backends, logs := backends[b := backend], logs[b := []];
      assert ValuesOf(backends) == old(ValuesOf(backends))[b := Backend(profiles, IDLE)];
      hide ValuesOf;
      alive := AllocateUnassignedWorkloads(orders);
    }
  }

  lemma BestByMore(offers: seq<Candidate>, c: Candidate, byThroughput: bool)
    ensures BestBy(offers + [c], byThroughput) ==
      if offers == [] || Score(c, byThroughput) > Score(BestBy(offers, byThroughput), byThroughput) then c
      else BestBy(offers, byThroughput)
  {
    assert (offers + [c])[..|offers|] == offers;
  }

  // Takes b off the routes of the spilled sessions, one by one.
  method DropSpilled(table: Table, b: NodeId, spill: Spill) returns (ok: bool, table': Table)
    ensures DropAll(table, b, spill) == if ok then Some(table') else None
  {
    ok, table' := true, table;
    for i := 0 to |spill|
      invariant ok && DropAll(table, b, spill[..i]) == Some(table')
    {
      assert spill[..i + 1][..i] == spill[..i];
      var s, w := spill[i].0, spill[i].1;
      if s !in table' {
        DropFails(table, b, spill, i + 1);
        return false, table';
      }
      table' := SetUnassigned(DropWeight(table', s, b), s, table'[s].unassigned + w);
    }
    assert spill[..|spill|] == spill;
  }

  lemma {:induction false} DropFails(table: Table, b: NodeId, spill: Spill, i: nat)
    requires i <= |spill| && DropAll(table, b, spill[..i]) == None
    ensures DropAll(table, b, spill) == None
    decreases |spill| - i
  {
    if i < |spill| {
      assert spill[..i + 1][..i] == spill[..i];
      DropFails(table, b, spill, i + 1);
    } else {
      assert spill[..i] == spill;
    }
  }

  lemma {:induction false} ShrinkFails(f: Flow, s: Session, order: seq<NodeId>, weights: map<NodeId, real>, i: nat)
    requires i <= |order| && ShrinkAll(f, s, order[..i], weights) == None
    ensures ShrinkAll(f, s, order, weights) == None
    decreases |order| - i
  {
    hide ShrinkOn, At;
    if i < |order| {
      assert order[..i + 1][..i] == order[..i];
      ShrinkFails(f, s, order, weights, i + 1);
    } else {
      assert order[..i] == order;
    }
  }

  lemma {:induction false} GrowFails(f: Flow, s: Session, order: seq<NodeId>, i: nat)
    requires i <= |order| && GrowAll(f, s, order[..i]) == None
    ensures GrowAll(f, s, order) == None
    decreases |order| - i
  {
    hide GrowOn;
    if i < |order| {
      assert order[..i + 1][..i] == order[..i];
      GrowFails(f, s, order, i + 1);
    } else {
      assert order[..i] == order;
    }
  }

  lemma {:induction false} AdjustFails(
    f: Flow, orders: Orders, rates: map<Session, real>, sessions: seq<Session>, i: nat)
    requires i <= |sessions| && AdjustEach(f, orders, rates, sessions[..i]) == None
    ensures AdjustEach(f, orders, rates, sessions) == None
    decreases |sessions| - i
  {
    hide Adjust;
    if i < |sessions| {
      assert sessions[..i + 1][..i] == sessions[..i];
      AdjustFails(f, orders, rates, sessions, i + 1);
    } else {
      assert sessions[..i] == sessions;
    }
  }

  lemma {:induction false} SpillFails(net: Net, nodes: seq<NodeId>, i: nat)
    requires i <= |nodes| && SpillEach(net, nodes[..i]) == None
    ensures SpillEach(net, nodes) == None
    decreases |nodes| - i
  {
    hide SpillFrom;
    if i < |nodes| {
      assert nodes[..i + 1][..i] == nodes[..i];
      SpillFails(net, nodes, i + 1);
    } else {
      assert nodes[..i] == nodes;
    }
  }

  lemma {:induction false} OffersFail(
    backends: Backends, nodes: seq<NodeId>, s: Session, rate: real, skips: set<NodeId>, i: nat)
    requires i <= |nodes| && Offers(backends, nodes[..i], s, rate, skips) == None
    ensures Offers(backends, nodes, s, rate, skips) == None
    decreases |nodes| - i
  {
    hide Answer;
    if i < |nodes| {
      assert nodes[..i + 1][..i] == nodes[..i];
      OffersFail(backends, nodes, s, rate, skips, i + 1);
    } else {
      assert nodes[..i] == nodes;
    }
  }

  lemma BeforeNone(backends: Backends, nodes: seq<NodeId>, s: Session, rate: real, used: set<NodeId>)
    ensures Before([], Pick(backends, nodes, s, rate, used)) == Pick(backends, nodes, s, rate, used)
  {
    hide BestBackend, Pick;
  }

  lemma PickEnd(
    backends: Backends, nodes: seq<NodeId>, s: Session, rate: real, used: set<NodeId>, chosen: seq<Candidate>)
    requires rate <= SMALL
    ensures Before(chosen, Pick(backends, nodes, s, rate, used)) == Picked(chosen)
  {
    assert chosen + [] == chosen;
  }

  // One round of choosing.
  lemma PickStep(
    backends: Backends, nodes: seq<NodeId>, s: Session, rate: real, used: set<NodeId>,
    chosen: seq<Candidate>, c: Choice)
    requires rate > SMALL && c == BestBackend(backends, nodes, s, rate, used)
    ensures c.Died? ==> Pick(backends, nodes, s, rate, used).PickDied?
    ensures c.NoBackend? ==> Pick(backends, nodes, s, rate, used).TooFew?
    ensures !c.Best? ==> Before(chosen, Pick(backends, nodes, s, rate, used)) == Pick(backends, nodes, s, rate, used)
    ensures c.Best? ==>
      && c.candidate.node in backends && c.candidate.node !in used
      && |backends.Keys - (used + {c.candidate.node})| < |backends.Keys - used|
      && Before(chosen, Pick(backends, nodes, s, rate, used)) ==
           Before(chosen + [c.candidate],
             Pick(backends, nodes, s, rate - c.candidate.inst.throughput, used + {c.candidate.node}))
  {
    BestIsNew(backends, nodes, s, rate, used);
    hide BestBackend, SessionsOf, Offered;
    if c.Best? {
      var b := c.candidate;
      Shrinks(backends.Keys, used, b.node);
      var p := Pick(backends, nodes, s, rate - b.inst.throughput, used + {b.node});
      if p.Picked? {
        assert chosen + ([b] + p.chosen) == chosen + [b] + p.chosen;
      }
    }
  }

  lemma PlacedNone(net: Net, nodes: seq<NodeId>, s: Session, rate: real)
    ensures PlacedBefore([], PlaceAll(net, nodes, s, rate)) == PlaceAll(net, nodes, s, rate)
  {
    hide PlaceAll;
    var r := PlaceAll(net, nodes, s, rate);
    if r.Some? {
      assert [] + r.value.placed == r.value.placed;
    }
  }

  lemma PlaceEnd(net: Net, nodes: seq<NodeId>, s: Session, rate: real, placed: seq<Candidate>)
    requires rate <= SMALL
    ensures PlacedBefore(placed, PlaceAll(net, nodes, s, rate)) == Some(Placed(net, rate, placed))
  {
    assert placed + [] == placed;
  }

  // One round of placing.
  lemma PlaceStep(net: Net, nodes: seq<NodeId>, s: Session, rate: real, placed: seq<Candidate>, c: Choice)
    requires rate > SMALL && c == BestBackend(net.backends, nodes, s, rate, {})
    ensures var r := PlacedBefore(placed, PlaceAll(net, nodes, s, rate));
      && (c.Died? ==> r == None) && (c.NoBackend? ==> r == Some(Placed(net, rate, placed)))
      && (c.Best? ==>
            var next := LoadOn(net, s, c.candidate);
            r == if next == None then None
                 else PlacedBefore(placed + [c.candidate],
                   PlaceAll(next.value, nodes, s, rate - c.candidate.inst.throughput)))
  {
    hide BestBackend, LoadOn;
    assert placed + [] == placed;
    if c.Best? && LoadOn(net, s, c.candidate).Some? {
      var p := PlaceAll(LoadOn(net, s, c.candidate).value, nodes, s, rate - c.candidate.inst.throughput);
      if p.Some? {
        assert placed + ([c.candidate] + p.value.placed) == placed + [c.candidate] + p.value.placed;
      }
    }
  }

  lemma {:induction false} LoadAllFails(net: Net, s: Session, chosen: seq<Candidate>, i: nat)
    requires i <= |chosen| && LoadAll(net, s, chosen[..i]) == None
    ensures LoadAll(net, s, chosen) == None
    decreases |chosen| - i
  {
    hide LoadOn;
    if i < |chosen| {
      assert chosen[..i + 1][..i] == chosen[..i];
      LoadAllFails(net, s, chosen, i + 1);
    } else {
      assert chosen[..i] == chosen;
    }
  }

  lemma {:induction false} AllocateEachFails(net: Net, nodes: seq<NodeId>, sessions: seq<Session>, i: nat)
    requires i <= |sessions| && AllocateEach(net, nodes, sessions[..i]) == None
    ensures AllocateEach(net, nodes, sessions) == None
    decreases |sessions| - i
  {
    hide AllocateFor;
    if i < |sessions| {
      assert sessions[..i + 1][..i] == sessions[..i];
      AllocateEachFails(net, nodes, sessions, i + 1);
    } else {
      assert sessions[..i] == sessions;
    }
  }

  /** What the scheduler is asked to do, with the orders its hash tables are in at the time. */
  datatype Request =
    | Joins(node: NodeId, profiles: Profiles, orders: Orders)
    | Loads(session: Session, workload: real, orders: Orders)
    | EpochEnds(rates: map<Session, real>, orders: Orders)

  function NextNet(net: Net, e: Request): Option<Net> {
    match e
    case Joins(b, profiles, orders) => Register(net, orders, b, profiles)
    case Loads(s, w, orders) => (
      match LoadModel(net, orders.nodes, s, w)
      case None => None
      case Some(r) => Some(r.net))
    case EpochEnds(rates, orders) => Epoch(net, orders, rates)
  }

  const EMPTY := Net(map[], map[], map[])

  /** The net after some requests, or None if the process has ended. */
  function NetOf(requests: seq<Request>): Option<Net> {
    if requests == [] then Some(EMPTY)
    else
      match NetOf(requests[..|requests| - 1])
      case None => None
      case Some(net) => NextNet(net, requests[|requests| - 1])
  }

  // The profiles of whoever joins fit, and no order repeats anything.
  ghost predicate Regular(e: Request) {
    Proper(e.orders) && (e.Joins? ==> FitsAll(e.profiles))
  }

  ghost predicate AllRegular(requests: seq<Request>) {
    forall i {:trigger requests[i]} | 0 <= i < |requests| :: Regular(requests[i])
  }

  ghost predicate AllFastJoin(requests: seq<Request>) {
    forall i {:trigger requests[i]} | 0 <= i < |requests| && requests[i].Joins? :: Fast(requests[i].profiles)
  }

  ghost function NodesOf(requests: seq<Request>): set<NodeId> {
    set i | 0 <= i < |requests| && requests[i].Joins? :: requests[i].node
  }

  lemma NodesMore(requests: seq<Request>)
    requires requests != []
    ensures var n, last := |requests| - 1, requests[|requests| - 1];
      NodesOf(requests) == NodesOf(requests[..n]) + if last.Joins? then {last.node} else {}
  {
    var n := |requests| - 1;
    var before := requests[..n];
    forall b ensures b in NodesOf(requests) <==> b in NodesOf(before) || (requests[n].Joins? && requests[n].node == b) {
      if b in NodesOf(before) {
        var i :| 0 <= i < n && before[i].Joins? && before[i].node == b;
        assert requests[i].node == b;
      }
      if b in NodesOf(requests) {
        var i :| 0 <= i < |requests| && requests[i].Joins? && requests[i].node == b;
        assert i < n ==> before[i].node == b;
      }
    }
  }

  // What a request keeps, and when it survives.
  lemma NextKeeps(net: Net, e: Request)
    requires Sane(net) && Regular(e)
    ensures NextNet(net, e).Some? ==>
      var net' := NextNet(net, e).value;
      && Sane(net') && net'.backends.Keys == net.backends.Keys + (if e.Joins? then {e.node} else {})
      && (AllFast(net.backends) && (e.Joins? ==> Fast(e.profiles)) ==> AllFast(net'.backends))
    ensures e.Joins? && e.node in net.backends ==> NextNet(net, e) == None
    ensures AllFast(net.backends) && (e.Joins? ==> Fast(e.profiles) && e.node !in net.backends) ==>
      NextNet(net, e).Some?
  {
    hide Sane, AllFast, Fast, Proper, FitsAll, Register, LoadModel, Epoch, AllWilling, JustEnough, Joined, PickFor;
    match e
    case Joins(b, profiles, orders) => RegisterKeeps(net, orders, b, profiles);
    case Loads(s, w, orders) =>
      LoadModelKeeps(net, orders.nodes, s, w);
      var r := LoadModel(net, orders.nodes, s, w);
      if r.Some? && AllFast(net.backends) {
        KinFast(net.(table := r.value.net.table), r.value.net);
      }
    case EpochEnds(rates, orders) =>
      EpochKeeps(net, orders, rates);
      var r := Epoch(net, orders, rates);
      if r.Some? && AllFast(net.backends) {
        KinFast(net, r.value);
      }
  }

  lemma EmptyIsSane()
    ensures Sane(EMPTY) && AllFast(EMPTY.backends)
  {
  }

  /**
   Every run: the routes agree with what the backends run, each backend is in a state that its
   own runs lead to, and the backends are those that have joined.
   */
  lemma {:induction false} RunIsSane(requests: seq<Request>)
    requires AllRegular(requests) && NetOf(requests).Some?
    ensures Sane(NetOf(requests).value) && NetOf(requests).value.backends.Keys == NodesOf(requests)
    ensures AllFastJoin(requests) ==> AllFast(NetOf(requests).value.backends)
  {
    hide Sane, AllFast, NextNet, Regular, Fast;
    if requests == [] {
      EmptyIsSane();
    } else {
      var n := |requests| - 1;
      assert AllRegular(requests[..n]) && Regular(requests[n]) by { FirstRegular(requests); }
      assert AllFastJoin(requests) ==> AllFastJoin(requests[..n]);
      RunIsSane(requests[..n]);
      NodesMore(requests);
      NextKeeps(NetOf(requests[..n]).value, requests[n]);
    }
  }

  lemma FirstRegular(requests: seq<Request>)
    requires AllRegular(requests) && requests != []
    ensures AllRegular(requests[..|requests| - 1]) && Regular(requests[|requests| - 1])
  {
  }

  ghost predicate JoinOnce(requests: seq<Request>) {
    forall i, j {:trigger requests[i], requests[j]} | 0 <= i < j < |requests| && requests[i].Joins? &&
      requests[j].Joins? ::
      requests[i].node != requests[j].node
  }

  lemma JoinMore(requests: seq<Request>)
    requires requests != []
    ensures var n, last := |requests| - 1, requests[|requests| - 1];
      JoinOnce(requests) <==> JoinOnce(requests[..n]) && (last.Joins? ==> last.node !in NodesOf(requests[..n]))
  {
    var n := |requests| - 1;
    var before := requests[..n];
    if JoinOnce(requests) {
      forall i, j | 0 <= i < j < n && before[i].Joins? && before[j].Joins? ensures before[i].node != before[j].node {
        assert requests[i] == before[i] && requests[j] == before[j];
      }
    }
    if JoinOnce(before) && (requests[n].Joins? ==> requests[n].node !in NodesOf(before)) {
      forall i, j | 0 <= i < j <= n && requests[i].Joins? &&
        requests[j].Joins? ensures requests[i].node != requests[j].node {
        assert before[i] == requests[i];
        if j < n {
          assert before[j] == requests[j];
        } else {
          assert before[i].node in NodesOf(before);
        }
      }
    }
  }

  /** On fast enough GPUs no check ever fails: a run ends the process exactly if a node joins twice. */
  lemma {:induction false} RunSurvivesIff(requests: seq<Request>)
    requires AllRegular(requests) && AllFastJoin(requests)
    ensures NetOf(requests).Some? <==> JoinOnce(requests)
  {
    hide Sane, AllFast, NextNet, Regular, Fast, JoinOnce, NodesOf;
    if requests == [] {
      NoneJoin();
    } else {
      var n := |requests| - 1;
      FirstRegular(requests);
      assert AllFastJoin(requests[..n]) && (requests[n].Joins? ==> Fast(requests[n].profiles));
      RunSurvivesIff(requests[..n]);
      JoinMore(requests);
      if NetOf(requests[..n]).Some? {
        RunIsSane(requests[..n]);
        NextKeeps(NetOf(requests[..n]).value, requests[n]);
      }
    }
  }

  lemma NoneJoin()
    ensures JoinOnce([])
  {
  }

  // The request asks for this session and is granted.
  ghost predicate Grants(net: Net, e: Request, s: Session) {
    && e.Loads? && e.session == s
    && var r := LoadModel(net, e.orders.nodes, s, e.workload);
       r.Some? && r.value.ok
  }

  ghost predicate GrantedAt(requests: seq<Request>, k: nat, s: Session)
    requires k < |requests|
  {
    NetOf(requests[..k]).Some? && Grants(NetOf(requests[..k]).value, requests[k], s)
  }

  lemma SessionsKept(net: Net, e: Request, s: Session)
    requires Sane(net) && Regular(e) && NextNet(net, e).Some?
    ensures s in NextNet(net, e).value.table <==>
      s in net.table || Grants(net, e, s)
  {
    hide Sane, AllFast, Fast, Proper, FitsAll, Register, LoadModel, Epoch, AllWilling, JustEnough, PickFor;
    match e
    case Joins(b, profiles, orders) => RegisterKeeps(net, orders, b, profiles);
    case Loads(t, w, orders) => LoadModelKeeps(net, orders.nodes, t, w);
    case EpochEnds(rates, orders) => EpochKeeps(net, orders, rates);
  }

  /** The table has exactly the sessions whose requests have been granted. */
  lemma {:induction false} RunSessionsIff(requests: seq<Request>, s: Session)
    requires AllRegular(requests) && NetOf(requests).Some?
    ensures s in NetOf(requests).value.table <==>
      exists k {:trigger GrantedAt(requests, k, s)} :: 0 <= k < |requests| && GrantedAt(requests, k, s)
  {
    hide Sane, NextNet, Regular, Grants, AllRegular;
    if requests != [] {
      var n := |requests| - 1;
      var before := requests[..n];
      FirstRegular(requests);
      RunSessionsIff(before, s);
      RunIsSane(before);
      SessionsKept(NetOf(before).value, requests[n], s);
      forall k | 0 <= k < n ensures GrantedAt(requests, k, s) <==> GrantedAt(before, k, s) {
        assert before[..k] == requests[..k] && before[k] == requests[k];
      }
      assert GrantedAt(requests, n, s) <==> Grants(NetOf(before).value, requests[n], s);
      if exists k :: 0 <= k < n && GrantedAt(before, k, s) {
        var k :| 0 <= k < n && GrantedAt(before, k, s);
        assert GrantedAt(requests, k, s);
      }
    }
  }

  method Serve(sch: Scheduler, e: Request) returns (alive: bool)
    requires sch.Valid()
    modifies sch, sch.backends.Values
    ensures alive ==> sch.Valid()
    ensures fresh(sch.backends.Values - old(sch.backends.Values))
    ensures NextNet(old(sch.Value()), e) == if alive then Some(sch.Value()) else None
  {
    hide Scheduler.Valid, ValuesOf, Register, LoadModel, Epoch;
    match e
    case Joins(b, profiles, orders) => alive := sch.RegisterBackend(orders, b, profiles);
    case Loads(s, w, orders) =>
      var ok;
      alive, ok := sch.LoadSession(orders.nodes, s, w);
    case EpochEnds(rates, orders) => alive := sch.EpochSchedule(orders, rates);
  }

  lemma {:induction false} NetFails(requests: seq<Request>, i: nat)
    requires i <= |requests| && NetOf(requests[..i]) == None
    ensures NetOf(requests) == None
    decreases |requests| - i
  {
    hide NextNet;
    if i < |requests| {
      assert requests[..i + 1][..i] == requests[..i];
      NetFails(requests, i + 1);
    } else {
      assert requests[..i] == requests;
    }
  }

  /** Runs the scheduler through some requests. */
  method Run(requests: seq<Request>) returns (alive: bool, table: Table, backends: Backends, ghost logs: Logs)
    ensures NetOf(requests) == if alive then Some(Net(backends, table, logs)) else None
  {
    var sch := new Scheduler();
    hide Scheduler.Valid, NextNet, ValuesOf;
    for k := 0 to |requests|
      invariant fresh(sch) && fresh(sch.backends.Values) && sch.Valid() && NetOf(requests[..k]) == Some(sch.Value())
    {
      assert requests[..k + 1][..k] == requests[..k];
      alive := Serve(sch, requests[k]);
      if !alive {
        NetFails(requests, k + 1);
        return false, map[], map[], map[];
      }
    }
    assert requests[..|requests|] == requests;
    alive, table, backends, logs := true, sch.table, ValuesOf(sch.backends), sch.logs;
  }

  /** In every run each backend is in the state that what it has been told leads to. */
  lemma RunIsLogged(requests: seq<Request>, b: NodeId)
    requires AllRegular(requests) && NetOf(requests).Some? && b in NetOf(requests).value.backends
    ensures var net := NetOf(requests).value;
      && b in net.logs && FitsAll(net.backends[b].profiles)
      && RunOf(net.backends[b].profiles, net.logs[b]) == Some(net.backends[b].gpu)
  {
    RunIsSane(requests);
    var net := NetOf(requests).value;
    hide AllRegular, NetOf, AllFastJoin, Routed, FitsAll, RunOf;
    assert Fine(net.backends[b]);
  }

  /**
   Throughout a run all models of a backend keep their objectives if and only if each update of it
   that left its cycle alone was timely in that cycle.
   */
  lemma RunObjectivesIff(requests: seq<Request>, b: NodeId)
    requires AllRegular(requests) && NetOf(requests).Some? && b in NetOf(requests).value.backends
    ensures b in NetOf(requests).value.logs
    ensures var profiles, log := NetOf(requests).value.backends[b].profiles, NetOf(requests).value.logs[b];
      (forall k {:trigger ObjectivesAt(profiles, log, k)} | 0 <= k <= |log| :: ObjectivesAt(profiles, log, k))
      <==> (forall k {:trigger HarmlessAt(profiles, log, k)} | 0 <= k < |log| :: HarmlessAt(profiles, log, k))
  {
    RunIsLogged(requests, b);
    var net := NetOf(requests).value;
    hide AllRegular, NetOf, FitsAll, RunOf, ObjectivesAt, HarmlessAt;
    BackendDelegates.RunObjectivesIff(net.backends[b].profiles, net.logs[b]);
  }

  /**
   In every run each model on each backend has a batch, so what is sent to the backends passes the
   check for one.
   */
  lemma RunHasBatches(requests: seq<Request>, b: NodeId, i: nat)
    requires AllRegular(requests) && NetOf(requests).Some? && b in NetOf(requests).value.backends
    requires i < |NetOf(requests).value.backends[b].gpu.models|
    ensures NetOf(requests).value.backends[b].gpu.models[i].batch >= 1
  {
    RunIsLogged(requests, b);
    var net := NetOf(requests).value;
    hide AllRegular, NetOf, FitsAll, RunOf, Sound, Checkable;
    RunIsGood(net.backends[b].profiles, net.logs[b]);
    assert Served(net.backends[b].profiles, net.backends[b].gpu.models[i]);
  }

  // The hash tables are walked in full.
  ghost predicate Walks(net: Net, e: Request) {
    && Lists(e.orders.nodes, net.backends.Keys + (if e.Joins? then {e.node} else {}))
    && Lists(e.orders.sessions, net.table.Keys) && WalksRoutes(net.table, e.orders)
  }

  /** What a request brings about. */
  ghost predicate Answers(net: Net, e: Request, net': Net) {
    match e
    case Joins(b, profiles, _) =>
      && b !in net.backends
      && AllPlaced(
           net.(backends := net.backends[b := Backend(profiles, Gpu([], 0.0, 0.0, false))], logs := net.logs[b := []]),
           net')
    case Loads(s, w, _) =>
      exists ok {:trigger LoadsAs(net, s, w, Reply(net', ok))} :: LoadsAs(net, s, w, Reply(net', ok))
    case EpochEnds(rates, orders) =>
      exists flows, f, nets, spilled {:trigger EpochOf(net, rates, orders.sessions, flows, f, nets, spilled, net')} ::
        EpochOf(net, rates, orders.sessions, flows, f, nets, spilled, net')
  }

  lemma NextAnswers(net: Net, e: Request)
    requires Sane(net) && Regular(e) && Walks(net, e) && NextNet(net, e).Some?
    ensures Answers(net, e, NextNet(net, e).value)
  {
    hide Sane, Proper, FitsAll, Register, LoadModel, Epoch, AllPlaced, LoadsAs, EpochOf, Lists, WalksRoutes;
    match e
    case Joins(b, profiles, orders) => RegisterPlaces(net, orders, b, profiles);
    case Loads(s, w, orders) =>
      assert net.backends.Keys + {} == net.backends.Keys;
      LoadModelIs(net, orders.nodes, s, w);
      var r := LoadModel(net, orders.nodes, s, w).value;
      assert LoadsAs(net, s, w, Reply(r.net, r.ok));
    case EpochEnds(rates, orders) =>
      assert net.backends.Keys + {} == net.backends.Keys;
      EpochIs(net, orders, rates);
  }

  /**
   In every run each request is answered as it should be: unassigned rates are placed greedily when a backend
   joins or an epoch ends, and a new session is loaded on just enough backends.
   */
  lemma RunAnswers(requests: seq<Request>)
    requires requests != [] && AllRegular(requests) && NetOf(requests).Some?
    requires Walks(NetOf(requests[..|requests| - 1]).value, requests[|requests| - 1])
    ensures Answers(NetOf(requests[..|requests| - 1]).value, requests[|requests| - 1], NetOf(requests).value)
  {
    hide Sane, NextNet, Regular, Answers, Walks;
    FirstRegular(requests);
    RunIsSane(requests[..|requests| - 1]);
    NextAnswers(NetOf(requests[..|requests| - 1]).value, requests[|requests| - 1]);
  }
}
