/** How the epoch scheduler places sessions on backends and moves them as their rates change. */
module Placement {
  import opened Wrappers
  import opened DutyCycles
  import opened BackendDelegates
  import opened Routing
  import opened Orderings

  const SMALL := 0.001

  /** A backend: the profiles for its kind of GPU, and what runs on it. */
  datatype Backend = Backend(profiles: Profiles, gpu: Gpu)

  type Backends = map<NodeId, Backend>

  /** What each backend has been told to do, in order. */
  type Logs = map<NodeId, seq<Event>>

  /** All that the scheduler knows, and what it has done to each backend. */
  datatype Net = Net(backends: Backends, table: Table, logs: Logs)

  function Noted(logs: Logs, b: NodeId, e: Event): Logs {
    logs[b := if b in logs then logs[b] + [e] else [e]]
  }

  // A backend does what it is told.
  function Told(net: Net, b: NodeId, g: Gpu, e: Event, table: Table): Net
    requires b in net.backends
  {
    Net(net.backends[b := net.backends[b].(gpu := g)], table, Noted(net.logs, b, e))
  }

  /** The orders in which the hash tables are walked: the backends, the sessions and each session's route. */
  datatype Orders = Orders(nodes: seq<NodeId>, sessions: seq<Session>, routes: map<Session, seq<NodeId>>)

  /** A backend that could take a session, how, and at what rate it was asked to. */
  datatype Candidate = Candidate(node: NodeId, inst: Instance, occupancy: real, rate: real)

  function Abs(x: real): real {
    if x < 0.0 then -x else x
  }

  // What a backend answers when it is asked to take a session; next to no work goes to idle backends only.
  function Answer(backends: Backends, b: NodeId, s: Session, rate: real, skips: set<NodeId>): Prepared {
    if b !in backends || b in skips || (Abs(rate) < SMALL && backends[b].gpu.exec != 0.0) then Refused
    else Prepare(backends[b].profiles, backends[b].gpu, s, rate)
  }

  // What the backends offer, or None if one of the computations ends the process.
  function Offers(backends: Backends, nodes: seq<NodeId>, s: Session, rate: real, skips: set<NodeId>)
    : Option<seq<Candidate>>
  {
    if nodes == [] then Some([])
    else
      var n := |nodes| - 1;
      match Offers(backends, nodes[..n], s, rate, skips)
      case None => None
      case Some(before) =>
        match Answer(backends, nodes[n], s, rate, skips)
        case Died => None
        case Refused => Some(before)
        case Ready(inst, occupancy) => Some(before + [Candidate(nodes[n], inst, occupancy, rate)])
  }

  function Score(c: Candidate, byThroughput: bool): real {
    if byThroughput then c.inst.throughput else c.occupancy
  }

  // The first of the best.
  function BestBy(offers: seq<Candidate>, byThroughput: bool): (r: Candidate)
    requires offers != []
    ensures r in offers
  {
    var n := |offers| - 1;
    if n == 0 then offers[0]
    else
      var best := BestBy(offers[..n], byThroughput);
      if Score(offers[n], byThroughput) > Score(best, byThroughput) then offers[n] else best
  }

  datatype Choice = Died | NoBackend | Best(candidate: Candidate)

  /**
   The candidate with the highest throughput if the rate is negligible or nobody
   can serve all of it, else the one with the highest occupancy.
   */
  function BestBackend(backends: Backends, nodes: seq<NodeId>, s: Session, rate: real, skips: set<NodeId>): Choice {
    match Offers(backends, nodes, s, rate, skips)
    case None => Choice.Died
    case Some(offers) =>
      if offers == [] then NoBackend
      else
        var fastest := BestBy(offers, true);
        Best(if Abs(rate) < SMALL || fastest.inst.throughput < rate then fastest else BestBy(offers, false))
  }

  // A backend's offer, as a candidate.
  ghost predicate Offered(backends: Backends, s: Session, rate: real, skips: set<NodeId>, c: Candidate) {
    c.rate == rate && Answer(backends, c.node, s, rate, skips) == Ready(c.inst, c.occupancy)
  }

  lemma {:induction false} OffersAre(backends: Backends, nodes: seq<NodeId>, s: Session, rate: real, skips: set<NodeId>)
    ensures Offers(backends, nodes, s, rate, skips) == None <==>
      exists b {:trigger b in nodes} :: b in nodes && Answer(backends, b, s, rate, skips).Died?
    ensures Offers(backends, nodes, s, rate, skips).Some? ==>
      forall c {:trigger c in Offers(backends, nodes, s, rate, skips).value} ::
        c in Offers(backends, nodes, s, rate, skips).value <==> c.node in nodes && Offered(backends, s, rate, skips, c)
  {
    hide Answer;
    if nodes != [] {
      var n := |nodes| - 1;
      OffersAre(backends, nodes[..n], s, rate, skips);
      assert nodes == nodes[..n] + [nodes[n]];
      assert nodes[n] in nodes;
      var before := Offers(backends, nodes[..n], s, rate, skips);
      if before == None {
        var b :| b in nodes[..n] && Answer(backends, b, s, rate, skips).Died?;
        assert b in nodes;
      }
    }
  }

  lemma {:induction false} BestByIsBest(offers: seq<Candidate>, byThroughput: bool)
    requires offers != []
    ensures forall c {:trigger c in offers} | c in offers ::
      Score(c, byThroughput) <= Score(BestBy(offers, byThroughput), byThroughput)
  {
    var n := |offers| - 1;
    if n > 0 {
      BestByIsBest(offers[..n], byThroughput);
      assert offers == offers[..n] + [offers[n]];
    }
  }

  // Nobody can serve the rate, or there is next to none.
  ghost predicate Hopeless(backends: Backends, s: Session, rate: real, skips: set<NodeId>) {
    -0.001 < rate < 0.001 || forall c {:trigger Offered(backends, s, rate, skips, c)} ::
      Offered(backends, s, rate, skips, c) ==> c.inst.throughput < rate
  }

  // The candidate is offered, and no offer of any backend beats it.
  ghost predicate Unbeaten(backends: Backends, s: Session, rate: real, skips: set<NodeId>, best: Candidate) {
    && Offered(backends, s, rate, skips, best)
    && forall c {:trigger Offered(backends, s, rate, skips, c)} :: Offered(backends, s, rate, skips, c) ==>
         if Hopeless(backends, s, rate, skips) then c.inst.throughput <= best.inst.throughput
         else c.occupancy <= best.occupancy
  }

  /**
   The choice among all backends that are not skipped: none exactly if nobody offers anything,
   otherwise an offer that no other beats, by throughput if nobody can serve the rate and by
   occupancy if somebody can.
   */
  lemma BestIsUnbeaten(backends: Backends, nodes: seq<NodeId>, s: Session, rate: real, skips: set<NodeId>)
    requires Lists(nodes, backends.Keys)
    ensures var r := BestBackend(backends, nodes, s, rate, skips);
      && (r.Died? <==> exists b {:trigger b in backends} :: b in backends && Answer(backends, b, s, rate, skips).Died?)
      && (!r.Died? ==>
            (r.NoBackend? <==>
               !exists c {:trigger Offered(backends, s, rate, skips, c)} :: Offered(backends, s, rate, skips, c)))
      && (r.Best? ==> Unbeaten(backends, s, rate, skips, r.candidate))
  {
    OffersAre(backends, nodes, s, rate, skips);
    var o := Offers(backends, nodes, s, rate, skips);
    if o.Some? {
      var offers := o.value;
      AllOffers(backends, nodes, s, rate, skips, offers);
      if offers != [] {
        assert Offered(backends, s, rate, skips, offers[0]);
        ChosenIsUnbeaten(backends, s, rate, skips, offers);
      }
    }
    hide Answer, Offers, NoRepeats, Offered, Unbeaten, BestBy;
  }

  // What is offered, by anybody.
  ghost predicate Everything(backends: Backends, s: Session, rate: real, skips: set<NodeId>, offers: seq<Candidate>) {
    forall c {:trigger Offered(backends, s, rate, skips, c)} {:trigger c in offers} ::
      c in offers <==> Offered(backends, s, rate, skips, c)
  }

  lemma AllOffers(
    backends: Backends, nodes: seq<NodeId>, s: Session, rate: real, skips: set<NodeId>, offers: seq<Candidate>)
    requires Lists(nodes, backends.Keys) && Offers(backends, nodes, s, rate, skips) == Some(offers)
    ensures Everything(backends, s, rate, skips, offers)
  {
    OffersAre(backends, nodes, s, rate, skips);
    OfferedIsListed(backends, s, rate, skips);
    hide Answer, Offers, NoRepeats, Offered;
    forall c ensures c in offers <==> Offered(backends, s, rate, skips, c) {
      assert c in Offers(backends, nodes, s, rate, skips).value <==>
        c.node in nodes && Offered(backends, s, rate, skips, c);
    }
  }

  lemma ChosenIsUnbeaten(backends: Backends, s: Session, rate: real, skips: set<NodeId>, offers: seq<Candidate>)
    requires offers != [] && Everything(backends, s, rate, skips, offers)
    ensures var fastest := BestBy(offers, true);
      Unbeaten(backends, s, rate, skips,
        if Abs(rate) < SMALL || fastest.inst.throughput < rate then fastest else BestBy(offers, false))
  {
    BestByIsBest(offers, true);
    BestByIsBest(offers, false);
    var fastest := BestBy(offers, true);
    hide BestBy, Offered;
    assert fastest in offers;
    assert Hopeless(backends, s, rate, skips) <==> Abs(rate) < SMALL || fastest.inst.throughput < rate;
  }

  lemma OfferedIsListed(backends: Backends, s: Session, rate: real, skips: set<NodeId>)
    ensures forall c {:trigger Offered(backends, s, rate, skips, c)} ::
      Offered(backends, s, rate, skips, c) ==> c.node in backends
  {
  }

  lemma ReadySession(profiles: Profiles, g: Gpu, s: Session, workload: real)
    ensures var r := Prepare(profiles, g, s, workload);
      r.Ready? ==> r.inst.session == s && s in profiles && s !in SessionsOf(g.models)
  {
    if s in profiles {
      ComputedSession(Blank(s, profiles[s]), workload);
    }
    hide ComputedFor, CycleOf;
  }

  // The choice is a backend that is not skipped and does not have the session.
  lemma BestIsNew(backends: Backends, nodes: seq<NodeId>, s: Session, rate: real, skips: set<NodeId>)
    ensures var r := BestBackend(backends, nodes, s, rate, skips);
      r.Best? ==>
        && Offered(backends, s, rate, skips, r.candidate)
        && r.candidate.node in backends && r.candidate.node !in skips && r.candidate.inst.session == s
        && s !in SessionsOf(backends[r.candidate.node].gpu.models)
  {
    OffersAre(backends, nodes, s, rate, skips);
    var r := BestBackend(backends, nodes, s, rate, skips);
    if r.Best? {
      var b := r.candidate.node;
      assert Offered(backends, s, rate, skips, r.candidate);
      ReadySession(backends[b].profiles, backends[b].gpu, s, rate);
    }
    hide Offers, BestBy, Prepare;
  }

  // A session goes on a backend; a route has each backend once.
  function LoadOn(net: Net, s: Session, c: Candidate): Option<Net> {
    if c.node !in net.backends || s !in net.table then None
    else
      var b := net.backends[c.node];
      match Loaded(b.gpu, c.inst)
      case None => None
      case Some(g) =>
        var table := if c.node in net.table[s].weights then net.table
                     else SetWeight(net.table, s, c.node, c.inst.throughput);
        Some(Told(net, c.node, g, Load(s, c.rate), table))
  }

  datatype Picked = PickDied | TooFew | Picked(chosen: seq<Candidate>)

  // Backends that together serve a rate.
  function Pick(backends: Backends, nodes: seq<NodeId>, s: Session, rate: real, used: set<NodeId>): Picked
    decreases |backends.Keys - used|
  {
    if rate <= SMALL then Picked([])
    else
      match BestBackend(backends, nodes, s, rate, used)
      case Died => PickDied
      case NoBackend => TooFew
      case Best(c) =>
        BestIsNew(backends, nodes, s, rate, used);
        Shrinks(backends.Keys, used, c.node);
        match Pick(backends, nodes, s, rate - c.inst.throughput, used + {c.node})
        case Picked(more) => Picked([c] + more)
        case other => other
  }

  function PickFor(backends: Backends, nodes: seq<NodeId>, s: Session, workload: real): Picked {
    if workload != 0.0 then Pick(backends, nodes, s, workload, {})
    else
      match BestBackend(backends, nodes, s, workload, {})
      case Died => PickDied
      case NoBackend => TooFew
      case Best(c) => Picked([c])
  }

  lemma Shrinks<T>(all: set<T>, used: set<T>, x: T)
    requires x in all && x !in used
    ensures |all - (used + {x})| < |all - used|
  {
    assert all - used == all - (used + {x}) + {x};
  }

  function LoadAll(net: Net, s: Session, chosen: seq<Candidate>): Option<Net> {
    if chosen == [] then Some(net)
    else
      match LoadAll(net, s, chosen[..|chosen| - 1])
      case None => None
      case Some(before) => LoadOn(before, s, chosen[|chosen| - 1])
  }

  datatype Reply = Reply(net: Net, ok: bool)

  /** A new session is loaded on backends enough for its workload, or on none. */
  function LoadModel(net: Net, nodes: seq<NodeId>, s: Session, workload: real): Option<Reply> {
    if s in net.table then Some(Reply(net, true))
    else
      match PickFor(net.backends, nodes, s, workload)
      case PickDied => None
      case TooFew => Some(Reply(net, false))
      case Picked(chosen) =>
        match LoadAll(net.(table := net.table[s := SessionInfo(map[], 0.0)]), s, chosen)
        case None => None
        case Some(net') => Some(Reply(net', true))
  }

  // The backends that a session could still go on.
  function Lacking(backends: Backends, s: Session): set<NodeId> {
    set b | b in backends && s !in SessionsOf(backends[b].gpu.models)
  }

  lemma LoadedSessions(g: Gpu, m: Instance)
    ensures Loaded(g, m).Some? ==> SessionsOf(Loaded(g, m).value.models) == SessionsOf(g.models) + {m.session}
  {
    SessionsMore(g.models, m);
    RefreshedSessions(g.models + [m]);
    hide Refreshed, SessionsOf;
  }

  lemma RefreshedSessions(models: seq<Instance>)
    ensures Refreshed(models).Some? ==> SessionsOf(Refreshed(models).value.models) == SessionsOf(models)
  {
    if Refreshed(models).Some? {
      SameSessions(models, Refreshed(models).value.models);
      hide Unshared, SessionsOf;
    }
  }

  lemma LackingShrinks(net: Net, s: Session, c: Candidate)
    requires c.node in Lacking(net.backends, s) && c.inst.session == s && LoadOn(net, s, c).Some?
    ensures |Lacking(LoadOn(net, s, c).value.backends, s)| < |Lacking(net.backends, s)|
  {
    LoadedSessions(net.backends[c.node].gpu, c.inst);
    hide Loaded, SessionsOf;
    assert Lacking(net.backends, s) == Lacking(LoadOn(net, s, c).value.backends, s) + {c.node};
  }

  datatype Placed = Placed(net: Net, rate: real, placed: seq<Candidate>)

  // The session goes on one backend after the other until its rate is served or no backend is left.
  function PlaceAll(net: Net, nodes: seq<NodeId>, s: Session, rate: real): Option<Placed>
    decreases |Lacking(net.backends, s)|
  {
    if rate <= SMALL then Some(Placed(net, rate, []))
    else
      match BestBackend(net.backends, nodes, s, rate, {})
      case Died => None
      case NoBackend => Some(Placed(net, rate, []))
      case Best(c) =>
        BestIsNew(net.backends, nodes, s, rate, {});
        match LoadOn(net, s, c)
        case None => None
        case Some(net') =>
          LackingShrinks(net, s, c);
          match PlaceAll(net', nodes, s, rate - c.inst.throughput)
          case None => None
          case Some(p) => Some(p.(placed := [c] + p.placed))
  }

  // A rate of next to nothing is nothing.
  function Clipped(rate: real): real {
    if rate < SMALL then 0.0 else rate
  }

  function SetRate(net: Net, s: Session, rate: real): Net {
    if s in net.table then net.(table := SetUnassigned(net.table, s, rate)) else net
  }

  /** What a session lacks is placed as far as it goes; the rest stays unassigned. */
  function AllocateFor(net: Net, nodes: seq<NodeId>, s: Session): Option<Net> {
    if s !in net.table then None
    else
      match PlaceAll(net, nodes, s, net.table[s].unassigned)
      case None => None
      case Some(p) => Some(SetRate(p.net, s, Clipped(p.rate)))
  }

  function AllocateEach(net: Net, nodes: seq<NodeId>, sessions: seq<Session>): Option<Net> {
    if sessions == [] then Some(net)
    else
      match AllocateEach(net, nodes, sessions[..|sessions| - 1])
      case None => None
      case Some(before) => AllocateFor(before, nodes, sessions[|sessions| - 1])
  }

  // The sessions that lack something, the largest rates first.
  function Waiting(table: Table, sessions: seq<Session>): seq<Session> {
    var lacking := set s | s in table && table[s].unassigned > SMALL;
    SortDown(Listed(sessions, lacking), map s | s in table :: table[s].unassigned)
  }

  function Allocate(net: Net, orders: Orders): Option<Net> {
    AllocateEach(net, orders.nodes, Waiting(net.table, orders.sessions))
  }

  function UnloadFrom(net: Net, s: Session, b: NodeId): Option<Net> {
    if b !in net.backends || s !in net.table then None
    else
      match Unloaded(net.backends[b].gpu, s)
      case None => None
      case Some(g) => Some(Told(net, b, g, Unload(s), DropWeight(net.table, s, b)))
  }

  // A session's rates being adjusted: what is left to serve, and the backends found overloaded.
  datatype Flow = Flow(net: Net, rate: real, overloaded: seq<NodeId>)

  // A session's share on one backend follows its rate.
  function UpdateOn(f: Flow, s: Session, b: NodeId): Option<Flow> {
    if b !in f.net.backends || s !in f.net.table then None
    else
      match Updated(f.net.backends[b].gpu, s, f.rate)
      case None => None
      case Some(o) =>
        var net := Told(f.net, b, o.gpu, Update(s, f.rate), SetWeight(f.net.table, s, b, o.value));
        Some(f.(net := net, rate := f.rate - o.value))
  }

  function Leave(f: Flow, s: Session, b: NodeId): Option<Flow> {
    match UnloadFrom(f.net, s, b)
    case None => None
    case Some(net) => Some(f.(net := net))
  }

  // With less work: a backend is released if nothing is left for it, or slowed down to what is.
  function ShrinkOn(f: Flow, s: Session, b: NodeId, weight: real): Option<Flow> {
    if f.rate < SMALL then Leave(f, s, b)
    else if weight > f.rate then UpdateOn(f, s, b)
    else Some(f.(rate := f.rate - weight))
  }

  // With more work: each backend takes what it can, and is noted if that is too much.
  function GrowOn(f: Flow, s: Session, b: NodeId): Option<Flow> {
    if f.rate < SMALL then Leave(f, s, b)
    else
      match UpdateOn(f, s, b)
      case None => None
      case Some(f') =>
        if b in f'.net.backends && f'.net.backends[b].gpu.overload && Occupancy(f'.net.backends[b].gpu) > 1.05
        then Some(f'.(overloaded := f'.overloaded + [b]))
        else Some(f')
  }

  function ShrinkAll(f: Flow, s: Session, order: seq<NodeId>, weights: map<NodeId, real>): Option<Flow> {
    if order == [] then Some(f)
    else
      match ShrinkAll(f, s, order[..|order| - 1], weights)
      case None => None
      case Some(f') => ShrinkOn(f', s, order[|order| - 1], At(weights, order[|order| - 1]))
  }

  function GrowAll(f: Flow, s: Session, order: seq<NodeId>): Option<Flow> {
    if order == [] then Some(f)
    else
      match GrowAll(f, s, order[..|order| - 1])
      case None => None
      case Some(f') => GrowOn(f', s, order[|order| - 1])
  }

  // What the backends in a list serve of a session.
  function Total(weights: map<NodeId, real>, order: seq<NodeId>): real {
    if order == [] then 0.0 else Total(weights, order[..|order| - 1]) + At(weights, order[|order| - 1])
  }

  function Larger(x: real, y: real): real {
    if x < y then y else x
  }

  function RouteOf(orders: Orders, s: Session): seq<NodeId> {
    if s in orders.routes then orders.routes[s] else []
  }

  /** A session's backends follow its estimated rate, those with the most weight first. */
  function Adjust(f: Flow, s: Session, route: seq<NodeId>, estimate: real): Option<Flow> {
    if s !in f.net.table then Some(f)
    else
      var weights := f.net.table[s].weights;
      var total := Total(weights, route);
      var order := SortDown(Listed(route, weights.Keys), weights);
      var f' := f.(net := SetRate(f.net, s, Larger(0.0, estimate - total)), rate := estimate);
      if estimate < total * 0.97 then ShrinkAll(f', s, order, weights)
      else if estimate <= total then Some(f')
      else
        match GrowAll(f', s, order)
        case None => None
        case Some(g) => Some(g.(net := SetRate(g.net, s, if g.rate > SMALL then g.rate else 0.0)))
  }

  const LEAST_RATE := 0.1

  function AdjustEach(f: Flow, orders: Orders, rates: map<Session, real>, sessions: seq<Session>): Option<Flow> {
    if sessions == [] then Some(f)
    else
      var s := sessions[|sessions| - 1];
      match AdjustEach(f, orders, rates, sessions[..|sessions| - 1])
      case None => None
      case Some(f') =>
        if s in rates then Adjust(f', s, RouteOf(orders, s), Larger(rates[s], LEAST_RATE)) else Some(f')
  }

  // Spilled sessions leave the backend's routes and have their workloads unassigned.
  function DropAll(table: Table, b: NodeId, spill: Spill): Option<Table> {
    if spill == [] then Some(table)
    else
      var last := spill[|spill| - 1];
      match DropAll(table, b, spill[..|spill| - 1])
      case None => None
      case Some(t) =>
        if last.0 !in t then None
        else Some(SetUnassigned(DropWeight(t, last.0, b), last.0, t[last.0].unassigned + last.1))
  }

  /** What an overloaded backend gives up leaves its route and is unassigned again. */
  function SpillFrom(net: Net, b: NodeId): Option<Net> {
    if b !in net.backends then None
    else
      match SpilledOut(net.backends[b].profiles, net.backends[b].gpu)
      case None => None
      case Some(o) =>
        match DropAll(net.table, b, o.value)
        case None => None
        case Some(table) => Some(Told(net, b, o.gpu, Rebuild, table))
  }

  function SpillEach(net: Net, nodes: seq<NodeId>): Option<Net> {
    if nodes == [] then Some(net)
    else
      match SpillEach(net, nodes[..|nodes| - 1])
      case None => None
      case Some(before) => SpillFrom(before, nodes[|nodes| - 1])
  }

  /**
   One epoch: sessions with a rate estimate are adjusted, overloaded backends spill,
   and what is unassigned is placed.
   */
  function Epoch(net: Net, orders: Orders, rates: map<Session, real>): Option<Net> {
    match AdjustEach(Flow(net, 0.0, []), orders, rates, orders.sessions)
    case None => None
    case Some(f) =>
      match SpillEach(f.net, f.overloaded)
      case None => None
      case Some(spilled) => Allocate(spilled, orders)
  }

  /** A backend joins; a number already taken is a fatal error. Unassigned rates may go to it at once. */
  function Register(net: Net, orders: Orders, b: NodeId, profiles: Profiles): Option<Net> {
    if b in net.backends then None
    else Allocate(net.(backends := net.backends[b := Backend(profiles, IDLE)], logs := net.logs[b := []]), orders)
  }
}
