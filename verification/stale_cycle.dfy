/** A run in which an update that leaves the cycle alone makes a model miss its objective. */
module StaleCycle {
  import opened Wrappers
  import opened ModelProfiles
  import opened DutyCycles
  import opened BackendDelegates

  const NONE := Entry(0.0, 0.0)

  // Batches of one take 0.1 ms, batches of two 400 ms; the objective is one second.
  const SLOW := Session(0, 1000)
  const SLOW_PROFILE := Profile([NONE, Entry(100.0, 0.0), Entry(400000.0, 0.0)], NONE, NONE)

  // Batches of one take 0.1 ms; the objective is one second.
  const QUICK := Session(1, 1000)
  const QUICK_PROFILE := Profile([NONE, Entry(100.0, 0.0)], NONE, NONE)

  const PROFILES: Profiles := map[SLOW := SLOW_PROFILE, QUICK := QUICK_PROFILE]

  // Four requests a second for the one, one for the other; then the first leaves and the second asks for four.
  const EVENTS := [Load(QUICK, 4.0), Load(SLOW, 1.0), Unload(QUICK), Update(SLOW, 4.0)]

  const QUICK_LOADED := Instance(QUICK, QUICK_PROFILE, 1, 1, 100.0, 250000.0, 4.0, 4.0)
  const SLOW_LOADED := Instance(SLOW, SLOW_PROFILE, 1, 2, 100.0, 999900.0, 1.0, 4.0)
  const SLOW_UPDATED := Instance(SLOW, SLOW_PROFILE, 2, 2, 400000.0, 500000.0, 4.0, 4.0)

  lemma AllFit()
    ensures FitsAll(PROFILES)
  {
    assert SLOW_PROFILE.Forward(1) == QUICK_PROFILE.Forward(1) == 100.0 && SLOW_PROFILE.Forward(2) == 400000.0;
    assert Overhead(SLOW_PROFILE) == Overhead(QUICK_PROFILE) == 0.0;
    assert SLOW.SlaMicros() == QUICK.SlaMicros() == 1000000.0;
  }

  lemma MaxBatches()
    ensures MaxBatchFor(SLOW_PROFILE, SLOW) == 2 && MaxBatchFor(QUICK_PROFILE, QUICK) == 1
  {
    assert NONE.Total() == 0.0;
    var b := FullBudget(SLOW_PROFILE, 1000.0) / 2.0;
    assert 400000.0 <= b == FullBudget(QUICK_PROFILE, 1000.0) / 2.0;
    assert SLOW_PROFILE.Forward(1) == QUICK_PROFILE.Forward(1) == 100.0 && SLOW_PROFILE.Forward(2) == 400000.0;
    assert FirstOver(SLOW_PROFILE, b, 3) == 3;
    assert FirstOver(SLOW_PROFILE, b, 2) == 3;
    assert FirstOver(QUICK_PROFILE, b, 2) == 2;
  }

  lemma QuickAlone()
    ensures ComputedFor(Blank(QUICK, QUICK_PROFILE), 4.0) == Computed(QUICK_LOADED)
  {
    MaxBatches();
    hide MaxBatchFor;
    var p := QUICK_PROFILE;
    assert p.Forward(1) == 100.0 && Overhead(p) == 0.0 && QUICK.SlaMicros() == 1000000.0;
    assert Throughput(1, 100.0) == 10000.0;
    assert InTime(p, QUICK, 4.0, 1);
    assert ResidueBatch(p, QUICK, 4.0, 1) == 1;
    assert 1 as real * MILLION / 4.0 == 250000.0;
    assert Throughput(1, 250000.0) == 4.0;
  }

  lemma SlowAlone(m: Instance)
    requires m.session == SLOW && m.profile == SLOW_PROFILE
    ensures ComputedFor(m, 4.0) == Computed(SLOW_UPDATED)
    ensures ComputedFor(m, 1.0) == Computed(SLOW_LOADED.(throughput := Throughput(1, 999900.0)))
  {
    MaxBatches();
    hide MaxBatchFor;
    var p := SLOW_PROFILE;
    assert p.Forward(1) == 100.0 && p.Forward(2) == 400000.0 && Overhead(p) == 0.0 && SLOW.SlaMicros() == 1000000.0;
    assert Throughput(2, 400000.0) == 5.0;
    assert MinDutyCycle(1, 4.0) == 0.0 && MinDutyCycle(2, 4.0) == 250000.0;
    assert MinDutyCycle(1, 1.0) == 0.0 && MinDutyCycle(2, 1.0) == 1000000.0;
    assert FirstLate(p, SLOW, 4.0, 2, 2) == 3;
    assert ResidueBatch(p, SLOW, 4.0, 2) == 2 && ResidueBatch(p, SLOW, 1.0, 2) == 1;
    assert 2 as real * MILLION / 4.0 == 500000.0 && Throughput(2, 500000.0) == 4.0;
    assert Throughput(1, 999900.0) > 1.0;
  }

  lemma Shares()
    ensures ShareOf(QUICK_LOADED, 250000.0) == Share(false, Change(1, 100.0))
    ensures ShareOf(SLOW_LOADED, 250000.0) == ShareOf(SLOW_LOADED, 999900.0) == Share(false, Change(1, 100.0))
  {
    assert Arrivals(250000.0, 4.0) == 1.0 && Arrivals(250000.0, 1.0) == 0.25 && Arrivals(999900.0, 1.0) == 0.9999;
    assert SLOW_PROFILE.Forward(1) == QUICK_PROFILE.Forward(1) == 100.0;
  }

  lemma Cycles()
    ensures CycleOf([QUICK_LOADED]) == Cycle(100.0, 250000.0, false, [Change(1, 100.0)])
    ensures CycleOf([SLOW_LOADED]) == Cycle(100.0, 999900.0, false, [Change(1, 100.0)])
  {
    Shares();
    hide ShareOf;
    SoloCycle(QUICK_LOADED, 250000.0);
    SoloCycle(SLOW_LOADED, 999900.0);
  }

  lemma MoreModels(models: seq<Instance>, m: Instance, d: real)
    ensures var before := DutyOf(models);
      DutyOf(models + [m]) == if before == 0.0 || m.maxDutyCycle < before then m.maxDutyCycle else before
    ensures ExecOf(models + [m], d) == ExecOf(models, d) + PassTime(m, d)
  {
    hide PassTime;
    assert (models + [m])[..|models|] == models;
  }

  // What a share means for one model.
  lemma ShareMeans(m: Instance, d: real)
    requires ShareOf(m, d) == Share(false, Change(1, 100.0))
    ensures UsedBatch(m, d) <= m.maxBatch && PassTime(m, d) == 100.0
  {
  }

  lemma SoloCycle(m: Instance, d: real)
    requires m.maxDutyCycle == d >= 100.0 && ShareOf(m, d) == Share(false, Change(1, 100.0))
    ensures CycleOf([m]) == Cycle(100.0, d, false, [Change(1, 100.0)])
  {
    ShareMeans(m, d);
    hide ShareOf, UsedBatch, PassTime;
    MoreModels([], m, d);
    assert [] + [m] == [m];
    assert DutyOf([m]) == d && ExecOf([m], d) == 100.0;
    hide DutyOf, ExecOf;
    assert ChangesOf([m], d) == [Change(1, 100.0)];
  }

  lemma PairCycle(n: Instance)
    requires SameTask(SLOW_LOADED, n)
    ensures CycleOf([QUICK_LOADED] + [n]) == Cycle(200.0, 250000.0, false, [Change(1, 100.0), Change(1, 100.0)])
  {
    Shares();
    SameShare(SLOW_LOADED, n, 250000.0);
    ShareMeans(n, 250000.0);
    ShareMeans(QUICK_LOADED, 250000.0);
    hide ShareOf, UsedBatch, PassTime;
    var s := [QUICK_LOADED] + [n];
    MoreModels([], QUICK_LOADED, 250000.0);
    assert [] + [QUICK_LOADED] == [QUICK_LOADED];
    MoreModels([QUICK_LOADED], n, 250000.0);
    assert DutyOf(s) == 250000.0 && ExecOf(s, 250000.0) == 200.0;
    hide DutyOf, ExecOf;
    assert ChangesOf(s, 250000.0) == [Change(1, 100.0), Change(1, 100.0)];
  }

  lemma FirstLoad()
    ensures Step(PROFILES, IDLE, EVENTS[0]) == Some(Gpu([QUICK_LOADED], 100.0, 250000.0, false))
  {
    QuickAlone();
    Cycles();
    hide CycleOf, ComputedFor;
    assert [] + [QUICK_LOADED] == [QUICK_LOADED];
    assert 100.0 / 250000.0 <= 1.0;
    assert Applied([QUICK_LOADED], [Change(1, 100.0)]) == [QUICK_LOADED];
  }

  lemma SecondLoad()
    ensures Step(PROFILES, Gpu([QUICK_LOADED], 100.0, 250000.0, false), EVENTS[1]) ==
      Some(Gpu([QUICK_LOADED, SLOW_LOADED], 200.0, 250000.0, false))
  {
    var g := Gpu([QUICK_LOADED], 100.0, 250000.0, false);
    var m := SLOW_LOADED.(throughput := Throughput(1, 999900.0));
    SlowAlone(Blank(SLOW, SLOW_PROFILE));
    SlowJoins(m);
    PairCycle(SLOW_LOADED);
    hide CycleOf, ComputedFor, Joining;
    assert Occupancy(g) == 100.0 / 250000.0 < 1.0;
    assert SessionsOf(g.models) == {QUICK} by { assert g.models[0].session == QUICK; }
    assert Applied([QUICK_LOADED] + [SLOW_LOADED], [Change(1, 100.0), Change(1, 100.0)]) == [QUICK_LOADED, SLOW_LOADED];
  }

  lemma SlowJoins(m: Instance)
    requires m == SLOW_LOADED.(throughput := Throughput(1, 999900.0))
    ensures Joining(Gpu([QUICK_LOADED], 100.0, 250000.0, false), m) == Ready(SLOW_LOADED, 200.0 / 250000.0)
  {
    PairCycle(m);
    hide CycleOf;
    assert Throughput(1, 250000.0) == 4.0;
    assert 200.0 / 250000.0 <= 1.0;
  }

  lemma TheUnload()
    ensures Step(PROFILES, Gpu([QUICK_LOADED, SLOW_LOADED], 200.0, 250000.0, false), EVENTS[2]) ==
      Some(Gpu([SLOW_LOADED], 100.0, 999900.0, false))
  {
    Cycles();
    hide CycleOf;
    var models := [QUICK_LOADED, SLOW_LOADED];
    assert models[0].session in SessionsOf(models);
    assert IndexOf(models, QUICK) == 0;
    assert Without(models, 0) == [SLOW_LOADED];
    assert Applied([SLOW_LOADED], [Change(1, 100.0)]) == [SLOW_LOADED];
  }

  lemma TheUpdate()
    ensures Step(PROFILES, Gpu([SLOW_LOADED], 100.0, 999900.0, false), EVENTS[3]) ==
      Some(Gpu([SLOW_UPDATED], 100.0, 999900.0, false))
  {
    SlowAlone(SLOW_LOADED);
    hide ComputedFor;
    var models := [SLOW_LOADED];
    assert models[0].session in SessionsOf(models);
    assert IndexOf(models, SLOW) == 0;
    assert models[0 := SLOW_UPDATED] == [SLOW_UPDATED];
  }

  // The backend after the first three events.
  lemma BeforeIsReached()
    ensures RunOf(PROFILES, EVENTS[..3]) == Some(Gpu([SLOW_LOADED], 100.0, 999900.0, false))
  {
    hide Step;
    FirstLoad();
    SecondLoad();
    TheUnload();
    assert RunOf(PROFILES, []) == Some(IDLE);
    assert EVENTS[..1][..0] == [] && EVENTS[..2][..1] == EVENTS[..1] && EVENTS[..3][..2] == EVENTS[..2];
    assert RunOf(PROFILES, EVENTS[..1]) == Some(Gpu([QUICK_LOADED], 100.0, 250000.0, false));
    assert RunOf(PROFILES, EVENTS[..2]) == Some(Gpu([QUICK_LOADED, SLOW_LOADED], 200.0, 250000.0, false));
  }

  lemma UpdatedIsLate()
    ensures !InObjective(SLOW_UPDATED, 999900.0)
  {
    var p := SLOW_PROFILE;
    assert p.Forward(2) == 400000.0 && Overhead(p) == 0.0;
  }

  /**
   Every profile fits its session, and still the run ends with a model whose cycle and forward
   pass take 1.4 seconds of an objective of one: the throughput recorded in a shorter cycle
   happens to match the new one.
   */
  lemma StaleCycleMissesObjective()
    ensures FitsAll(PROFILES) && RunOf(PROFILES, EVENTS) == Some(Gpu([SLOW_UPDATED], 100.0, 999900.0, false))
    ensures !InObjective(SLOW_UPDATED, 999900.0)
  {
    hide Step, InObjective, FitsAll;
    AllFit();
    BeforeIsReached();
    TheUpdate();
    UpdatedIsLate();
    assert EVENTS[..4] == EVENTS && EVENTS[..4][..3] == EVENTS[..3];
  }
}

/** The same through the epoch scheduler: the growth of a session's rate makes it miss its objective. */
module StaleEpoch {
  import opened Wrappers
  import opened ModelProfiles
  import opened DutyCycles
  import opened BackendDelegates
  import opened Routing
  import opened Orderings
  import opened Placement
  import opened PlacementSafety
  import opened StaleCycle

  const NODE: NodeId := 0

  // A little more than the throughput on record.
  const RATE := 4.0005

  const GROWN_CYCLE := 2.0 * MILLION / RATE
  const SLOW_GROWN := Instance(SLOW, SLOW_PROFILE, 2, 2, 400000.0, GROWN_CYCLE, RATE, RATE)

  // One backend, after the first three events; the session is routed to it with the throughput on record.
  const BEFORE := Gpu([SLOW_LOADED], 100.0, 999900.0, false)
  const ROUTES := Alone(SLOW, NODE, 4.0, 0.0)
  const NET := Net(map[NODE := Backend(PROFILES, BEFORE)], ROUTES, map[NODE := EVENTS[..3]])

  const AFTER := Gpu([SLOW_GROWN], 100.0, 999900.0, false)
  const ORDERS := Orders([NODE], [SLOW], map[SLOW := [NODE]])

  lemma HostsBefore()
    ensures HostsOf(NET.backends) == map[NODE := {SLOW}]
  {
    assert BEFORE.models[0].session == SLOW;
    assert SessionsOf(BEFORE.models) == {SLOW};
  }

  lemma BeforeIsSane()
    ensures Sane(NET)
  {
    AllFit();
    BeforeIsReached();
    hide RunOf, FitsAll, Good;
    RunIsGood(PROFILES, EVENTS[..3]);
    HostsBefore();
    hide HostsOf;
  }

  lemma GrownAlone(m: Instance)
    requires m.session == SLOW && m.profile == SLOW_PROFILE
    ensures ComputedFor(m, RATE) == Computed(SLOW_GROWN)
  {
    MaxBatches();
    hide MaxBatchFor;
    var p := SLOW_PROFILE;
    assert p.Forward(1) == 100.0 && p.Forward(2) == 400000.0 && Overhead(p) == 0.0 && SLOW.SlaMicros() == 1000000.0;
    assert Throughput(2, 400000.0) == 5.0;
    assert MinDutyCycle(1, RATE) == 0.0 && MinDutyCycle(2, RATE) < 250000.0;
    assert FirstLate(p, SLOW, RATE, 2, 2) == 3;
    assert ResidueBatch(p, SLOW, RATE, 2) == 2;
    assert 400000.0 < GROWN_CYCLE < 600000.0;
    assert Throughput(2, GROWN_CYCLE) == RATE;
  }

  lemma TheGrowth()
    ensures Updated(BEFORE, SLOW, RATE) == Some(Outcome(AFTER, RATE))
  {
    GrownAlone(SLOW_LOADED);
    hide ComputedFor;
    assert BEFORE.models[0].session in SessionsOf(BEFORE.models);
    assert IndexOf(BEFORE.models, SLOW) == 0;
    assert !Moved(4.0, RATE);
    assert BEFORE.models[0 := SLOW_GROWN] == [SLOW_GROWN];
  }

  lemma GrownIsLate()
    ensures !InObjective(SLOW_GROWN, 999900.0)
  {
    var p := SLOW_PROFILE;
    assert p.Forward(2) == 400000.0 && Overhead(p) == 0.0;
  }

  lemma OneBackend(weights: map<NodeId, real>, b: NodeId, w: real)
    requires weights == map[b := w]
    ensures Total(weights, [b]) == w && SortDown(Listed([b], weights.Keys), weights) == [b]
  {
    assert [b][..0] == [];
    assert Listed([b], weights.Keys) == [b];
  }

  // The table of a session that has one backend.
  function Alone(s: Session, b: NodeId, w: real, lacks: real): Table {
    map[s := SessionInfo(map[b := w], lacks)]
  }

  lemma AloneMoves(s: Session, b: NodeId, w: real, lacks: real, w': real, lacks': real)
    ensures SetWeight(Alone(s, b, w, lacks), s, b, w') == Alone(s, b, w', lacks)
    ensures SetUnassigned(Alone(s, b, w, lacks), s, lacks') == Alone(s, b, w, lacks')
  {
    assert map[b := w][b := w'] == map[b := w'];
  }

  // When the only backend of a session takes all of a larger rate.
  lemma AloneGrows(net: Net, s: Session, b: NodeId, w: real, lacks: real, g: Gpu, rate: real)
    requires net.table == Alone(s, b, w, lacks) && b in net.backends && w < rate && SMALL <= rate
    requires Updated(net.backends[b].gpu, s, rate) == Some(Outcome(g, rate)) && !g.overload
    ensures Adjust(Flow(net, 0.0, []), s, [b], rate) ==
      Some(Flow(Told(net, b, g, Update(s, rate), Alone(s, b, rate, 0.0)), 0.0, []))
  {
    hide Updated, SortDown, Listed, Total, Noted, Occupancy;
    OneBackend(net.table[s].weights, b, w);
    AloneMoves(s, b, w, lacks, rate, rate - w);
    AloneMoves(s, b, w, rate - w, rate, 0.0);
    AloneMoves(s, b, rate, rate - w, rate, 0.0);
    hide Alone, SetWeight, SetUnassigned;
    var f := Flow(net.(table := Alone(s, b, w, rate - w)), rate, []);
    var f' := Flow(Told(net, b, g, Update(s, rate), Alone(s, b, rate, rate - w)), 0.0, []);
    AloneUpdates(f, s, b, w, rate - w, g);
    hide UpdateOn;
    assert [b][..0] == [];
    assert GrowAll(f, s, []) == Some(f);
    assert GrowAll(f, s, [b]) == Some(f');
  }

  lemma AloneUpdates(f: Flow, s: Session, b: NodeId, w: real, lacks: real, g: Gpu)
    requires f.net.table == Alone(s, b, w, lacks) && b in f.net.backends
    requires Updated(f.net.backends[b].gpu, s, f.rate) == Some(Outcome(g, f.rate))
    ensures UpdateOn(f, s, b) ==
      Some(f.(net := Told(f.net, b, g, Update(s, f.rate), Alone(s, b, f.rate, lacks)), rate := 0.0))
  {
    hide Updated;
    AloneMoves(s, b, w, lacks, f.rate, 0.0);
  }

  const GROWN_ROUTES := Alone(SLOW, NODE, RATE, 0.0)
  const GROWN_NET := Net(map[NODE := Backend(PROFILES, AFTER)], GROWN_ROUTES,
    map[NODE := EVENTS[..3] + [Update(SLOW, RATE)]])

  lemma TheAdjustment()
    ensures Adjust(Flow(NET, 0.0, []), SLOW, [NODE], RATE) == Some(Flow(GROWN_NET, 0.0, []))
  {
    TheGrowth();
    hide Updated;
    AloneGrows(NET, SLOW, NODE, 4.0, 0.0, AFTER, RATE);
    hide Adjust;
    assert Noted(NET.logs, NODE, Update(SLOW, RATE)) == GROWN_NET.logs;
    assert NET.backends[NODE := Backend(PROFILES, AFTER)] == GROWN_NET.backends;
  }

  lemma NobodyWaits()
    ensures Allocate(GROWN_NET, ORDERS) == Some(GROWN_NET)
  {
    var lacking := set s | s in GROWN_ROUTES && GROWN_ROUTES[s].unassigned > SMALL;
    assert lacking == {};
    assert [SLOW][..0] == [];
    assert Listed([SLOW], lacking) == [];
    assert Waiting(GROWN_ROUTES, [SLOW]) == [];
  }

  /** From a net in order, an epoch in which a rate grows a little leaves a model that misses its objective. */
  lemma GrowthMissesObjective()
    ensures Sane(NET) && Epoch(NET, ORDERS, map[SLOW := RATE]) == Some(GROWN_NET)
    ensures GROWN_NET.backends[NODE].gpu.models == [SLOW_GROWN]
    ensures !InObjective(SLOW_GROWN, GROWN_NET.backends[NODE].gpu.duty)
  {
    hide Sane, Adjust, Allocate, InObjective;
    BeforeIsSane();
    TheAdjustment();
    NobodyWaits();
    GrownIsLate();
    var f := Flow(NET, 0.0, []);
    assert Larger(RATE, LEAST_RATE) == RATE && RouteOf(ORDERS, SLOW) == [NODE];
    assert [SLOW][..0] == [];
    assert AdjustEach(f, ORDERS, map[SLOW := RATE], []) == Some(f);
    assert AdjustEach(f, ORDERS, map[SLOW := RATE], [SLOW]) == Some(Flow(GROWN_NET, 0.0, []));
    assert SpillEach(GROWN_NET, []) == Some(GROWN_NET);
  }
}
