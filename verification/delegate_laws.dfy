/** What each operation of a backend does, said outright. */
module DelegateLaws {
  import opened Wrappers
  import opened ModelProfiles
  import opened DutyCycles
  import opened DutyLaws
  import opened BackendDelegates

  // One model in a cycle: the batch for it, and how long that takes.
  ghost predicate CycledOne(m: Instance, n: Instance, duty: real) {
    && n == m.(batch := n.batch, fwdLatency := n.fwdLatency) && m.profile.Covers(n.batch)
    && LeastBatch(duty * m.workload / 1000000.0, 0.001, n.batch) && n.fwdLatency == m.profile.Forward(n.batch)
  }

  // How long the models run, one after the other.
  ghost function RunTime(models: seq<Instance>): real {
    if models == [] then 0.0 else RunTime(models[..|models| - 1]) + models[|models| - 1].fwdLatency
  }

  /** Some models in their common cycle, the shortest of theirs; too long a run is an overload. */
  ghost predicate Cycled(models: seq<Instance>, g: Gpu) {
    && |g.models| == |models|
    && (forall i {:trigger g.models[i]} {:trigger models[i]} | 0 <= i < |models| ::
          CycledOne(models[i], g.models[i], g.duty))
    && (if models == [] then g.duty == 0.0 else ShortestCycle(models, g.duty))
    && g.exec == RunTime(g.models) && g.overload == (g.exec > g.duty)
  }

  lemma {:induction false} RunTimeIs(models: seq<Instance>, applied: seq<Instance>, duty: real)
    requires |applied| == |models| && forall i {:trigger applied[i]} | 0 <= i < |models| ::
      applied[i].fwdLatency == PassTime(models[i], duty)
    ensures RunTime(applied) == ExecOf(models, duty)
  {
    hide PassTime;
    if models != [] {
      var n := |models| - 1;
      assert applied[n].fwdLatency == PassTime(models[n], duty);
      forall i | 0 <= i < n ensures applied[..n][i].fwdLatency == PassTime(models[..n][i], duty) {
        assert applied[..n][i] == applied[i];
      }
      RunTimeIs(models[..n], applied[..n], duty);
    }
  }

  lemma CurrentCycled(m: Instance, n: Instance, duty: real)
    requires Current(n, duty) && n == m.(batch := n.batch, fwdLatency := n.fwdLatency)
    ensures CycledOne(m, n, duty)
  {
    SoundShares(n, duty);
    UsedBatchIff(n, duty, n.batch);
    hide UsedBatch, ShareOf;
  }

  lemma AppliedOnly(models: seq<Instance>, i: nat)
    requires Refreshed(models).Some? && i < |models|
    ensures var g := Refreshed(models).value;
      && |g.models| == |models| && var n := g.models[i]; n == models[i].(batch := n.batch, fwdLatency := n.fwdLatency)
  {
    CycleHasChanges(models);
    hide CycleOf;
  }

  /** The models are brought into their common cycle. */
  lemma RefreshedIs(profiles: Profiles, models: seq<Instance>)
    requires Kept(profiles, models)
    ensures Refreshed(models).Some? && Cycled(models, Refreshed(models).value)
  {
    RefreshedKept(profiles, models);
    KeptSound(profiles, models);
    var g := Refreshed(models).value;
    hide Refreshed, Kept, Sound, DutyOf, Good;
    if models != [] {
      DutyIsShortest(models);
    }
    forall i | 0 <= i < |models|
      ensures CycledOne(models[i], g.models[i], g.duty) && g.models[i].fwdLatency == PassTime(models[i], g.duty)
    {
      AppliedOnly(models, i);
      assert Current(g.models[i], g.duty);
      CurrentCycled(models[i], g.models[i], g.duty);
      SameShare(models[i], g.models[i], g.duty);
      hide PassTime, CycledOne;
    }
    hide PassTime, CycledOne, ExecOf;
    RunTimeIs(models, g.models, g.duty);
  }

  /** A new model joins the others' cycle. */
  lemma LoadedIs(profiles: Profiles, g: Gpu, m: Instance)
    requires Kept(profiles, g.models + [m]) && m.session !in SessionsOf(g.models)
    ensures Loaded(g, m).Some? && Cycled(g.models + [m], Loaded(g, m).value)
  {
    hide Kept, Refreshed, Cycled, SessionsOf;
    RefreshedIs(profiles, g.models + [m]);
  }

  /** When a session leaves, the others are brought into their cycle. */
  lemma UnloadedIs(profiles: Profiles, g: Gpu, i: nat)
    requires Good(profiles, g) && i < |g.models|
    ensures Unloaded(g, g.models[i].session).Some?
    ensures Cycled(g.models[..i] + g.models[i + 1..], Unloaded(g, g.models[i].session).value)
  {
    GoodKept(profiles, g);
    KeptLess(profiles, g.models, i);
    KeptOneEach(profiles, g.models);
    InSessions(g.models, i);
    OnlyIndex(g.models, i);
    hide Kept, Refreshed, Cycled, SessionsOf, OneEach;
    RefreshedIs(profiles, Without(g.models, i));
  }

  lemma InSessions(models: seq<Instance>, i: nat)
    requires i < |models|
    ensures models[i].session in SessionsOf(models)
  {
  }

  lemma OnlyIndex(models: seq<Instance>, i: nat)
    requires OneEach(models) && i < |models| && models[i].session in SessionsOf(models)
    ensures IndexOf(models, models[i].session) == i
  {
    var k := IndexOf(models, models[i].session);
    hide IndexOf;
    assert models[k].session == models[i].session;
  }

  /**
   An update: the session's instance is computed anew and its throughput is the answer. If that has hardly
   moved, nothing else changes; otherwise all are brought into their cycle.
   */
  lemma UpdatedIs(profiles: Profiles, g: Gpu, i: nat, workload: real)
    requires FitsAll(profiles) && Good(profiles, g) && i < |g.models|
    requires Updated(g, g.models[i].session, workload).Some?
    ensures var m, o := g.models[i], Updated(g, g.models[i].session, workload).value;
      exists n {:trigger ComputedAs(m, workload, n)} ::
        && ComputedAs(m, workload, n) && o.value == n.throughput
        && if -0.001 <= n.throughput - m.throughput <= 0.001 then o.gpu == g.(models := g.models[i := n])
           else Cycled(g.models[i := n], o.gpu)
  {
    hide Good, FitsAll, Kept, Refreshed, Cycled, SessionsOf, ComputedFor, ComputedAs;
    UpdateComputes(profiles, g, i, workload);
    var m := g.models[i];
    var c := ComputedFor(m, workload);
    if c.Computed? {
      RefreshedIs(profiles, g.models[i := c.inst]);
      assert ComputedAs(m, workload, c.inst);
    }
  }

  lemma UpdateComputes(profiles: Profiles, g: Gpu, i: nat, workload: real)
    requires FitsAll(profiles) && Good(profiles, g) && i < |g.models|
    ensures var m, c := g.models[i], ComputedFor(g.models[i], workload);
      && m.session in SessionsOf(g.models) && IndexOf(g.models, m.session) == i && (c.Computed? || c.Aborted?)
      && (c.Computed? ==> ComputedAs(m, workload, c.inst) && Kept(profiles, g.models[i := c.inst]))
  {
    var m := g.models[i];
    GoodKept(profiles, g);
    KeptOneEach(profiles, g.models);
    InSessions(g.models, i);
    OnlyIndex(g.models, i);
    hide Good, SessionsOf, OneEach, ComputedFor, InObjective, Timely, Checkable, ComputedAs, Measured, Fits, Sound;
    KeptUpdate(profiles, g.models, i, workload);
    assert Served(profiles, m);
    FitsOne(profiles, m.session);
    if ComputedFor(m, workload).Computed? {
      ComputedIs(m, workload);
    }
  }

  // A workload that does not fill the GPU, and of which not even single requests can be served in time.
  ghost predicate TooMuch(m: Instance, workload: real) {
    var b := MaxBatchFor(m.profile, m.session);
    && m.profile.Covers(b) && m.profile.Forward(b) > 0.0 && workload > 0.0
    && workload * m.profile.Forward(b) < b as real * 1000000.0 && !Possible(m.profile, m.session, workload, 1)
  }

  lemma TooMuchIsTooSlow(m: Instance, workload: real)
    requires TooMuch(m, workload)
    ensures ComputedFor(m, workload).TooSlow?
  {
    var b := MaxBatchFor(m.profile, m.session);
    DutyLaws.FullIff(workload, b, m.profile.Forward(b));
    PossibleIff(m.profile, m.session, workload, 1);
    hide MaxBatchFor, Throughput, InTime;
  }

  /** A GPU too slow for a session refuses it; if it has it already, the session is left without a batch. */
  lemma TooSlowIs(profiles: Profiles, g: Gpu, s: Session, workload: real, i: nat)
    requires i < |g.models| && OneEach(g.models)
    ensures s in profiles && TooMuch(Instance(s, profiles[s], 0, 0, 0.0, 0.0, 0.0, 0.0), workload) ==>
      Prepare(profiles, g, s, workload) == Refused
    ensures TooMuch(g.models[i], workload) ==>
      Updated(g, g.models[i].session, workload) ==
        Some(Outcome(g.(models := g.models[i := g.models[i].(batch := 0)]), g.models[i].throughput))
  {
    hide TooMuch, ComputedFor, Joining;
    if TooMuch(g.models[i], workload) {
      TooMuchIsTooSlow(g.models[i], workload);
      InSessions(g.models, i);
      OnlyIndex(g.models, i);
    }
    if s in profiles && TooMuch(Instance(s, profiles[s], 0, 0, 0.0, 0.0, 0.0, 0.0), workload) {
      TooMuchIsTooSlow(Instance(s, profiles[s], 0, 0, 0.0, 0.0, 0.0, 0.0), workload);
    }
  }

  /** What a session is offered: in a cycle already shorter than its own, the batch and the rate of that. */
  ghost predicate OfferedAs(g: Gpu, n: Instance, last: Instance, inst: Instance) {
    if g.duty != 0.0 && g.duty <= n.maxDutyCycle then
      && inst == n.(batch := last.batch, fwdLatency := last.fwdLatency, throughput := inst.throughput)
      && Serves(inst.throughput, g.duty, inst.batch)
    else inst == n
  }

  // The GPU with one more model, which does not run longer than its cycle; how full it is then.
  ghost predicate Extends(g: Gpu, n: Instance, g': Gpu, inst: Instance, occupancy: real) {
    && Cycled(g.models + [n], g') && g'.exec <= g'.duty && occupancy * g'.duty == g'.exec
    && |g'.models| == |g.models| + 1 && OfferedAs(g, n, g'.models[|g.models|], inst)
  }

  lemma JoiningExtends(profiles: Profiles, g: Gpu, n: Instance)
    requires Good(profiles, g) && Served(profiles, n) && n.session !in SessionsOf(g.models) && Joining(g, n).Ready?
    ensures Refreshed(g.models + [n]).Some?
    ensures Extends(g, n, Refreshed(g.models + [n]).value, Joining(g, n).inst, Joining(g, n).occupancy)
  {
    hide Good, Served, SessionsOf, Cycled, Kept, ExecOf, DutyOf, Unshared, Overloaded, ChangesOf;
    JoiningKept(profiles, g, n);
    RefreshedIs(profiles, g.models + [n]);
    CycleHasChanges(g.models + [n]);
    var g', r := Refreshed(g.models + [n]).value, CycleOf(g.models + [n]);
    CycledCount(g.models + [n], g');
    QuotientOf(g'.exec, g'.duty);
    LastApplied(g.models, n, r.changes);
    if g.duty != 0.0 {
      ThroughputServes(r.changes[|g.models|].batch, g.duty);
    }
    hide CycleOf, Applied, Serves, Throughput;
  }

  lemma QuotientOf(x: real, y: real)
    requires y != 0.0
    ensures x / y * y == x
  {
  }

  lemma LastApplied(models: seq<Instance>, n: Instance, changes: seq<Change>)
    requires |changes| == |models| + 1
    ensures var last, c := Applied(models + [n], changes)[|models|], changes[|models|];
      last.batch == c.batch && last.fwdLatency == c.fwdLatency
  {
  }

  lemma CycledCount(models: seq<Instance>, g: Gpu)
    requires Cycled(models, g)
    ensures |g.models| == |models|
  {
  }

  /** An offer is for the instance computed for the workload, in the cycle with the models already there. */
  lemma ReadyIs(profiles: Profiles, g: Gpu, s: Session, workload: real)
    requires FitsAll(profiles) && Good(profiles, g) && Prepare(profiles, g, s, workload).Ready?
    ensures s in profiles
    ensures var r := Prepare(profiles, g, s, workload);
      exists n, g' {:trigger Extends(g, n, g', r.inst, r.occupancy)} ::
        && ComputedAs(Instance(s, profiles[s], 0, 0, 0.0, 0.0, 0.0, 0.0), workload, n)
        && Extends(g, n, g', r.inst, r.occupancy)
  {
    hide Good, FitsAll, Served, SessionsOf, ComputedFor, Joining, Measured, Fits, Checkable, ComputedAs, Extends;
    var m := Blank(s, profiles[s]);
    ServedNew(profiles, s, workload);
    FitsOne(profiles, s);
    ComputedIs(m, workload);
    var n := ComputedFor(m, workload).inst;
    JoiningExtends(profiles, g, n);
  }

  /** A GPU takes nothing more if and only if it has models and they run at least as long as their cycle. */
  lemma FullGpuIff(profiles: Profiles, g: Gpu)
    requires Good(profiles, g)
    ensures Occupancy(g) >= 1.0 <==> g.models != [] && g.exec >= g.duty
  {
    hide Kept;
    if g.duty > 0.0 {
      RatioIff(g.exec, g.duty);
    }
  }

  lemma RatioIff(x: real, y: real)
    requires y > 0.0
    ensures x / y >= 1.0 <==> x >= y
  {
    var q := x / y;
    assert q * y == x;
    if q >= 1.0 {
      assert (q - 1.0) * y >= 0.0;
    } else {
      assert (1.0 - q) * y > 0.0;
    }
  }

  // How many of the first i are not gone.
  ghost function StayBefore(order: seq<Instance>, gone: set<Session>, i: nat): nat
    requires i <= |order|
  {
    if i == 0 then 0 else StayBefore(order, gone, i - 1) + if order[i - 1].session in gone then 0 else 1
  }

  // Those that are, with their workloads.
  ghost function GoneOf(order: seq<Instance>, gone: set<Session>): Spill {
    if order == [] then []
    else
      var n := |order| - 1;
      GoneOf(order[..n], gone) + if order[n].session in gone then [(order[n].session, order[n].workload)] else []
  }

  // The models there fill their cycle, or do not leave enough of it for one more.
  ghost predicate NoRoom(profiles: Profiles, models: seq<Instance>, s: Session, workload: real) {
    || (models != [] && ExecOf(models, DutyOf(models)) >= DutyOf(models))
    || (s in profiles && var c := ComputedFor(Instance(s, profiles[s], 0, 0, 0.0, 0.0, 0.0, 0.0), workload);
        c.Computed? && var more := models + [c.inst]; ExecOf(more, DutyOf(more)) > DutyOf(more))
  }

  // The instance is the one for its session's workload.
  ghost predicate Reinstated(profiles: Profiles, m: Instance, n: Instance) {
    m.session in profiles &&
    var c := ComputedFor(Instance(m.session, profiles[m.session], 0, 0, 0.0, 0.0, 0.0, 0.0), m.workload);
    c.Computed? && SameTask(c.inst, n)
  }

  /** The turn of the model at place i: it goes if there is no room beside those that stayed before it. */
  ghost predicate SpillTurn(profiles: Profiles, order: seq<Instance>, stay: seq<Instance>, gone: set<Session>, i: nat)
    requires i < |order|
  {
    var c, m := StayBefore(order, gone, i), order[i];
    && c <= |stay| && (m.session in gone <==> NoRoom(profiles, stay[..c], m.session, m.workload))
    && (m.session !in gone ==> c < |stay| && Reinstated(profiles, m, stay[c]))
  }

  ghost predicate SpillTurns(profiles: Profiles, order: seq<Instance>, stay: seq<Instance>, spill: Spill) {
    var gone := Spilled(spill);
    && |stay| == StayBefore(order, gone, |order|) && spill == GoneOf(order, gone)
    && forall i {:trigger SpillTurn(profiles, order, stay, gone, i)} | 0 <= i < |order| ::
         SpillTurn(profiles, order, stay, gone, i)
  }

  lemma {:induction false} SameDuty(models: seq<Instance>, others: seq<Instance>)
    requires SameTasks(models, others)
    ensures DutyOf(models) == DutyOf(others)
  {
    if models != [] {
      var n := |models| - 1;
      SameFirst(models, others, n);
      SameDuty(models[..n], others[..n]);
      assert SameTask(models[n], others[n]);
    }
  }

  lemma SameFirst(models: seq<Instance>, others: seq<Instance>, n: nat)
    requires SameTasks(models, others) && n <= |models|
    ensures SameTasks(models[..n], others[..n])
  {
    hide SameTask;
    forall i | 0 <= i < n ensures SameTask(models[..n][i], others[..n][i]) {
      assert SameTask(models[i], others[i]);
    }
  }

  lemma {:induction false} SameExec(models: seq<Instance>, others: seq<Instance>, duty: real)
    requires SameTasks(models, others)
    ensures ExecOf(models, duty) == ExecOf(others, duty)
  {
    if models != [] {
      hide PassTime;
      var n := |models| - 1;
      SameFirst(models, others, n);
      SameExec(models[..n], others[..n], duty);
      assert SameTask(models[n], others[n]);
      SameShare(models[n], others[n], duty);
    }
  }

  lemma SameMore(models: seq<Instance>, others: seq<Instance>, m: Instance)
    requires SameTasks(models, others)
    ensures SameTasks(models + [m], others + [m])
  {
    hide SameTask;
    var x, y := models + [m], others + [m];
    SameSelf(m);
    forall i | 0 <= i < |x| ensures SameTask(x[i], y[i]) {
      assert i < |models| ==> SameTask(models[i], others[i]);
    }
  }

  lemma SameSelf(m: Instance)
    ensures SameTask(m, m)
  {
  }

  lemma NoRoomSame(profiles: Profiles, models: seq<Instance>, others: seq<Instance>, s: Session, workload: real)
    requires SameTasks(models, others)
    ensures NoRoom(profiles, models, s, workload) <==> NoRoom(profiles, others, s, workload)
  {
    hide ExecOf, DutyOf, ComputedFor, SameTasks;
    SameDuty(models, others);
    SameExec(models, others, DutyOf(models));
    SameCount(models, others);
    if s in profiles {
      var c := ComputedFor(Instance(s, profiles[s], 0, 0, 0.0, 0.0, 0.0, 0.0), workload);
      if c.Computed? {
        SameMore(models, others, c.inst);
        SameDuty(models + [c.inst], others + [c.inst]);
        SameExec(models + [c.inst], others + [c.inst], DutyOf(models + [c.inst]));
      }
    }
  }

  lemma SameCount(models: seq<Instance>, others: seq<Instance>)
    requires SameTasks(models, others)
    ensures |models| == |others|
  {
  }

  // The cycle on record is that of the models.
  ghost predicate Reckoned(g: Gpu) {
    g.duty == DutyOf(g.models) && g.exec == ExecOf(g.models, g.duty)
  }

  lemma RefreshedReckoned(profiles: Profiles, models: seq<Instance>)
    requires Kept(profiles, models)
    ensures Refreshed(models).Some? && Reckoned(Refreshed(models).value)
    ensures SameTasks(models, Refreshed(models).value.models)
  {
    hide Kept, Refreshed, ExecOf, DutyOf, SameTasks, Good;
    RefreshedKept(profiles, models);
    var g := Refreshed(models).value;
    SameDuty(models, g.models);
    SameExec(models, g.models, g.duty);
  }

  // A model is refused exactly if there is no room for it.
  lemma RefusedIff(profiles: Profiles, g: Gpu, m: Instance)
    requires FitsAll(profiles) && Good(profiles, g) && Reckoned(g) && Served(profiles, m)
    requires m.session !in SessionsOf(g.models)
    ensures !Prepare(profiles, g, m.session, m.workload).Died?
    ensures Prepare(profiles, g, m.session, m.workload).Refused? <==> NoRoom(profiles, g.models, m.session, m.workload)
  {
    PrepareIff(profiles, g, m.session, m.workload);
    FullGpuIff(profiles, g);
    ServedNew(profiles, m.session, m.workload);
    hide Good, FitsAll, Prepare, Occupancy, SessionsOf, ComputedFor, ExecOf, DutyOf, Checkable, Sound;
  }

  lemma ReadyReinstates(profiles: Profiles, g: Gpu, m: Instance)
    requires FitsAll(profiles) && Good(profiles, g) && Served(profiles, m) && m.session !in SessionsOf(g.models)
    requires Prepare(profiles, g, m.session, m.workload).Ready?
    ensures var inst := Prepare(profiles, g, m.session, m.workload).inst;
      && Reinstated(profiles, m, inst) && Kept(profiles, g.models + [inst]) && inst.session == m.session
  {
    hide Good, FitsAll, Joining, SessionsOf, ComputedFor, Checkable, Sound, SameTask, Kept;
    PrepareIff(profiles, g, m.session, m.workload);
    ServedNew(profiles, m.session, m.workload);
    var n := ComputedFor(Blank(m.session, profiles[m.session]), m.workload).inst;
    hide Served;
    JoiningKept(profiles, g, n);
    KeptSame(profiles, g.models, n, Prepare(profiles, g, m.session, m.workload).inst);
  }

  lemma KeptSame(profiles: Profiles, models: seq<Instance>, m: Instance, n: Instance)
    requires Kept(profiles, models + [m]) && SameTask(m, n) && n.batch >= 1
    ensures Kept(profiles, models + [n]) && n.session == m.session
  {
    var x, y := models + [m], models + [n];
    assert Served(profiles, x[|models|]);
    SameServed(profiles, m, n);
    hide Served;
    forall i | 0 <= i < |y| ensures Served(profiles, y[i]) && y[i].session == x[i].session {
      assert i < |models| ==> y[i] == x[i];
    }
  }

  // A turn looks only at what came before it.
  lemma {:induction false} StaySame(order: seq<Instance>, m: Instance, gone: set<Session>, gone': set<Session>, i: nat)
    requires i <= |order| && gone <= gone' <= gone + {m.session} && m.session !in SessionsOf(order)
    ensures StayBefore(order + [m], gone', i) == StayBefore(order, gone, i)
  {
    if i > 0 {
      StaySame(order, m, gone, gone', i - 1);
      InSessions(order, i - 1);
      hide SessionsOf;
      assert (order + [m])[i - 1] == order[i - 1];
    }
  }

  lemma {:induction false} GoneSame(order: seq<Instance>, x: Session, gone: set<Session>, gone': set<Session>)
    requires gone <= gone' <= gone + {x} && x !in SessionsOf(order)
    ensures GoneOf(order, gone') == GoneOf(order, gone)
  {
    if order != [] {
      var n := |order| - 1;
      FewerSessions(order, n);
      InSessions(order, n);
      hide SessionsOf;
      GoneSame(order[..n], x, gone, gone');
    }
  }

  lemma FewerSessions(order: seq<Instance>, n: nat)
    requires n <= |order|
    ensures SessionsOf(order[..n]) <= SessionsOf(order)
  {
    forall x | x in SessionsOf(order[..n]) ensures x in SessionsOf(order) {
      var i :| 0 <= i < n && order[..n][i].session == x;
      assert order[i].session == x;
    }
  }

  lemma TurnSame(profiles: Profiles, order: seq<Instance>, m: Instance, stay: seq<Instance>, stay': seq<Instance>,
                 gone: set<Session>, gone': set<Session>, i: nat)
    requires i < |order| && gone <= gone' <= gone + {m.session} && m.session !in SessionsOf(order)
    requires |stay| <= |stay'| && SameTasks(stay, stay'[..|stay|]) && SpillTurn(profiles, order, stay, gone, i)
    ensures SpillTurn(profiles, order + [m], stay', gone', i)
  {
    hide NoRoom, SameTask, ComputedFor;
    StaySame(order, m, gone, gone', i);
    InSessions(order, i);
    hide SessionsOf;
    var c, x := StayBefore(order, gone, i), order[i];
    assert (order + [m])[i] == x;
    SameFirst(stay, stay'[..|stay|], c);
    assert stay'[..|stay|][..c] == stay'[..c];
    hide StayBefore;
    NoRoomSame(profiles, stay[..c], stay'[..c], x.session, x.workload);
    if x.session !in gone {
      assert SameTask(stay[c], stay'[..|stay|][c]);
      SameTrans(ComputedFor(Instance(x.session, profiles[x.session], 0, 0, 0.0, 0.0, 0.0, 0.0), x.workload).inst,
        stay[c], stay'[c]);
    }
  }

  lemma SameTrans(a: Instance, b: Instance, c: Instance)
    requires SameTask(a, b) && SameTask(b, c)
    ensures SameTask(a, c)
  {
  }

  lemma LastGone(order: seq<Instance>, m: Instance, gone: set<Session>)
    ensures StayBefore(order + [m], gone, |order| + 1) ==
      StayBefore(order + [m], gone, |order|) + if m.session in gone then 0 else 1
    ensures GoneOf(order + [m], gone) ==
      GoneOf(order, gone) + if m.session in gone then [(m.session, m.workload)] else []
  {
    assert (order + [m])[..|order|] == order;
  }

  lemma RefusedTurns(profiles: Profiles, order: seq<Instance>, stay: seq<Instance>, spill: Spill, m: Instance)
    requires SpillTurns(profiles, order, stay, spill) && m.session !in SessionsOf(order)
    requires NoRoom(profiles, stay, m.session, m.workload)
    ensures SpillTurns(profiles, order + [m], stay, spill + [(m.session, m.workload)])
  {
    hide SpillTurn, Spilled, SessionsOf, StayBefore, GoneOf, NoRoom, SameTasks;
    var all, more := order + [m], spill + [(m.session, m.workload)];
    var gone, gone' := Spilled(spill), Spilled(more);
    SpilledNext(spill, m.session, m.workload);
    StaySame(order, m, gone, gone', |order|);
    GoneSame(order, m.session, gone, gone');
    LastGone(order, m, gone');
    SameAll(stay);
    forall i | 0 <= i < |all| ensures SpillTurn(profiles, all, stay, gone', i) {
      if i < |order| {
        assert SpillTurn(profiles, order, stay, gone, i);
        TurnSame(profiles, order, m, stay, stay, gone, gone', i);
      } else {
        LastRefused(profiles, order, stay, gone', m);
      }
    }
  }

  lemma SameAll(models: seq<Instance>)
    ensures SameTasks(models, models[..|models|])
  {
  }

  lemma LastRefused(profiles: Profiles, order: seq<Instance>, stay: seq<Instance>, gone: set<Session>, m: Instance)
    requires StayBefore(order + [m], gone, |order|) == |stay| && m.session in gone
    requires NoRoom(profiles, stay, m.session, m.workload)
    ensures SpillTurn(profiles, order + [m], stay, gone, |order|)
  {
    hide NoRoom, StayBefore;
    assert stay[..|stay|] == stay;
  }

  lemma LastStays(profiles: Profiles, order: seq<Instance>, stay: seq<Instance>, stay': seq<Instance>,
                  gone: set<Session>, m: Instance)
    requires StayBefore(order + [m], gone, |order|) == |stay| && m.session !in gone && |stay'| == |stay| + 1
    requires SameTasks(stay, stay'[..|stay|]) && !NoRoom(profiles, stay, m.session, m.workload)
    requires Reinstated(profiles, m, stay'[|stay|])
    ensures SpillTurn(profiles, order + [m], stay', gone, |order|)
  {
    hide NoRoom, StayBefore, Reinstated, SameTasks;
    NoRoomSame(profiles, stay, stay'[..|stay|], m.session, m.workload);
  }

  lemma StayTurns(profiles: Profiles, order: seq<Instance>, stay: seq<Instance>, stay': seq<Instance>, spill: Spill,
                  m: Instance)
    requires SpillTurns(profiles, order, stay, spill) && m.session !in SessionsOf(order) && m.session !in Spilled(spill)
    requires |stay'| == |stay| + 1 && SameTasks(stay, stay'[..|stay|])
    requires !NoRoom(profiles, stay, m.session, m.workload) && Reinstated(profiles, m, stay'[|stay|])
    ensures SpillTurns(profiles, order + [m], stay', spill)
  {
    hide SpillTurn, Spilled, SessionsOf, StayBefore, GoneOf, NoRoom, SameTasks, Reinstated;
    var all, gone := order + [m], Spilled(spill);
    StaySame(order, m, gone, gone, |order|);
    LastGone(order, m, gone);
    forall i | 0 <= i < |all| ensures SpillTurn(profiles, all, stay', gone, i) {
      if i < |order| {
        assert SpillTurn(profiles, order, stay, gone, i);
        TurnSame(profiles, order, m, stay, stay', gone, gone, i);
      } else {
        LastStays(profiles, order, stay, stay', gone, m);
      }
    }
  }

  lemma ReloadedTurns(profiles: Profiles, order: seq<Instance>, g: Gpu, spill: Spill, m: Instance)
    requires FitsAll(profiles) && Divided(profiles, order, g, spill) && Reckoned(g) && Served(profiles, m)
    requires m.session !in SessionsOf(order) && SpillTurns(profiles, order, g.models, spill)
    ensures var r := Reloaded(profiles, g, spill, m);
      r.Some? && Reckoned(r.value.gpu) && SpillTurns(profiles, order + [m], r.value.gpu.models, r.value.value)
  {
    hide Good, FitsAll, Prepare, SessionsOf, Spilled, WithWorkloads, SpilledOnce, CurrentBut, Served, Reckoned, NoRoom;
    hide SpillTurns, Refreshed, Kept, SameTasks, Reinstated;
    RefusedIff(profiles, g, m);
    var r := Prepare(profiles, g, m.session, m.workload);
    if r.Refused? {
      RefusedTurns(profiles, order, g.models, spill, m);
    } else {
      ReadyReinstates(profiles, g, m);
      RefreshedReckoned(profiles, g.models + [r.inst]);
      var g' := Refreshed(g.models + [r.inst]).value;
      StaysOn(profiles, g.models, m, r.inst, g'.models);
      StayTurns(profiles, order, g.models, g'.models, spill, m);
    }
  }

  lemma StaysOn(profiles: Profiles, models: seq<Instance>, m: Instance, inst: Instance, models': seq<Instance>)
    requires SameTasks(models + [inst], models') && Reinstated(profiles, m, inst)
    ensures |models'| == |models| + 1 && SameTasks(models, models'[..|models|])
    ensures Reinstated(profiles, m, models'[|models|])
  {
    hide SameTask, ComputedFor;
    var n := |models|;
    SameFirst(models + [inst], models', n);
    assert (models + [inst])[..n] == models && (models + [inst])[n] == inst;
    assert SameTask((models + [inst])[n], models'[n]);
    SameTrans(ComputedFor(Instance(m.session, profiles[m.session], 0, 0, 0.0, 0.0, 0.0, 0.0), m.workload).inst, inst,
      models'[n]);
  }

  lemma NoTurns(profiles: Profiles)
    ensures SpillTurns(profiles, [], [], []) && Reckoned(IDLE)
  {
  }

  /** Each model has its turn when a GPU is built up again. */
  lemma {:induction false} RebuiltTurns(profiles: Profiles, models: seq<Instance>)
    requires FitsAll(profiles) && Kept(profiles, models)
    ensures var r := Rebuilt(profiles, models);
      r.Some? && Reckoned(r.value.gpu) && SpillTurns(profiles, models, r.value.gpu.models, r.value.value)
  {
    hide Kept, Divided, Reloaded, FitsAll, Served, SpillTurns, Reckoned;
    if models == [] {
      NoTurns(profiles);
    } else {
      var n := |models| - 1;
      KeptFirst(profiles, models, n);
      RebuiltDivides(profiles, models[..n]);
      RebuiltTurns(profiles, models[..n]);
      var o := Rebuilt(profiles, models[..n]).value;
      ReloadedTurns(profiles, models[..n], o.gpu, o.value, models[n]);
    }
  }

  /**
   An overloaded GPU is built up again in falling order of latency: a model goes if and only if those
   that stayed before it fill their cycle, or they and it would run longer than theirs. The others stay, in that
   order, each as computed for its workload.
   */
  lemma SpilledOutTurns(profiles: Profiles, g: Gpu)
    requires FitsAll(profiles) && Good(profiles, g) && g.overload
    ensures SpilledOut(profiles, g).Some?
    ensures var o := SpilledOut(profiles, g).value;
      exists order {:trigger SpillTurns(profiles, order, o.gpu.models, o.value)} ::
        && multiset(order) == multiset(g.models) && Descending(order)
        && SpillTurns(profiles, order, o.gpu.models, o.value)
  {
    hide Kept, Rebuilt, ByLatency, FitsAll, Good, Descending, SpillTurns, SessionsOf, Reckoned, Divided;
    SpilledOutDivides(profiles, g);
    GoodKept(profiles, g);
    var order := ByLatency(g.models);
    ByLatencyPermutes(g.models);
    ByLatencyDescends(g.models);
    KeptPermuted(profiles, g.models, order);
    RebuiltTurns(profiles, order);
    var o := SpilledOut(profiles, g).value;
    assert SpillTurns(profiles, order, o.gpu.models, o.value);
  }
}
