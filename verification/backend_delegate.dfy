/** The scheduler's view of one backend: the models on its GPU and the cycle they share. */
module BackendDelegates {
  import opened Wrappers
  import opened ModelProfiles
  import opened DutyCycles

  /** The models on a GPU, how long they run in each duty cycle, and whether that is too long. */
  datatype Gpu = Gpu(models: seq<Instance>, exec: real, duty: real, overload: bool)

  const IDLE := Gpu([], 0.0, 0.0, false)

  type Profiles = map<Session, Profile>

  function SessionsOf(models: seq<Instance>): set<Session> {
    set i | 0 <= i < |models| :: models[i].session
  }

  // Where a session's model is.
  function IndexOf(models: seq<Instance>, s: Session): (i: nat)
    requires s in SessionsOf(models)
    ensures i < |models| && models[i].session == s
  {
    if models[0].session == s then 0
    else
      assert s in SessionsOf(models[1..]) by {
        var k :| 0 <= k < |models| && models[k].session == s;
        assert models[1..][k - 1].session == s;
      }
      1 + IndexOf(models[1..], s)
  }

  // The models without the one at i.
  function Without(models: seq<Instance>, i: nat): (r: seq<Instance>)
    requires i < |models|
    ensures |r| == |models| - 1
    ensures forall k {:trigger r[k]} | 0 <= k < |r| :: r[k] == models[if k < i then k else k + 1]
  {
    models[..i] + models[i + 1..]
  }

  // Each model takes its batch from the cycle just computed.
  function Applied(models: seq<Instance>, changes: seq<Change>): (r: seq<Instance>)
    requires |changes| == |models|
    ensures |r| == |models|
  {
    seq(|models|, i requires 0 <= i < |models| =>
      models[i].(batch := changes[i].batch, fwdLatency := changes[i].fwdLatency))
  }

  // The models with their cycle computed anew.
  function Refreshed(models: seq<Instance>): Option<Gpu> {
    match CycleOf(models)
    case CheckFailed => None
    case Cycle(exec, duty, overload, changes) => Some(Gpu(Applied(models, changes), exec, duty, overload))
  }

  function Occupancy(g: Gpu): real {
    if g.exec == 0.0 || g.duty == 0.0 then 0.0 else g.exec / g.duty
  }

  datatype Prepared = Died | Refused | Ready(inst: Instance, occupancy: real)

  function Blank(s: Session, p: Profile): Instance {
    Instance(s, p, 0, 0, 0.0, 0.0, 0.0, 0.0)
  }

  // In a cycle that is already shorter than its own, a new model gets its batch from that.
  function Tuned(g: Gpu, m: Instance, change: Change): Instance {
    if g.duty != 0.0 && m.maxDutyCycle >= g.duty then
      m.(batch := change.batch, fwdLatency := change.fwdLatency, throughput := Throughput(change.batch, g.duty))
    else m
  }

  // Whether the GPU has room for one more model.
  function Joining(g: Gpu, m: Instance): Prepared {
    match CycleOf(g.models + [m])
    case CheckFailed => Died
    case Cycle(exec, duty, _, changes) =>
      var n := Tuned(g, m, changes[|changes| - 1]);
      if n.batch == 0 then Died
      else if exec > duty then Refused
      else if duty == 0.0 || exec / duty > 1.0 + EPS then Died
      else Ready(n, exec / duty)
  }

  /** Whether one more session can be served, and how. */
  function Prepare(profiles: Profiles, g: Gpu, s: Session, workload: real): Prepared {
    if Occupancy(g) >= 1.0 || s in SessionsOf(g.models) || s !in profiles then Refused
    else
      match ComputedFor(Blank(s, profiles[s]), workload)
      case TooSlow => Refused
      case Computed(m) => Joining(g, m)
      case _ => Died
  }

  /** The new model joins the cycle; a session already there is a fatal error. */
  function Loaded(g: Gpu, m: Instance): Option<Gpu> {
    if m.session in SessionsOf(g.models) then None else Refreshed(g.models + [m])
  }

  /** A session leaves; one that is not there is a fatal error. */
  function Unloaded(g: Gpu, s: Session): Option<Gpu> {
    if s !in SessionsOf(g.models) then None else Refreshed(Without(g.models, IndexOf(g.models, s)))
  }

  predicate Moved(before: real, after: real) {
    before - after > EPS || after - before > EPS
  }

  datatype Outcome<T> = Outcome(gpu: Gpu, value: T)

  /** A session's workload changes; the cycle is computed anew only if its throughput moves by more than 0.001. */
  function Updated(g: Gpu, s: Session, workload: real): Option<Outcome<real>> {
    if s !in SessionsOf(g.models) then None
    else
      var i := IndexOf(g.models, s);
      match ComputedFor(g.models[i], workload)
      case TooSlow =>
        var m := g.models[i].(batch := 0);
        Some(Outcome(g.(models := g.models[i := m]), m.throughput))
      case Computed(m) =>
        if !Moved(g.models[i].throughput, m.throughput) then
          Some(Outcome(g.(models := g.models[i := m]), m.throughput))
        else
          (match Refreshed(g.models[i := m])
           case None => None
           case Some(g') => Some(Outcome(g', m.throughput)))
      case _ => None
  }

  // Where a model goes among those sorted by falling latency.
  function Position(sorted: seq<Instance>, m: Instance): (k: nat)
    ensures k <= |sorted|
  {
    if sorted == [] || sorted[0].fwdLatency < m.fwdLatency then 0 else 1 + Position(sorted[1..], m)
  }

  // m goes in at k.
  function Inserted(models: seq<Instance>, k: nat, m: Instance): (r: seq<Instance>)
    requires k <= |models|
    ensures |r| == |models| + 1 && r[k] == m
    ensures forall i {:trigger models[i]} | 0 <= i < k :: r[i] == models[i]
    ensures forall i {:trigger models[i]} | k <= i < |models| :: r[i + 1] == models[i]
    ensures forall i {:trigger r[i]} | 0 <= i < |r| && i != k :: r[i] == models[if i < k then i else i - 1]
  {
    models[..k] + [m] + models[k..]
  }

  function ByLatency(models: seq<Instance>): seq<Instance> {
    if models == [] then []
    else
      var n := |models| - 1;
      var sorted := ByLatency(models[..n]);
      Inserted(sorted, Position(sorted, models[n]), models[n])
  }

  type Spill = seq<(Session, real)>

  // One model goes on the GPU again, or spills with its workload.
  function Reloaded(profiles: Profiles, g: Gpu, spill: Spill, m: Instance): Option<Outcome<Spill>> {
    match Prepare(profiles, g, m.session, m.workload)
    case Died => None
    case Refused => Some(Outcome(g, spill + [(m.session, m.workload)]))
    case Ready(inst, _) =>
      match Loaded(g, inst)
      case None => None
      case Some(g') => Some(Outcome(g', spill))
  }

  function Rebuilt(profiles: Profiles, models: seq<Instance>): Option<Outcome<Spill>> {
    if models == [] then Some(Outcome(IDLE, []))
    else
      match Rebuilt(profiles, models[..|models| - 1])
      case None => None
      case Some(o) => Reloaded(profiles, o.gpu, o.value, models[|models| - 1])
  }

  /** An overloaded GPU is built up again, longest forward pass first; what finds no room spills. */
  function SpilledOut(profiles: Profiles, g: Gpu): Option<Outcome<Spill>> {
    if !g.overload then Some(Outcome(g, []))
    else
      match Rebuilt(profiles, ByLatency(g.models))
      case None => None
      case Some(o) =>
        if o.gpu.exec > o.gpu.duty then None else Some(Outcome(o.gpu.(overload := false), o.value))
  }

  // No session has two models.
  ghost predicate OneEach(models: seq<Instance>) {
    forall i, j {:trigger models[i], models[j]} | 0 <= i < j < |models| :: models[i].session != models[j].session
  }

  class BackendDelegate {
    const nodeId: nat
    const profiles: Profiles
    var models: seq<Instance>
    var sessions: set<Session>
    var exec: real
    var duty: real
    var overload: bool

    function Value(): Gpu
      reads this
    {
      Gpu(models, exec, duty, overload)
    }

    // The sessions are those of the models, one model each.
    ghost predicate Valid()
      reads this
    {
      sessions == SessionsOf(models) && OneEach(models)
    }

    constructor (id: nat, table: Profiles)
      ensures Valid() && nodeId == id && profiles == table && Value() == IDLE
    {
      nodeId, profiles, models, sessions := id, table, [], {};
      exec, duty, overload := 0.0, 0.0, false;
    }

    method PrepareLoadModel(s: Session, workload: real) returns (r: Prepared)
      requires Valid()
      ensures r == Prepare(profiles, Value(), s, workload)
    {
      hide ComputedFor, CycleOf;
      if Occupancy(Value()) >= 1.0 || s in sessions || s !in profiles {
        return Refused;
      }
      var c := ComputeBatchSize(Blank(s, profiles[s]), workload);
      if c.TooSlow? {
        return Refused;
      }
      if !c.Computed? {
        return Died;
      }
      var res := CalcCycle(models + [c.inst]);
      if res.CheckFailed? {
        return Died;
      }
      CycleHasChanges(models + [c.inst]);
      var inst := c.inst;
      if duty != 0.0 && inst.maxDutyCycle >= duty {
        var change := res.changes[|res.changes| - 1];
        inst := inst.(batch := change.batch, fwdLatency := change.fwdLatency,
          throughput := Throughput(change.batch, duty));
      }
      if inst.batch == 0 {
        return Died;
      }
      if res.exec > res.duty {
        return Refused;
      }
      if res.duty == 0.0 || res.exec / res.duty > 1.0 + EPS {
        return Died;
      }
      r := Ready(inst, res.exec / res.duty);
    }

    // Takes over the given models with their cycle computed anew.
    method UpdateCycle(next: seq<Instance>) returns (ok: bool)
      requires sessions == SessionsOf(next) && OneEach(next)
      modifies `models, `exec, `duty, `overload
      ensures ok ==> Valid()
      ensures Refreshed(next) == if ok then Some(Value()) else None
    {
      hide CycleOf;
      var r := CalcCycle(next);
      if r.CheckFailed? {
        return false;
      }
      CycleHasChanges(next);
      models := ApplyChanges(next, r.changes);
      SameSessions(next, models);
      exec, duty, overload := r.exec, r.duty, r.overload;
      ok := true;
    }

    method LoadModel(inst: Instance) returns (ok: bool)
      requires Valid()
      modifies this
      ensures ok ==> Valid()
      ensures Loaded(old(Value()), inst) == if ok then Some(Value()) else None
    {
      hide Refreshed;
      if inst.session in sessions {
        return false;
      }
      SessionsMore(models, inst);
      sessions := sessions + {inst.session};
      ok := UpdateCycle(models + [inst]);
    }

    method UnloadModel(s: Session) returns (ok: bool)
      requires Valid()
      modifies this
      ensures ok ==> Valid()
      ensures Unloaded(old(Value()), s) == if ok then Some(Value()) else None
    {
      hide Refreshed;
      if s !in sessions {
        return false;
      }
      var i := IndexOf(models, s);
      SessionsLess(models, i);
      sessions := sessions - {s};
      ok := UpdateCycle(Without(models, i));
    }

    method UpdateModelThroughput(s: Session, workload: real) returns (ok: bool, throughput: real)
      requires Valid()
      modifies this
      ensures ok ==> Valid()
      ensures Updated(old(Value()), s, workload) == if ok then Some(Outcome(Value(), throughput)) else None
    {
      hide Refreshed, ComputedFor;
      throughput := 0.0;
      if s !in sessions {
        return false, throughput;
      }
      var i := IndexOf(models, s);
      var before := models[i].throughput;
      var c := ComputeBatchSize(models[i], workload);
      if !c.Computed? && !c.TooSlow? {
        return false, throughput;
      }
      var m := if c.Computed? then c.inst else models[i].(batch := 0);
      ComputedSession(models[i], workload);
      SameSessions(models, models[i := m]);
      throughput := m.throughput;
      if Moved(before, throughput) {
        ok := UpdateCycle(models[i := m]);
      } else {
        models, ok := models[i := m], true;
      }
    }

    // A model goes on the GPU again if there is room.
    method Reload(m: Instance, spill: Spill) returns (ok: bool, spill': Spill)
      requires Valid()
      modifies this
      ensures ok ==> Valid()
      ensures Reloaded(profiles, old(Value()), spill, m) == if ok then Some(Outcome(Value(), spill')) else None
    {
      hide Prepare, Loaded;
      ok, spill' := true, spill;
      var r := PrepareLoadModel(m.session, m.workload);
      match r
      case Died => ok := false;
      case Refused => spill' := spill + [(m.session, m.workload)];
      case Ready(inst, _) => ok := LoadModel(inst);
    }

    method SpillOutWorkload() returns (ok: bool, spill: Spill)
      requires Valid()
      modifies this
      ensures ok ==> Valid()
      ensures SpilledOut(profiles, old(Value())) == if ok then Some(Outcome(Value(), spill)) else None
    {
      hide Reloaded, ByLatency;
      ok, spill := true, [];
      if !overload {
        return;
      }
      var work := ByLatency(models);
      models, sessions, exec, duty, overload := [], {}, 0.0, 0.0, false;
      for i := 0 to |work|
        invariant ok && Valid() && Rebuilt(profiles, work[..i]) == Some(Outcome(Value(), spill))
      {
        assert work[..i + 1][..i] == work[..i];
        ok, spill := Reload(work[i], spill);
        if !ok {
          RebuiltFails(profiles, work, i + 1);
          return;
        }
      }
      assert work[..|work|] == work;
      if exec > duty {
        return false, [];
      }
      overload := false;
    }
  }

  lemma CycleHasChanges(models: seq<Instance>)
    ensures CycleOf(models).Cycle? ==> |CycleOf(models).changes| == |models|
  {
  }

  method ApplyChanges(models: seq<Instance>, changes: seq<Change>) returns (r: seq<Instance>)
    requires |changes| == |models|
    ensures r == Applied(models, changes)
  {
    r := models;
    for i := 0 to |changes|
      invariant |r| == |models| && r[i..] == models[i..] && r[..i] == Applied(models, changes)[..i]
    {
      assert r[i] == r[i..][0] == models[i];
      r := r[i := r[i].(batch := changes[i].batch, fwdLatency := changes[i].fwdLatency)];
      assert r[i + 1..] == models[i..][1..];
      assert r[..i + 1] == Applied(models, changes)[..i] + [Applied(models, changes)[i]];
    }
  }

  lemma SameSessions(models: seq<Instance>, others: seq<Instance>)
    requires |models| == |others|
    requires forall i {:trigger models[i]} {:trigger others[i]} | 0 <= i < |models| ::
      models[i].session == others[i].session
    ensures SessionsOf(models) == SessionsOf(others) && (OneEach(models) ==> OneEach(others))
  {
    forall s ensures s in SessionsOf(models) <==> s in SessionsOf(others) {
      if s in SessionsOf(models) {
        var i :| 0 <= i < |models| && models[i].session == s;
        assert others[i].session == s;
      }
      if s in SessionsOf(others) {
        var i :| 0 <= i < |others| && others[i].session == s;
        assert models[i].session == s;
      }
    }
  }

  lemma SessionsMore(models: seq<Instance>, m: Instance)
    ensures SessionsOf(models + [m]) == SessionsOf(models) + {m.session}
    ensures OneEach(models) && m.session !in SessionsOf(models) ==> OneEach(models + [m])
  {
    var more := models + [m];
    forall s ensures s in SessionsOf(more) <==> s in SessionsOf(models) + {m.session} {
      if s in SessionsOf(models) {
        var i :| 0 <= i < |models| && models[i].session == s;
        assert more[i].session == s;
      }
      assert more[|models|].session == m.session;
    }
  }

  lemma SessionsLess(models: seq<Instance>, i: nat)
    requires OneEach(models) && i < |models|
    ensures SessionsOf(Without(models, i)) == SessionsOf(models) - {models[i].session} && OneEach(Without(models, i))
  {
    var r := Without(models, i);
    forall k | 0 <= k < |r| ensures r[k].session != models[i].session {
      assert r[k] == models[if k < i then k else k + 1];
    }
    forall s ensures s in SessionsOf(r) <==> s in SessionsOf(models) - {models[i].session} {
      if s in SessionsOf(models) - {models[i].session} {
        var k :| 0 <= k < |models| && models[k].session == s;
        assert r[if k < i then k else k - 1].session == s;
      }
    }
  }

  lemma ComputedSession(m: Instance, workload: real)
    ensures var c := ComputedFor(m, workload);
      c.Computed? ==> c.inst.session == m.session && c.inst.profile == m.profile && c.inst.batch >= 1
  {
  }

  // Once a rebuild has failed it stays so.
  lemma {:induction false} RebuiltFails(profiles: Profiles, work: seq<Instance>, i: nat)
    requires i <= |work| && Rebuilt(profiles, work[..i]) == None
    ensures Rebuilt(profiles, work) == None
    decreases |work| - i
  {
    if i < |work| {
      assert work[..i + 1][..i] == work[..i];
      RebuiltFails(profiles, work, i + 1);
    } else {
      assert work[..i] == work;
    }
  }

  // Profiles for this GPU, each monotone and fast enough for its session.
  ghost predicate FitsAll(profiles: Profiles) {
    forall s {:trigger profiles[s]} | s in profiles :: Measured(profiles[s]) && Fits(profiles[s], s)
  }

  // A sound model with a batch, the profile of its session and a workload that passes the checks.
  ghost predicate Served(profiles: Profiles, m: Instance) {
    && m.session in profiles && m.profile == profiles[m.session] && m.batch >= 1
    && Sound(m) && Checkable(m.profile, m.session, m.workload)
  }

  ghost predicate Kept(profiles: Profiles, models: seq<Instance>) {
    OneEach(models) && forall i {:trigger models[i]} | 0 <= i < |models| :: Served(profiles, models[i])
  }

  /** What holds of a backend at all times. */
  ghost predicate Good(profiles: Profiles, g: Gpu) {
    && Kept(profiles, g.models) && g.exec >= 0.0
    && (if g.models == [] then g.exec == g.duty == 0.0 else g.duty > 0.0)
  }

  /** The models have the batches of the present cycle, except those of some sessions. */
  ghost predicate CurrentBut(g: Gpu, stale: set<Session>) {
    forall i {:trigger g.models[i]} | 0 <= i < |g.models| && g.models[i].session !in stale ::
      Current(g.models[i], g.duty)
  }

  lemma KeptSound(profiles: Profiles, models: seq<Instance>)
    requires Kept(profiles, models)
    ensures AllSound(models)
  {
    hide Sound, Checkable;
  }

  // The cycle depends on nothing that applying it changes.
  predicate SameTask(m: Instance, n: Instance) {
    n == m.(batch := n.batch, fwdLatency := n.fwdLatency, throughput := n.throughput)
  }

  predicate SameTasks(models: seq<Instance>, others: seq<Instance>) {
    |models| == |others| && forall i {:trigger models[i]} {:trigger others[i]} | 0 <= i < |models| ::
      SameTask(models[i], others[i])
  }

  lemma SameShare(m: Instance, n: Instance, duty: real)
    requires SameTask(m, n)
    ensures ShareOf(m, duty) == ShareOf(n, duty) && UsedBatch(m, duty) == UsedBatch(n, duty) &&
      PassTime(m, duty) == PassTime(n, duty)
    ensures Sound(m) <==> Sound(n)
  {
  }

  lemma AppliedCurrent(models: seq<Instance>, i: nat)
    requires AllSound(models) && i < |models| && CycleOf(models).Cycle?
    ensures var r := CycleOf(models);
      && |r.changes| == |models| && SameTask(models[i], Applied(models, r.changes)[i])
      && Current(Applied(models, r.changes)[i], r.duty) && Applied(models, r.changes)[i].batch >= 1
  {
    var r := CycleOf(models);
    var n := Applied(models, r.changes)[i];
    DutyIsLeast(models, i);
    SoundShares(models[i], r.duty);
    SameShare(models[i], n, r.duty);
    hide Sound, ShareOf, UsedBatch;
  }

  /** Computing the cycle anew never fails, and brings every model up to date. */
  lemma RefreshedKept(profiles: Profiles, models: seq<Instance>)
    requires Kept(profiles, models)
    ensures Refreshed(models).Some?
    ensures var g := Refreshed(models).value;
      && Good(profiles, g) && CurrentBut(g, {}) && SameTasks(models, g.models)
      && SessionsOf(g.models) == SessionsOf(models)
      && g.duty == DutyOf(models) && g.exec == ExecOf(models, g.duty) && g.overload == (g.exec > g.duty)
  {
    hide Sound, ShareOf, UsedBatch, Checkable, Current, SessionsOf, Overloaded, Unshared, ChangesOf;
    KeptSound(profiles, models);
    SoundCycle(models);
    var g := Refreshed(models).value;
    forall i | 0 <= i < |models| ensures SameTask(models[i], g.models[i]) && Served(profiles, g.models[i]) &&
      Current(g.models[i], g.duty) {
      AppliedCurrent(models, i);
      SameShare(models[i], g.models[i], g.duty);
    }
    SameSessions(models, g.models);
    if models != [] {
      DutyIsLeast(models, 0);
    }
  }

  // What is recorded of a new instance does not change the cycle it was measured in.
  lemma SameLast(models: seq<Instance>, m: Instance, n: Instance)
    requires SameTask(m, n)
    ensures var duty := DutyOf(models + [m]);
      DutyOf(models + [n]) == duty && ExecOf(models + [n], duty) == ExecOf(models + [m], duty)
  {
    assert (models + [m])[..|models|] == models && (models + [n])[..|models|] == models;
    SameShare(m, n, DutyOf(models + [m]));
    hide PassTime, UsedBatch, ShareOf;
  }

  lemma FitsOne(profiles: Profiles, s: Session)
    requires FitsAll(profiles) && s in profiles
    ensures Measured(profiles[s]) && Fits(profiles[s], s)
  {
  }

  // There is something to compute: the GPU is not full, and the session is new and has a profile.
  predicate Asked(profiles: Profiles, g: Gpu, s: Session) {
    Occupancy(g) < 1.0 && s !in SessionsOf(g.models) && s in profiles
  }

  lemma ServedNew(profiles: Profiles, s: Session, workload: real)
    requires FitsAll(profiles) && s in profiles
    ensures var c := ComputedFor(Blank(s, profiles[s]), workload);
      && (c.Computed? <==> Checkable(profiles[s], s, workload)) && (c.Computed? || c.Aborted?)
      && (c.Computed? ==> Served(profiles, c.inst) && c.inst.session == s)
  {
    FitsOne(profiles, s);
    ComputedSound(Blank(s, profiles[s]), workload);
    ComputedCheckable(Blank(s, profiles[s]), workload);
    hide Sound, ComputedFor, Checkable;
  }

  // The workload on record passes the checks again.
  lemma ComputedCheckable(m: Instance, workload: real)
    requires Measured(m.profile) && Fits(m.profile, m.session)
    ensures var c := ComputedFor(m, workload);
      c.Computed? ==> Checkable(m.profile, m.session, c.inst.workload)
  {
    MaxBatchCovered(m.profile, m.session);
    ComputedSound(m, workload);
    hide Sound, Throughput, LargestWithin, MaxBatchFor;
  }

  // With room for it, a new model is in time in the cycle it joins.
  lemma JoiningKept(profiles: Profiles, g: Gpu, m: Instance)
    requires Good(profiles, g) && Served(profiles, m) && m.session !in SessionsOf(g.models)
    ensures var duty := DutyOf(g.models + [m]);
      && (Joining(g, m).Ready? <==> ExecOf(g.models + [m], duty) <= duty) && !Joining(g, m).Died?
      && Kept(profiles, g.models + [m])
    ensures Joining(g, m).Ready? ==>
      SameTask(m, Joining(g, m).inst) && Joining(g, m).inst.batch >= 1 && 0.0 <= Joining(g, m).occupancy <= 1.0
  {
    hide Sound, ShareOf, UsedBatch, Checkable, SessionsOf, ExecOf, Overloaded, Unshared;
    var more := g.models + [m];
    SessionsMore(g.models, m);
    KeptSound(profiles, more);
    SoundCycle(more);
    DutyIsLeast(more, |g.models|);
    SoundShares(m, DutyOf(more));
    Ratio(ExecOf(more, DutyOf(more)), DutyOf(more));
  }

  lemma Ratio(x: real, y: real)
    requires y > 0.0 && x >= 0.0
    ensures x <= y ==> 0.0 <= x / y <= 1.0
  {
    if x <= y {
      var q := x / y;
      assert q * y == x;
    }
  }

  /**
   A session is taken exactly when the GPU is not full, the session is new here and has a profile,
   its workload passes the checks, and all the models together run no longer than their cycle.
   The process ends exactly when there was something to compute and the workload fails a check.
   */
  lemma PrepareIff(profiles: Profiles, g: Gpu, s: Session, workload: real)
    requires FitsAll(profiles) && Good(profiles, g)
    ensures var r := Prepare(profiles, g, s, workload);
      && (r.Died? <==> Asked(profiles, g, s) && !Checkable(profiles[s], s, workload))
      && (r.Ready? <==> Asked(profiles, g, s) && Checkable(profiles[s], s, workload) && Room(profiles, g, s, workload))
      && (r.Ready? ==> Served(profiles, r.inst) && r.inst.session == s && 0.0 <= r.occupancy <= 1.0)
  {
    hide Sound, Checkable, ComputedFor, SessionsOf, Joining, Kept, Served;
    if Asked(profiles, g, s) {
      ServedNew(profiles, s, workload);
      var c := ComputedFor(Blank(s, profiles[s]), workload);
      if c.Computed? {
        GoodKept(profiles, g);
        JoiningKept(profiles, g, c.inst);
        if Joining(g, c.inst).Ready? {
          SameServed(profiles, c.inst, Joining(g, c.inst).inst);
        }
      }
    }
  }

  lemma GoodKept(profiles: Profiles, g: Gpu)
    requires Good(profiles, g)
    ensures Kept(profiles, g.models)
  {
  }

  lemma SameServed(profiles: Profiles, m: Instance, n: Instance)
    requires SameTask(m, n) && Served(profiles, m) && n.batch >= 1
    ensures Served(profiles, n) && n.session == m.session
  {
    SameShare(m, n, 0.0);
    hide Sound;
  }

  // The models and the new one run no longer than their common cycle.
  predicate Room(profiles: Profiles, g: Gpu, s: Session, workload: real)
    requires s in profiles
  {
    match ComputedFor(Blank(s, profiles[s]), workload)
    case Computed(m) => var more := g.models + [m]; ExecOf(more, DutyOf(more)) <= DutyOf(more)
    case _ => false
  }

  /** What is ready to load does load, and then the models run no longer than their cycle. */
  lemma ReadyLoads(profiles: Profiles, g: Gpu, s: Session, workload: real)
    requires FitsAll(profiles) && Good(profiles, g) && Prepare(profiles, g, s, workload).Ready?
    ensures var r := Loaded(g, Prepare(profiles, g, s, workload).inst);
      && r.Some? && Good(profiles, r.value) && CurrentBut(r.value, {}) && r.value.exec <= r.value.duty
      && !r.value.overload
      && SessionsOf(r.value.models) == SessionsOf(g.models) + {s}
  {
    hide Sound, Checkable, ComputedFor, Joining, Refreshed, CurrentBut, Good, SessionsOf;
    GoodKept(profiles, g);
    ServedNew(profiles, s, workload);
    var m := ComputedFor(Blank(s, profiles[s]), workload).inst;
    var n := Joining(g, m).inst;
    JoiningKept(profiles, g, m);
    SameServed(profiles, m, n);
    SameLast(g.models, m, n);
    SessionsMore(g.models, n);
    hide ExecOf, DutyOf;
    RefreshedKept(profiles, g.models + [n]);
  }

  // What a new model offers in a cycle of d, for a workload of w.
  ghost predicate KeepsUp(m: Instance, d: real) {
    d > 0.0 && m.throughput * d > m.workload * d - EPS * MILLION
  }

  lemma TunedKeepsUp(m: Instance, d: real)
    requires d > 0.0 && m.workload > 0.0 && UsedBatch(m, d) >= 0
    requires m.throughput == Throughput(UsedBatch(m, d), d)
    ensures KeepsUp(m, d)
  {
    var x := Arrivals(d, m.workload);
    ArrivalsPositive(d, m.workload);
    assert x * MILLION == d * m.workload;
    hide Arrivals;
    CeilEpsBounds(x, EPS);
    assert m.throughput * d == UsedBatch(m, d) as real * MILLION;
  }

  // A residue is served in full.
  lemma ResidueKeepsUp(m: Instance, maxBatch: nat, workload: real)
    requires m.profile.Monotone() && Fits(m.profile, m.session) && m.profile.Covers(maxBatch) && workload >= EPS
    requires Residue(m, maxBatch, workload).Computed?
    ensures Residue(m, maxBatch, workload).inst.throughput >= workload
  {
    var p, s := m.profile, m.session;
    FirstLateIs(p, s, workload, maxBatch, 1);
    var b := ResidueBatch(p, s, workload, maxBatch);
    hide FirstLate, Throughput, Profile.Monotone;
    ResidueCycle(p, s, b, workload,
      Minimum(s.SlaMicros() - p.Forward(b) - Overhead(p), b as real * MILLION / workload));
  }

  // Computed for itself, a model serves all of its workload.
  lemma ComputedKeepsUp(m: Instance, workload: real)
    requires Measured(m.profile) && Fits(m.profile, m.session) && ComputedFor(m, workload).Computed?
    ensures var n := ComputedFor(m, workload).inst;
      && n.throughput >= n.workload && (n.workload == workload || workload == 0.0 || workload >= n.workload)
  {
    MaxBatchCovered(m.profile, m.session);
    ComputedSound(m, workload);
    var b := MaxBatchFor(m.profile, m.session);
    hide Sound, Throughput, LargestWithin, MaxBatchFor, Fits;
    if !(workload == 0.0 || workload >= Throughput(b, m.profile.Forward(b))) {
      ResidueKeepsUp(m, b, workload);
    }
  }

  // The cycle that a new model's throughput is reckoned in.
  function JoinedCycle(g: Gpu, m: Instance): real {
    if g.duty != 0.0 && m.maxDutyCycle >= g.duty then g.duty else m.maxDutyCycle
  }

  // A cycle no longer than the new model's stays as it is.
  lemma JoinedDuty(g: Gpu, m: Instance)
    requires g.duty == DutyOf(g.models) > 0.0 && m.maxDutyCycle >= g.duty
    ensures DutyOf(g.models + [m]) == g.duty
  {
    assert (g.models + [m])[..|g.models|] == g.models;
  }

  lemma JoiningIs(g: Gpu, m: Instance)
    requires Joining(g, m).Ready?
    ensures var share := ShareOf(m, DutyOf(g.models + [m]));
      share.Share? && Joining(g, m).inst == Tuned(g, m, share.change)
  {
    LastChange(g.models, m);
    hide ShareOf, Tuned, Unshared, ExecOf, Overloaded, ChangesOf, DutyOf;
  }

  lemma PlainKeepsUp(m: Instance, d: real)
    requires m.throughput >= m.workload && d > 0.0
    ensures KeepsUp(m, d)
  {
    assert (m.throughput - m.workload) * d >= 0.0;
  }

  lemma SoundIs(m: Instance)
    requires Sound(m)
    ensures m.maxDutyCycle > 0.0 && m.workload >= EPS
  {
  }

  lemma JoiningKeepsUp(g: Gpu, m: Instance)
    requires Sound(m) && m.throughput >= m.workload && g.duty == DutyOf(g.models) >= 0.0 && Joining(g, m).Ready?
    ensures var n := Joining(g, m).inst; KeepsUp(n, JoinedCycle(g, n)) && n.workload == m.workload
  {
    hide Sound, CycleOf, ShareOf, UsedBatch, DutyOf, KeepsUp, Joining, Throughput;
    var n := Joining(g, m).inst;
    JoiningIs(g, m);
    SoundIs(m);
    if g.duty > 0.0 && m.maxDutyCycle >= g.duty {
      JoinedDuty(g, m);
      SoundShares(m, g.duty);
      SameShare(m, n, g.duty);
      TunedKeepsUp(n, g.duty);
    } else {
      PlainKeepsUp(m, m.maxDutyCycle);
    }
  }

  lemma LastChange(models: seq<Instance>, m: Instance)
    ensures var r := CycleOf(models + [m]);
      r.Cycle? ==>
        var share := ShareOf(m, r.duty);
        |r.changes| == |models| + 1 && share.Share? && r.changes[|models|] == share.change
  {
    hide ShareOf, DutyOf, ExecOf, Overloaded;
    assert (models + [m])[|models|] == m;
  }

  /**
   What a backend offers a session falls short of the workload it takes on by less than 0.001
   requests in a duty cycle, and the workload is all of what was asked unless that fills the GPU.
   */
  lemma ReadyKeepsUp(profiles: Profiles, g: Gpu, s: Session, workload: real)
    requires FitsAll(profiles) && Good(profiles, g) && g.duty == DutyOf(g.models) &&
      Prepare(profiles, g, s, workload).Ready?
    ensures var m := Prepare(profiles, g, s, workload).inst;
      KeepsUp(m, JoinedCycle(g, m)) && (m.workload == workload || workload == 0.0 || workload >= m.workload)
  {
    ServedNew(profiles, s, workload);
    FitsOne(profiles, s);
    ComputedKeepsUp(Blank(s, profiles[s]), workload);
    hide ComputedFor, Measured, Fits, Checkable, Joining, Sound, DutyOf, Kept, KeepsUp;
    JoiningKeepsUp(g, ComputedFor(Blank(s, profiles[s]), workload).inst);
  }

  lemma KeptLess(profiles: Profiles, models: seq<Instance>, i: nat)
    requires Kept(profiles, models) && i < |models|
    ensures Kept(profiles, Without(models, i))
  {
    hide Sound, Checkable, Served;
    SessionsLess(models, i);
    var r := Without(models, i);
    forall k | 0 <= k < |r| ensures Served(profiles, r[k]) {
      assert r[k] == models[if k < i then k else k + 1];
    }
  }

  /** A loaded session can always leave; the others keep their tasks and are brought up to date. */
  lemma UnloadedKept(profiles: Profiles, g: Gpu, s: Session)
    requires Good(profiles, g)
    ensures Unloaded(g, s).Some? <==> s in SessionsOf(g.models)
    ensures Unloaded(g, s).Some? ==>
      var g' := Unloaded(g, s).value;
      && Good(profiles, g') && CurrentBut(g', {}) && SameTasks(Without(g.models, IndexOf(g.models, s)), g'.models)
      && SessionsOf(g'.models) == SessionsOf(g.models) - {s}
  {
    hide Sound, Checkable, CurrentBut, Kept, Refreshed, SessionsOf, Without, Served, SameTasks;
    if s in SessionsOf(g.models) {
      var i := IndexOf(g.models, s);
      GoodKept(profiles, g);
      KeptLess(profiles, g.models, i);
      KeptOneEach(profiles, g.models);
      SessionsLess(g.models, i);
      RefreshedKept(profiles, Without(g.models, i));
    }
  }

  lemma KeptOneEach(profiles: Profiles, models: seq<Instance>)
    requires Kept(profiles, models)
    ensures OneEach(models)
  {
  }

  // An update whose throughput hardly moves leaves the cycle as it is.
  predicate Skips(g: Gpu, s: Session, workload: real)
    requires s in SessionsOf(g.models)
  {
    var m := g.models[IndexOf(g.models, s)];
    var c := ComputedFor(m, workload);
    c.Computed? && !Moved(m.throughput, c.inst.throughput)
  }

  // The present cycle, the forward pass of the batch for this workload and the overhead fit the objective.
  predicate Timely(profiles: Profiles, duty: real, s: Session, workload: real) {
    && s in profiles
    && var p := profiles[s];
       && p.Covers(MaxBatchFor(p, s)) && p.Forward(MaxBatchFor(p, s)) != 0.0 && p.Covers(BatchFor(p, s, workload))
       && duty + p.Forward(BatchFor(p, s, workload)) + Overhead(p) <= s.SlaMicros()
  }

  lemma KeptUpdate(profiles: Profiles, models: seq<Instance>, i: nat, workload: real)
    requires FitsAll(profiles) && Kept(profiles, models) && i < |models|
    ensures var s, c := models[i].session, ComputedFor(models[i], workload);
      && s in profiles && models[i].profile == profiles[s]
      && (c.Computed? <==> Checkable(profiles[s], s, workload)) && (c.Computed? || c.Aborted?)
      && (c.Computed? ==> Kept(profiles, models[i := c.inst]) && c.inst.session == s)
      && (c.Computed? ==>
            forall duty {:trigger InObjective(c.inst, duty)} ::
              InObjective(c.inst, duty) <==> Timely(profiles, duty, s, workload))
  {
    var m := models[i];
    assert Served(profiles, m);
    FitsOne(profiles, m.session);
    ComputedSound(m, workload);
    ComputedCheckable(m, workload);
    var c := ComputedFor(m, workload);
    if c.Computed? {
      forall duty ensures InObjective(c.inst, duty) <==> Timely(profiles, duty, m.session, workload) {
        ComputedInObjectiveIff(m, workload, duty);
      }
      hide Sound, Checkable, ComputedFor, MaxBatchFor, InObjective, Timely, Measured, Fits;
      SameSessions(models, models[i := c.inst]);
    }
  }

  // What an update does to a good backend.
  ghost predicate UpdateKeeps(profiles: Profiles, g: Gpu, s: Session, workload: real, g': Gpu)
    requires s in SessionsOf(g.models)
  {
    var i := IndexOf(g.models, s);
    && Good(profiles, g') && SessionsOf(g'.models) == SessionsOf(g.models)
    && (if Skips(g, s, workload) then
          && g' == g.(models := g'.models) && |g'.models| == |g.models|
          && g'.models == g.models[i := g'.models[i]] && g'.models[i].session == s
          && (InObjective(g'.models[i], g.duty) <==> Timely(profiles, g.duty, s, workload))
        else
          CurrentBut(g', {}))
  }

  /**
   An update survives exactly if the session is loaded and its workload passes the checks. If it
   leaves the cycle alone, the other models are as they were, and the updated one keeps its
   objective exactly if its new batch is timely in the present cycle.
   */
  lemma UpdatedKept(profiles: Profiles, g: Gpu, s: Session, workload: real)
    requires FitsAll(profiles) && Good(profiles, g)
    ensures Updated(g, s, workload).Some? <==>
      s in SessionsOf(g.models) && s in profiles && Checkable(profiles[s], s, workload)
    ensures Updated(g, s, workload).Some? ==> UpdateKeeps(profiles, g, s, workload, Updated(g, s, workload).value.gpu)
  {
    hide Sound, Checkable, CurrentBut, Kept, Refreshed, SessionsOf, Served, SameTasks, ComputedFor, InObjective, Timely;
    if s in SessionsOf(g.models) {
      var i := IndexOf(g.models, s);
      GoodKept(profiles, g);
      KeptUpdate(profiles, g.models, i, workload);
      var c := ComputedFor(g.models[i], workload);
      if c.Computed? {
        SameSessions(g.models, g.models[i := c.inst]);
        RefreshedKept(profiles, g.models[i := c.inst]);
      }
    }
  }

  ghost function Spilled(spill: Spill): set<Session> {
    set i | 0 <= i < |spill| :: spill[i].0
  }

  // Each session goes with the workload its model had.
  ghost predicate WithWorkloads(spill: Spill, models: seq<Instance>) {
    forall i {:trigger spill[i]} | 0 <= i < |spill| :: Recorded(models, spill[i].0, spill[i].1)
  }

  ghost predicate Recorded(models: seq<Instance>, s: Session, workload: real) {
    exists m {:trigger m in models} :: m in models && m.session == s && m.workload == workload
  }

  ghost predicate SpilledOnce(spill: Spill) {
    forall i, j {:trigger spill[i], spill[j]} | 0 <= i < j < |spill| :: spill[i].0 != spill[j].0
  }

  // Each of the models is on the GPU again or spilled, and the GPU is not overloaded.
  ghost predicate Divided(profiles: Profiles, models: seq<Instance>, g: Gpu, spill: Spill) {
    && Good(profiles, g) && CurrentBut(g, {}) && g.exec <= g.duty && WithWorkloads(spill, models) && SpilledOnce(spill)
    && SessionsOf(g.models) !! Spilled(spill) && SessionsOf(g.models) + Spilled(spill) == SessionsOf(models)
  }

  lemma SpilledNext(spill: Spill, s: Session, w: real)
    ensures Spilled(spill + [(s, w)]) == Spilled(spill) + {s}
    ensures SpilledOnce(spill) && s !in Spilled(spill) ==> SpilledOnce(spill + [(s, w)])
  {
    var more := spill + [(s, w)];
    forall t ensures t in Spilled(more) <==> t in Spilled(spill) + {s} {
      if t in Spilled(spill) {
        var i :| 0 <= i < |spill| && spill[i].0 == t;
        assert more[i].0 == t;
      }
      assert more[|spill|].0 == s;
    }
  }

  lemma WorkloadsMore(spill: Spill, models: seq<Instance>, m: Instance)
    requires WithWorkloads(spill, models)
    ensures WithWorkloads(spill, models + [m]) && WithWorkloads(spill + [(m.session, m.workload)], models + [m])
  {
    var all := models + [m];
    forall i | 0 <= i < |spill| ensures Recorded(all, spill[i].0, spill[i].1) {
      assert Recorded(models, spill[i].0, spill[i].1);
      var n :| n in models && n.session == spill[i].0 && n.workload == spill[i].1;
      assert n in all;
    }
    assert m in all;
    assert Recorded(all, m.session, m.workload);
  }

  lemma ReloadedDivides(profiles: Profiles, models: seq<Instance>, g: Gpu, spill: Spill, m: Instance)
    requires FitsAll(profiles) && Divided(profiles, models, g, spill) && Served(profiles, m) &&
      m.session !in SessionsOf(models)
    ensures var r := Reloaded(profiles, g, spill, m);
      r.Some? && Divided(profiles, models + [m], r.value.gpu, r.value.value)
  {
    hide Sound, Checkable, CurrentBut, Prepare, Loaded, SessionsOf, Spilled, WithWorkloads, Good, FitsAll, Room;
    PrepareIff(profiles, g, m.session, m.workload);
    SessionsMore(models, m);
    WorkloadsMore(spill, models, m);
    SpilledNext(spill, m.session, m.workload);
    var r := Prepare(profiles, g, m.session, m.workload);
    assert !r.Died?;
    if r.Ready? {
      ReadyLoads(profiles, g, m.session, m.workload);
    }
  }

  lemma NoneDivided(profiles: Profiles)
    ensures Divided(profiles, [], IDLE, [])
  {
  }

  lemma KeptFirst(profiles: Profiles, models: seq<Instance>, n: nat)
    requires Kept(profiles, models) && |models| == n + 1
    ensures Kept(profiles, models[..n]) && models == models[..n] + [models[n]]
    ensures Served(profiles, models[n]) && models[n].session !in SessionsOf(models[..n])
  {
    hide Sound, Checkable, Served;
  }

  lemma {:induction false} RebuiltDivides(profiles: Profiles, models: seq<Instance>)
    requires FitsAll(profiles) && Kept(profiles, models)
    ensures var r := Rebuilt(profiles, models);
      r.Some? && Divided(profiles, models, r.value.gpu, r.value.value)
  {
    hide Kept, Divided, Reloaded, FitsAll, Served;
    if models == [] {
      NoneDivided(profiles);
    } else {
      var n := |models| - 1;
      KeptFirst(profiles, models, n);
      RebuiltDivides(profiles, models[..n]);
      var o := Rebuilt(profiles, models[..n]).value;
      ReloadedDivides(profiles, models[..n], o.gpu, o.value, models[n]);
    }
  }

  ghost predicate Descending(models: seq<Instance>) {
    forall i, j {:trigger models[i], models[j]} | 0 <= i < j < |models| :: models[i].fwdLatency >= models[j].fwdLatency
  }

  lemma {:induction false} PositionSplits(sorted: seq<Instance>, m: Instance)
    requires Descending(sorted)
    ensures var k := Position(sorted, m);
      && (forall i {:trigger sorted[i]} | 0 <= i < k :: sorted[i].fwdLatency >= m.fwdLatency)
      && (forall i {:trigger sorted[i]} | k <= i < |sorted| :: sorted[i].fwdLatency <= m.fwdLatency)
  {
    if sorted != [] && sorted[0].fwdLatency >= m.fwdLatency {
      PositionSplits(sorted[1..], m);
      var k := Position(sorted, m);
      forall i | 1 <= i < |sorted|
        ensures if i < k then sorted[i].fwdLatency >= m.fwdLatency else sorted[i].fwdLatency <= m.fwdLatency
      {
        assert sorted[i] == sorted[1..][i - 1];
      }
    }
  }

  lemma InsertedAt(models: seq<Instance>, k: nat, m: Instance, i: nat)
    requires k <= |models| && i < |Inserted(models, k, m)|
    ensures |Inserted(models, k, m)| == |models| + 1
    ensures Inserted(models, k, m)[i] == if i < k then models[i] else if i == k then m else models[i - 1]
  {
  }

  lemma InsertedDescends(sorted: seq<Instance>, m: Instance)
    requires Descending(sorted)
    ensures Descending(Inserted(sorted, Position(sorted, m), m))
  {
    var k := Position(sorted, m);
    PositionSplits(sorted, m);
    var r := Inserted(sorted, k, m);
    hide Inserted, Position;
    forall i, j | 0 <= i < j < |r| ensures r[i].fwdLatency >= r[j].fwdLatency {
      InsertedAt(sorted, k, m, i);
      InsertedAt(sorted, k, m, j);
    }
  }

  lemma NoneDescends()
    ensures Descending([])
  {
  }

  lemma InsertedMembers(models: seq<Instance>, k: nat, m: Instance)
    requires k <= |models|
    ensures multiset(Inserted(models, k, m)) == multiset(models) + multiset{m}
  {
    var a, b := models[..k], models[k..];
    assert Inserted(models, k, m) == a + [m] + b;
    hide Inserted;
    assert models == a + b;
  }

  lemma AppendedMembers(models: seq<Instance>)
    requires models != []
    ensures var n := |models| - 1; multiset(models) == multiset(models[..n]) + multiset{models[n]}
  {
    var n := |models| - 1;
    assert models == models[..n] + [models[n]];
  }

  /** The order of a rebuild falls in latency. */
  lemma {:induction false} ByLatencyDescends(models: seq<Instance>)
    ensures Descending(ByLatency(models))
  {
    hide Inserted, Position, Descending;
    if models == [] {
      NoneDescends();
    } else {
      var n := |models| - 1;
      ByLatencyDescends(models[..n]);
      InsertedDescends(ByLatency(models[..n]), models[n]);
    }
  }

  /** It has each model once. */
  lemma {:induction false} ByLatencyPermutes(models: seq<Instance>)
    ensures multiset(ByLatency(models)) == multiset(models)
  {
    hide Inserted, Position;
    if models != [] {
      var n := |models| - 1;
      ByLatencyPermutes(models[..n]);
      var sorted := ByLatency(models[..n]);
      InsertedMembers(sorted, Position(sorted, models[n]), models[n]);
      AppendedMembers(models);
    }
  }

  // A permutation of served models is as good.
  lemma KeptPermuted(profiles: Profiles, models: seq<Instance>, others: seq<Instance>)
    requires Kept(profiles, models) && multiset(models) == multiset(others)
    ensures Kept(profiles, others) && SessionsOf(others) == SessionsOf(models)
    ensures forall m {:trigger m in others} {:trigger m in models} :: m in others <==> m in models
  {
    hide Sound, Checkable, Served;
    forall m ensures m in others <==> m in models {
      assert m in multiset(others) <==> m in multiset(models);
    }
    forall i | 0 <= i < |others| ensures Served(profiles, others[i]) {
      assert others[i] in others;
    }
    forall i, j | 0 <= i < j < |others| ensures others[i].session != others[j].session {
      PermutedApart(models, others, i, j);
    }
    forall s ensures s in SessionsOf(others) <==> s in SessionsOf(models) {
      if s in SessionsOf(others) {
        var i :| 0 <= i < |others| && others[i].session == s;
        assert others[i] in others;
        var k :| 0 <= k < |models| && models[k] == others[i];
      }
      if s in SessionsOf(models) {
        var i :| 0 <= i < |models| && models[i].session == s;
        assert models[i] in models;
        var k :| 0 <= k < |others| && others[k] == models[i];
      }
    }
  }

  lemma PermutedApart(models: seq<Instance>, others: seq<Instance>, i: nat, j: nat)
    requires OneEach(models) && multiset(models) == multiset(others) && i < j < |others|
    ensures others[i].session != others[j].session
  {
    assert others[i] in multiset(models) && others[j] in multiset(models);
    var a :| 0 <= a < |models| && models[a] == others[i];
    var b :| 0 <= b < |models| && models[b] == others[j];
    if a == b {
      Twice(others, i, j);
      Single(models, a);
    }
  }

  lemma Twice(models: seq<Instance>, i: nat, j: nat)
    requires i < j < |models| && models[i] == models[j]
    ensures multiset(models)[models[i]] >= 2
  {
    assert models == models[..i] + [models[i]] + models[i + 1..j] + [models[j]] + models[j + 1..];
  }

  lemma Single(models: seq<Instance>, i: nat)
    requires OneEach(models) && i < |models|
    ensures multiset(models)[models[i]] == 1
  {
    var a, b := models[..i], models[i + 1..];
    assert models == a + [models[i]] + b;
    assert models[i] !in a && models[i] !in b;
    assert multiset(a)[models[i]] == 0 && multiset(b)[models[i]] == 0;
  }

  /**
   An overloaded backend always survives being built up again. Every session it had is on it
   again or spilled once with its workload, and the models now run no longer than their cycle.
   */
  lemma SpilledOutDivides(profiles: Profiles, g: Gpu)
    requires FitsAll(profiles) && Good(profiles, g)
    ensures var r := SpilledOut(profiles, g);
      && r.Some?
      && (g.overload ==> Divided(profiles, g.models, r.value.gpu, r.value.value) && !r.value.gpu.overload)
      && (!g.overload ==> r.value == Outcome(g, []))
  {
    hide Kept, Rebuilt, ByLatency, FitsAll, Sound, SessionsOf;
    if g.overload {
      GoodKept(profiles, g);
      ByLatencyPermutes(g.models);
      KeptPermuted(profiles, g.models, ByLatency(g.models));
      RebuiltDivides(profiles, ByLatency(g.models));
    }
  }

  datatype Event =
    | Load(session: Session, workload: real)
    | Unload(session: Session)
    | Update(session: Session, workload: real)
    | Rebuild

  /** One step of a backend: what can be loaded is. */
  function Step(profiles: Profiles, g: Gpu, e: Event): Option<Gpu> {
    match e
    case Load(s, w) => (
      match Prepare(profiles, g, s, w)
      case Died => None
      case Refused => Some(g)
      case Ready(inst, _) => Loaded(g, inst))
    case Unload(s) => Unloaded(g, s)
    case Update(s, w) => (
      match Updated(g, s, w)
      case None => None
      case Some(o) => Some(o.gpu))
    case Rebuild =>
      match SpilledOut(profiles, g)
      case None => None
      case Some(o) => Some(o.gpu)
  }

  /** The backend after some events, or None if the process has ended. */
  function RunOf(profiles: Profiles, events: seq<Event>): Option<Gpu> {
    if events == [] then Some(IDLE)
    else
      match RunOf(profiles, events[..|events| - 1])
      case None => None
      case Some(g) => Step(profiles, g, events[|events| - 1])
  }

  /** The events a backend survives. */
  predicate Allowed(profiles: Profiles, g: Gpu, e: Event) {
    match e
    case Load(s, w) => Asked(profiles, g, s) ==> Checkable(profiles[s], s, w)
    case Unload(s) => s in SessionsOf(g.models)
    case Update(s, w) => s in SessionsOf(g.models) && s in profiles && Checkable(profiles[s], s, w)
    case Rebuild => true
  }

  // An update that leaves the cycle as it is; the rest of what changes anything computes it anew.
  predicate Unrefreshed(g: Gpu, e: Event) {
    e.Update? && e.session in SessionsOf(g.models) && Skips(g, e.session, e.workload)
  }

  predicate Idles(profiles: Profiles, g: Gpu, e: Event) {
    (e.Load? && !Prepare(profiles, g, e.session, e.workload).Ready?) || (e.Rebuild? && !g.overload)
  }

  // The sessions updated since the cycle was last computed anew.
  ghost function StaleAfter(profiles: Profiles, g: Gpu, stale: set<Session>, e: Event): set<Session> {
    if Unrefreshed(g, e) then stale + {e.session} else if Idles(profiles, g, e) then stale else {}
  }

  ghost predicate AllInObjective(g: Gpu) {
    forall i {:trigger g.models[i]} | 0 <= i < |g.models| :: InObjective(g.models[i], g.duty)
  }

  // If the event leaves the cycle alone, the new batch is timely in it.
  predicate Harmless(profiles: Profiles, g: Gpu, e: Event) {
    Unrefreshed(g, e) ==> Timely(profiles, g.duty, e.session, e.workload)
  }

  lemma CurrentInObjective(g: Gpu)
    requires CurrentBut(g, {})
    ensures AllInObjective(g)
  {
    hide Current, InObjective;
    forall i | 0 <= i < |g.models| ensures InObjective(g.models[i], g.duty) {
      CurrentIsSafe(g.models[i], g.duty);
    }
  }

  lemma LoadStep(profiles: Profiles, g: Gpu, stale: set<Session>, e: Event)
    requires FitsAll(profiles) && Good(profiles, g) && CurrentBut(g, stale) && e.Load?
    ensures Step(profiles, g, e).Some? <==> Allowed(profiles, g, e)
    ensures Step(profiles, g, e).Some? ==>
      StepKeeps(profiles, g, stale, e, Step(profiles, g, e).value)
  {
    hide Good, FitsAll, Prepare, Loaded, Checkable, Room, CurrentBut, SessionsOf, Served, AllInObjective;
    PrepareIff(profiles, g, e.session, e.workload);
    if Prepare(profiles, g, e.session, e.workload).Ready? {
      ReadyLoads(profiles, g, e.session, e.workload);
      CurrentInObjective(Step(profiles, g, e).value);
    }
  }

  // What every step keeps: the invariant, and every model up to date that was not just updated in passing.
  ghost predicate StepKeeps(profiles: Profiles, g: Gpu, stale: set<Session>, e: Event, g': Gpu) {
    && Good(profiles, g') && CurrentBut(g', StaleAfter(profiles, g, stale, e))
    && (AllInObjective(g) ==> (AllInObjective(g') <==> Harmless(profiles, g, e)))
    && (e.Load? && g' != g ==> g'.exec <= g'.duty) && (e.Rebuild? && g.overload ==> g'.exec <= g'.duty)
  }

  lemma UnloadStep(profiles: Profiles, g: Gpu, stale: set<Session>, e: Event)
    requires FitsAll(profiles) && Good(profiles, g) && CurrentBut(g, stale) && e.Unload?
    ensures Step(profiles, g, e).Some? <==> Allowed(profiles, g, e)
    ensures Step(profiles, g, e).Some? ==>
      StepKeeps(profiles, g, stale, e, Step(profiles, g, e).value)
  {
    hide Good, FitsAll, Unloaded, CurrentBut, SessionsOf, AllInObjective, SameTasks;
    UnloadedKept(profiles, g, e.session);
    if Unloaded(g, e.session).Some? {
      CurrentInObjective(Step(profiles, g, e).value);
    }
  }

  lemma RebuildStep(profiles: Profiles, g: Gpu, stale: set<Session>, e: Event)
    requires FitsAll(profiles) && Good(profiles, g) && CurrentBut(g, stale) && e.Rebuild?
    ensures Step(profiles, g, e).Some? && Allowed(profiles, g, e)
    ensures StepKeeps(profiles, g, stale, e, Step(profiles, g, e).value)
  {
    hide Good, FitsAll, SpilledOut, CurrentBut, SessionsOf, AllInObjective, Spilled, WithWorkloads, SpilledOnce;
    SpilledOutDivides(profiles, g);
    if g.overload {
      CurrentInObjective(Step(profiles, g, e).value);
    }
  }

  lemma PassedOver(profiles: Profiles, g: Gpu, stale: set<Session>, s: Session, workload: real, g': Gpu)
    requires Good(profiles, g) && CurrentBut(g, stale) && s in SessionsOf(g.models) && Skips(g, s, workload)
    requires UpdateKeeps(profiles, g, s, workload, g')
    ensures CurrentBut(g', stale + {s})
    ensures AllInObjective(g) ==> (AllInObjective(g') <==> Timely(profiles, g.duty, s, workload))
  {
    hide Current, InObjective, Timely, Skips, Good, SessionsOf;
    var i := IndexOf(g.models, s);
    forall k | 0 <= k < |g'.models| && k != i ensures g'.models[k] == g.models[k] {
    }
    assert InObjective(g'.models[i], g.duty) <==> Timely(profiles, g.duty, s, workload);
  }

  lemma UpdateStep(profiles: Profiles, g: Gpu, stale: set<Session>, e: Event)
    requires FitsAll(profiles) && Good(profiles, g) && CurrentBut(g, stale) && e.Update?
    ensures Step(profiles, g, e).Some? <==> Allowed(profiles, g, e)
    ensures Step(profiles, g, e).Some? ==>
      StepKeeps(profiles, g, stale, e, Step(profiles, g, e).value)
  {
    hide Good, FitsAll, Updated, CurrentBut, SessionsOf, AllInObjective, Skips, Timely, Checkable;
    UpdatedKept(profiles, g, e.session, e.workload);
    if Updated(g, e.session, e.workload).Some? {
      var g' := Step(profiles, g, e).value;
      if Skips(g, e.session, e.workload) {
        PassedOver(profiles, g, stale, e.session, e.workload, g');
      } else {
        CurrentInObjective(g');
      }
    }
  }

  /** A step survives exactly if it is allowed, and then keeps the invariant. */
  lemma StepIsGood(profiles: Profiles, g: Gpu, stale: set<Session>, e: Event)
    requires FitsAll(profiles) && Good(profiles, g) && CurrentBut(g, stale)
    ensures Step(profiles, g, e).Some? <==> Allowed(profiles, g, e)
    ensures Step(profiles, g, e).Some? ==>
      StepKeeps(profiles, g, stale, e, Step(profiles, g, e).value)
  {
    hide Step, Allowed, StepKeeps, Good, FitsAll, CurrentBut;
    match e
    case Load(_, _) => LoadStep(profiles, g, stale, e);
    case Unload(_) => UnloadStep(profiles, g, stale, e);
    case Update(_, _) => UpdateStep(profiles, g, stale, e);
    case Rebuild => RebuildStep(profiles, g, stale, e);
  }

  // The sessions updated in passing since the last time that the run computed the cycle anew.
  ghost function StaleOf(profiles: Profiles, events: seq<Event>): set<Session> {
    if events == [] then {}
    else
      var before := events[..|events| - 1];
      match RunOf(profiles, before)
      case None => {}
      case Some(g) => StaleAfter(profiles, g, StaleOf(profiles, before), events[|events| - 1])
  }

  lemma IdleIsGood(profiles: Profiles)
    ensures Good(profiles, IDLE) && CurrentBut(IDLE, {}) && AllInObjective(IDLE)
  {
  }

  lemma {:induction false} RunIsGood(profiles: Profiles, events: seq<Event>)
    requires FitsAll(profiles) && RunOf(profiles, events).Some?
    ensures Good(profiles, RunOf(profiles, events).value)
    ensures CurrentBut(RunOf(profiles, events).value, StaleOf(profiles, events))
  {
    hide Good, FitsAll, CurrentBut, StaleAfter, Step, AllInObjective, Harmless, Allowed;
    if events == [] {
      IdleIsGood(profiles);
    } else {
      var n := |events| - 1;
      var before := events[..n];
      RunIsGood(profiles, before);
      StepIsGood(profiles, RunOf(profiles, before).value, StaleOf(profiles, before), events[n]);
    }
  }

  /**
   In every run, each model that was not updated in passing since the cycle was last computed
   runs a batch within its bounds and keeps its objective.
   */
  lemma RunKeepsObjective(profiles: Profiles, events: seq<Event>, i: nat)
    requires FitsAll(profiles) && RunOf(profiles, events).Some? && i < |RunOf(profiles, events).value.models|
    requires RunOf(profiles, events).value.models[i].session !in StaleOf(profiles, events)
    ensures InObjective(RunOf(profiles, events).value.models[i], RunOf(profiles, events).value.duty)
  {
    hide FitsAll, StaleOf, RunOf, Current, InObjective, Good;
    RunIsGood(profiles, events);
    var g := RunOf(profiles, events).value;
    CurrentIsSafe(g.models[i], g.duty);
  }

  ghost predicate AllowedAt(profiles: Profiles, events: seq<Event>, k: nat)
    requires k < |events|
  {
    RunOf(profiles, events[..k]).Some? && Allowed(profiles, RunOf(profiles, events[..k]).value, events[k])
  }

  /** A run survives exactly if each of its events is allowed when it comes. */
  lemma {:induction false} RunSurvivesIff(profiles: Profiles, events: seq<Event>)
    requires FitsAll(profiles)
    ensures RunOf(profiles, events).Some? <==>
      forall k {:trigger AllowedAt(profiles, events, k)} | 0 <= k < |events| :: AllowedAt(profiles, events, k)
  {
    hide FitsAll, Step, Allowed, StaleOf, Good, CurrentBut, StepKeeps;
    if events != [] {
      var n := |events| - 1;
      var before := events[..n];
      RunSurvivesIff(profiles, before);
      forall k | 0 <= k < n ensures AllowedAt(profiles, events, k) <==> AllowedAt(profiles, before, k) {
        assert before[..k] == events[..k];
      }
      if RunOf(profiles, before).Some? {
        RunIsGood(profiles, before);
        StepIsGood(profiles, RunOf(profiles, before).value, StaleOf(profiles, before), events[n]);
        assert AllowedAt(profiles, events, n) <==> RunOf(profiles, events).Some?;
        forall k | 0 <= k < n ensures AllowedAt(profiles, events, k) {
          assert AllowedAt(profiles, before, k);
        }
      } else {
        var k :| 0 <= k < n && !AllowedAt(profiles, before, k);
        assert !AllowedAt(profiles, events, k);
      }
    }
  }

  ghost predicate ObjectivesAt(profiles: Profiles, events: seq<Event>, k: nat)
    requires k <= |events|
  {
    RunOf(profiles, events[..k]).Some? && AllInObjective(RunOf(profiles, events[..k]).value)
  }

  ghost predicate HarmlessAt(profiles: Profiles, events: seq<Event>, k: nat)
    requires k < |events|
  {
    RunOf(profiles, events[..k]).Some? && Harmless(profiles, RunOf(profiles, events[..k]).value, events[k])
  }

  /**
   All models keep their objectives throughout a run if and only if each update that leaves the
   cycle alone is timely in it.
   */
  lemma {:induction false} RunObjectivesIff(profiles: Profiles, events: seq<Event>)
    requires FitsAll(profiles) && RunOf(profiles, events).Some?
    ensures (forall k {:trigger ObjectivesAt(profiles, events, k)} | 0 <= k <= |events| ::
      ObjectivesAt(profiles, events, k))
      <==> (forall k {:trigger HarmlessAt(profiles, events, k)} | 0 <= k < |events| :: HarmlessAt(profiles, events, k))
  {
    hide FitsAll, Step, Allowed, StaleOf, Good, CurrentBut, AllInObjective, Harmless, StaleAfter;
    assert events[..|events|] == events;
    if events == [] {
      IdleIsGood(profiles);
    } else {
      var n := |events| - 1;
      var before := events[..n];
      RunObjectivesIff(profiles, before);
      forall k | 0 <= k < n ensures HarmlessAt(profiles, events, k) <==> HarmlessAt(profiles, before, k) {
        assert before[..k] == events[..k];
      }
      forall k | 0 <= k <= n ensures ObjectivesAt(profiles, events, k) <==> ObjectivesAt(profiles, before, k) {
        assert before[..k] == events[..k];
      }
      RunIsGood(profiles, before);
      StepIsGood(profiles, RunOf(profiles, before).value, StaleOf(profiles, before), events[n]);
      assert ObjectivesAt(profiles, events, n) && HarmlessAt(profiles, events, n) ==>
        ObjectivesAt(profiles, events, n + 1);
      assert ObjectivesAt(profiles, events, n) && ObjectivesAt(profiles, events, n + 1) ==>
        HarmlessAt(profiles, events, n);
    }
  }

  method Handle(d: BackendDelegate, e: Event) returns (alive: bool)
    requires d.Valid()
    modifies d
    ensures alive ==> d.Valid()
    ensures Step(d.profiles, old(d.Value()), e) == if alive then Some(d.Value()) else None
  {
    hide BackendDelegate.Valid, Prepare, Loaded, Unloaded, Updated, SpilledOut;
    match e
    case Load(s, w) =>
      var r := d.PrepareLoadModel(s, w);
      alive := !r.Died?;
      if r.Ready? {
        alive := d.LoadModel(r.inst);
      }
    case Unload(s) => alive := d.UnloadModel(s);
    case Update(s, w) =>
      var throughput;
      alive, throughput := d.UpdateModelThroughput(s, w);
    case Rebuild =>
      var spill;
      alive, spill := d.SpillOutWorkload();
  }

  // Once the process has ended it stays so.
  lemma {:induction false} RunFails(profiles: Profiles, events: seq<Event>, i: nat)
    requires i <= |events| && RunOf(profiles, events[..i]) == None
    ensures RunOf(profiles, events) == None
    decreases |events| - i
  {
    hide Step;
    if i < |events| {
      assert events[..i + 1][..i] == events[..i];
      RunFails(profiles, events, i + 1);
    } else {
      assert events[..i] == events;
    }
  }

  /** Runs a backend through some events. */
  method Run(profiles: Profiles, events: seq<Event>) returns (r: Option<Gpu>)
    ensures r == RunOf(profiles, events)
  {
    var d := new BackendDelegate(0, profiles);
    hide BackendDelegate.Valid, Step;
    for k := 0 to |events|
      invariant fresh(d) && d.Valid() && d.profiles == profiles && RunOf(profiles, events[..k]) == Some(d.Value())
    {
      assert events[..k + 1][..k] == events[..k];
      var alive := Handle(d, events[k]);
      if !alive {
        RunFails(profiles, events, k + 1);
        return None;
      }
    }
    assert events[..|events|] == events;
    r := Some(d.Value());
  }
}
