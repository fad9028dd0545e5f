/** Duty-cycle arithmetic: how several models share a GPU in turns. Times are in microseconds, rates per second. */
module DutyCycles {
  import opened ModelProfiles

  /** A model session and its latency objective in milliseconds. */
  datatype Session = Session(name: nat, slaMs: nat) {
    function SlaMicros(): real {
      slaMs as real * 1000.0
    }
  }

  /** A model loaded on a backend. */
  datatype Instance = Instance(
    session: Session, profile: Profile, batch: nat, maxBatch: nat, fwdLatency: real,
    maxDutyCycle: real, workload: real, throughput: real)

  const MILLION := 1000000.0
  const EPS := 0.001

  function Ceiling(x: real): int {
    if x.Floor as real == x then x.Floor else x.Floor + 1
  }

  // The next whole number, except that just above a positive one that one will do.
  function BatchSizeCeilEps(x: real, eps: real): int {
    if x - x.Floor as real < eps && x.Floor != 0 then x.Floor else Ceiling(x)
  }

  /**
   A positive rate gives a batch of at least one, no larger than the true ceiling,
   short of it by less than eps.
   */
  lemma CeilEpsBounds(x: real, eps: real)
    requires x > 0.0 && eps > 0.0
    ensures 1 <= BatchSizeCeilEps(x, eps) <= Ceiling(x) && x < BatchSizeCeilEps(x, eps) as real + eps
  {
  }

  lemma CeilingIs(x: real, b: int)
    ensures Ceiling(x) <= b <==> x <= b as real
  {
  }

  // Time a batch adds before and after the GPU.
  function Overhead(p: Profile): real {
    p.pre.Total() + p.post.Total()
  }

  // A profile as measured and forced: batch size 1 takes some time, larger ones no less.
  ghost predicate Measured(p: Profile) {
    p.Monotone() && p.Covers(1) && p.Forward(1) > 0.0
  }

  /** With batch size 1, a full duty cycle and a forward pass fit the objective. */
  predicate Fits(p: Profile, s: Session) {
    && p.Covers(1) && p.Forward(1) > 0.0
    && 2.0 * p.Forward(1) + Overhead(p) <= s.SlaMicros()
  }

  // Requests that come in during a duty cycle of d.
  function Arrivals(d: real, workload: real): real {
    d * workload / MILLION
  }

  /** The instance keeps its objective in any duty cycle up to its maximum. */
  ghost predicate Sound(m: Instance) {
    && m.profile.Monotone() && Fits(m.profile, m.session)
    && m.workload >= EPS && m.maxDutyCycle > 0.0 && m.profile.Covers(m.maxBatch)
    && var design := Ceiling(Arrivals(m.maxDutyCycle, m.workload));
       && 1 <= design <= m.maxBatch
       && m.maxDutyCycle + m.profile.Forward(design) + Overhead(m.profile) <= m.session.SlaMicros()
  }

  // The batch for a duty cycle.
  function UsedBatch(m: Instance, duty: real): int {
    BatchSizeCeilEps(Arrivals(duty, m.workload), EPS)
  }

  lemma ArrivalsPositive(d: real, w: real)
    requires d > 0.0 && w > 0.0
    ensures Arrivals(d, w) > 0.0
  {
    assert d * w > 0.0;
  }

  lemma ArrivalsMonotone(d: real, e: real, w: real)
    requires d <= e && w >= 0.0
    ensures Arrivals(d, w) <= Arrivals(e, w)
  {
    assert (e - d) * w >= 0.0;
    assert e * w == d * w + (e - d) * w;
  }

  /** In every duty cycle up to the instance's own maximum, the batch used is within bounds and in time. */
  lemma SoundIsSafe(m: Instance, duty: real)
    requires Sound(m) && 0.0 < duty <= m.maxDutyCycle
    ensures 1 <= UsedBatch(m, duty) <= m.maxBatch && m.profile.Covers(UsedBatch(m, duty))
    ensures duty + m.profile.Forward(UsedBatch(m, duty)) + Overhead(m.profile) <= m.session.SlaMicros()
  {
    var x, y := Arrivals(duty, m.workload), Arrivals(m.maxDutyCycle, m.workload);
    ArrivalsPositive(duty, m.workload);
    ArrivalsMonotone(duty, m.maxDutyCycle, m.workload);
    hide Arrivals;
    CeilEpsBounds(x, EPS);
    CeilingIs(y, Ceiling(y));
    CeilingIs(x, Ceiling(y));
    assert m.profile.Forward(UsedBatch(m, duty)) <= m.profile.Forward(Ceiling(y));
  }

  /** What a workload comes to: a failed check, a GPU too slow, a division by zero, or an instance. */
  datatype Computed = Aborted | TooSlow | Degenerate | Computed(inst: Instance)

  // The least duty cycle in which b requests come in is one request short of b.
  function MinDutyCycle(b: nat, workload: real): real
    requires workload != 0.0
  {
    (b as real - 1.0) * MILLION / workload
  }

  predicate InTime(p: Profile, s: Session, workload: real, b: nat)
    requires p.Covers(b) && workload != 0.0
  {
    MinDutyCycle(b, workload) + p.Forward(b) + Overhead(p) <= s.SlaMicros()
  }

  // The first batch size from b on that is too large or not in time.
  function FirstLate(p: Profile, s: Session, workload: real, maxBatch: nat, b: nat): (r: nat)
    requires p.Covers(maxBatch) && workload != 0.0 && 1 <= b <= maxBatch + 1
    ensures b <= r <= maxBatch + 1
    decreases maxBatch + 1 - b
  {
    if b <= maxBatch && InTime(p, s, workload, b) then FirstLate(p, s, workload, maxBatch, b + 1) else b
  }

  // The largest batch for a residue of the workload, or 0.
  function ResidueBatch(p: Profile, s: Session, workload: real, maxBatch: nat): (r: nat)
    requires p.Covers(maxBatch) && workload != 0.0
    ensures r <= maxBatch
  {
    FirstLate(p, s, workload, maxBatch, 1) - 1
  }

  lemma {:induction false} FirstLateIs(p: Profile, s: Session, workload: real, maxBatch: nat, b: nat)
    requires p.Covers(maxBatch) && workload != 0.0 && 1 <= b <= maxBatch + 1
    ensures var r := FirstLate(p, s, workload, maxBatch, b);
      && (r > b ==> InTime(p, s, workload, r - 1))
      && (r <= maxBatch ==> !InTime(p, s, workload, r))
    decreases maxBatch + 1 - b
  {
    if b <= maxBatch && InTime(p, s, workload, b) {
      FirstLateIs(p, s, workload, maxBatch, b + 1);
    }
  }

  function Minimum(x: real, y: real): real {
    if x < y then x else y
  }

  function MaxBatchFor(p: Profile, s: Session): (r: nat)
    ensures r >= 1
  {
    MaxBatch(p, FullBudget(p, s.slaMs as real) / 2.0)
  }

  // What a full GPU serves.
  function Throughput(batch: nat, duty: real): real
    requires duty != 0.0
  {
    batch as real * MILLION / duty
  }

  // Enough work for all of the GPU, or an unknown amount: the duty cycle is one forward pass.
  function Saturated(m: Instance, maxBatch: nat): Computed
    requires m.profile.Covers(maxBatch) && m.profile.Forward(maxBatch) != 0.0
  {
    var f := m.profile.Forward(maxBatch);
    var t := Throughput(maxBatch, f);
    if t < EPS then Aborted
    else
      Computed(m.(
        batch := maxBatch, maxBatch := maxBatch, fwdLatency := f, maxDutyCycle := f, throughput := t, workload := t))
  }

  // A residue of the workload: the longest duty cycle that keeps up with it and keeps the objective.
  function Residue(m: Instance, maxBatch: nat, workload: real): Computed
    requires m.profile.Covers(maxBatch) && workload != 0.0
  {
    var p, b := m.profile, ResidueBatch(m.profile, m.session, workload, maxBatch);
    if b == 0 then TooSlow
    else
      var f := p.Forward(b);
      var d := Minimum(m.session.SlaMicros() - f - Overhead(p), b as real * MILLION / workload);
      if d == 0.0 then Degenerate
      else
        var t := Throughput(b, d);
        if t < workload - EPS || workload < EPS then Aborted
        else
          Computed(m.(
            batch := b, maxBatch := maxBatch, fwdLatency := f, maxDutyCycle := d, throughput := t, workload :=
              workload))
  }

  /** The batch size and the longest duty cycle for a workload. */
  function ComputedFor(m: Instance, workload: real): Computed {
    var b := MaxBatchFor(m.profile, m.session);
    if !m.profile.Covers(b) then Aborted
    else if m.profile.Forward(b) == 0.0 then Degenerate
    else if workload == 0.0 || workload >= Throughput(b, m.profile.Forward(b)) then Saturated(m, b)
    else Residue(m, b, workload)
  }

  // The batch size that an update to this workload comes to.
  function BatchFor(p: Profile, s: Session, workload: real): (b: nat)
    requires p.Covers(MaxBatchFor(p, s)) && p.Forward(MaxBatchFor(p, s)) != 0.0
    ensures b <= MaxBatchFor(p, s)
  {
    var b := MaxBatchFor(p, s);
    if workload == 0.0 || workload >= Throughput(b, p.Forward(b)) then b else ResidueBatch(p, s, workload, b)
  }

  lemma MaxBatchCovered(p: Profile, s: Session)
    requires Measured(p)
    ensures p.Covers(MaxBatchFor(p, s)) && p.Forward(MaxBatchFor(p, s)) >= p.Forward(1) > 0.0
    ensures LargestWithin(p, FullBudget(p, s.slaMs as real) / 2.0, MaxBatchFor(p, s))
  {
    MaxBatchIsLargest(p, FullBudget(p, s.slaMs as real) / 2.0);
  }

  lemma SaturatedArrivals(f: real, b: nat)
    requires f > 0.0
    ensures Arrivals(f, Throughput(b, f)) == b as real
  {
    var t := b as real * MILLION / f;
    assert f * t == b as real * MILLION;
  }

  /** An instance that fills the GPU keeps its objective if and only if its profile fits. */
  lemma SaturatedSoundIff(m: Instance)
    requires Measured(m.profile)
    ensures var b := MaxBatchFor(m.profile, m.session);
      && m.profile.Covers(b) && m.profile.Forward(b) > 0.0
      && (Saturated(m, b).Computed? ==>
            var n := Saturated(m, b).inst;
            && (Sound(n) <==> Fits(m.profile, m.session))
            && (Fits(m.profile, m.session) <==>
                n.maxDutyCycle + n.profile.Forward(n.batch) + Overhead(n.profile) <= n.session.SlaMicros()))
  {
    MaxBatchCovered(m.profile, m.session);
    var b := MaxBatchFor(m.profile, m.session);
    var f := m.profile.Forward(b);
    SaturatedArrivals(f, b);
    hide Arrivals;
  }

  lemma ShortCycle(d: real, b: nat, w: real)
    requires w > 0.0 && d <= b as real * MILLION / w
    ensures Arrivals(d, w) <= b as real
  {
    var q := b as real * MILLION / w;
    assert q * w == b as real * MILLION;
    ArrivalsMonotone(d, q, w);
  }

  lemma MinDutyPositive(b: nat, w: real)
    requires w > 0.0
    ensures b >= 2 ==> MinDutyCycle(b, w) > 0.0
    ensures b == 1 ==> MinDutyCycle(b, w) == 0.0
  {
    if b >= 2 {
      var x := (b as real - 1.0) * MILLION;
      assert x > 0.0;
      assert x / w > 0.0;
    }
  }

  // A duty cycle no longer than it takes b requests to come in keeps up with them.
  lemma KeepsPace(d: real, b: nat, w: real)
    requires d > 0.0 && w > 0.0 && b > 0 && d <= b as real * MILLION / w
    ensures Throughput(b, d) >= w
  {
    var n := b as real * MILLION;
    var q, t := n / w, n / d;
    assert q * w == n && t * d == n;
    assert w * (q - d) >= 0.0;
    assert (t - w) * d >= 0.0;
  }

  // The longest duty cycle for a residue is positive, in time, and keeps up.
  lemma ResidueCycle(p: Profile, s: Session, b: nat, w: real, d: real)
    requires p.Monotone() && Fits(p, s) && p.Covers(b) && w >= EPS && InTime(p, s, w, b)
    requires d == Minimum(s.SlaMicros() - p.Forward(b) - Overhead(p), b as real * MILLION / w)
    ensures d > 0.0 && Arrivals(d, w) <= b as real && Throughput(b, d) >= w
  {
    MinDutyPositive(b, w);
    ShortCycle(d, b, w);
    assert b as real * MILLION / w > 0.0;
    assert d > 0.0;
    KeepsPace(d, b, w);
  }

  lemma DesignWithin(m: Instance, b: nat)
    requires m.profile.Monotone() && Fits(m.profile, m.session) && m.workload >= EPS && m.maxDutyCycle > 0.0
    requires 1 <= b <= m.maxBatch && m.profile.Covers(m.maxBatch) && Arrivals(m.maxDutyCycle, m.workload) <= b as real
    requires m.maxDutyCycle + m.profile.Forward(b) + Overhead(m.profile) <= m.session.SlaMicros()
    ensures Sound(m)
  {
    ArrivalsPositive(m.maxDutyCycle, m.workload);
    var x := Arrivals(m.maxDutyCycle, m.workload);
    hide Arrivals;
    CeilingIs(x, b);
    CeilingIs(x, 0);
    assert m.profile.Forward(Ceiling(x)) <= m.profile.Forward(b);
  }

  /** A fitting profile serves every residue of at least 0.001 soundly, and fails no check. */
  lemma ResidueSound(m: Instance, maxBatch: nat, workload: real)
    requires Measured(m.profile) && Fits(m.profile, m.session) && m.profile.Covers(maxBatch) && workload >= EPS
    ensures Residue(m, maxBatch, workload).Computed?
    ensures Sound(Residue(m, maxBatch, workload).inst)
  {
    var p, s := m.profile, m.session;
    FirstLateIs(p, s, workload, maxBatch, 1);
    MinDutyPositive(1, workload);
    var b := ResidueBatch(p, s, workload, maxBatch);
    assert InTime(p, s, workload, 1);
    assert b >= 1;
    var d := Minimum(s.SlaMicros() - p.Forward(b) - Overhead(p), b as real * MILLION / workload);
    ResidueCycle(p, s, b, workload, d);
    hide Arrivals, InTime, MinDutyCycle, FirstLate, ResidueBatch;
    DesignWithin(Residue(m, maxBatch, workload).inst, b);
  }

  // The workload is nothing or not too small to be checked, and the GPU is not too slow to be.
  predicate Checkable(p: Profile, s: Session, workload: real) {
    && (workload == 0.0 || workload >= EPS)
    && p.Covers(MaxBatchFor(p, s)) && p.Forward(MaxBatchFor(p, s)) != 0.0
    && Throughput(MaxBatchFor(p, s), p.Forward(MaxBatchFor(p, s))) >= EPS
  }

  /**
   With a fitting profile: what comes out is sound; the process ends if and only if
   the workload or the GPU is below 0.001; no other failure is possible.
   */
  lemma ComputedSound(m: Instance, workload: real)
    requires Measured(m.profile) && Fits(m.profile, m.session)
    ensures var c := ComputedFor(m, workload);
      && (c.Computed? <==> Checkable(m.profile, m.session, workload))
      && (c.Computed? || c.Aborted?)
      && (c.Computed? ==>
            Sound(c.inst) && c.inst.session == m.session && c.inst.profile == m.profile && c.inst.batch >= 1)
  {
    MaxBatchCovered(m.profile, m.session);
    SaturatedSoundIff(m);
    var b := MaxBatchFor(m.profile, m.session);
    var t := Throughput(b, m.profile.Forward(b));
    if !(workload == 0.0 || workload >= t) {
      if workload >= EPS {
        ResidueSound(m, b, workload);
      } else {
        ResidueTooSmall(m, b, workload);
      }
    }
    hide Sound, Residue, Throughput, LargestWithin;
  }

  lemma ResidueTooSmall(m: Instance, maxBatch: nat, workload: real)
    requires Measured(m.profile) && Fits(m.profile, m.session) && m.profile.Covers(maxBatch)
    requires workload != 0.0 && workload < EPS
    ensures Residue(m, maxBatch, workload).Aborted?
  {
    var p, s := m.profile, m.session;
    FirstLateIs(p, s, workload, maxBatch, 1);
    assert MinDutyCycle(1, workload) == 0.0;
    assert InTime(p, s, workload, 1);
    var b := ResidueBatch(p, s, workload, maxBatch);
    if workload > 0.0 {
      MinDutyPositive(b, workload);
      assert b as real * MILLION / workload > 0.0;
    } else {
      assert b as real * MILLION / workload < 0.0;
    }
  }

  // The shortest of the maximum duty cycles; zero stands for none yet.
  function DutyOf(models: seq<Instance>): real {
    if models == [] then 0.0
    else
      var n := |models| - 1;
      var d := DutyOf(models[..n]);
      if d == 0.0 || models[n].maxDutyCycle < d then models[n].maxDutyCycle else d
  }

  datatype Change = Change(batch: nat, fwdLatency: real)

  /**
   One instance's share of a cycle: a failed check, or the batch it runs; one with too large a batch
   is overloaded.
   */
  datatype Share = NoShare | Share(overload: bool, change: Change)

  function ShareOf(m: Instance, duty: real): Share {
    var b := UsedBatch(m, duty);
    if b > m.maxBatch then
      if m.profile.Covers(m.maxBatch) then Share(true, Change(0, m.profile.Forward(m.maxBatch))) else NoShare
    else
      if b >= 1 && m.profile.Covers(b) then Share(false, Change(b, m.profile.Forward(b))) else NoShare
  }

  // What an instance runs for in each duty cycle.
  function PassTime(m: Instance, duty: real): real {
    if ShareOf(m, duty).Share? then ShareOf(m, duty).change.fwdLatency else 0.0
  }

  function ExecOf(models: seq<Instance>, duty: real): real {
    if models == [] then 0.0 else ExecOf(models[..|models| - 1], duty) + PassTime(models[|models| - 1], duty)
  }

  predicate Unshared(models: seq<Instance>, duty: real) {
    exists i {:trigger models[i]} :: 0 <= i < |models| && ShareOf(models[i], duty) == NoShare
  }

  predicate Overloaded(models: seq<Instance>, duty: real) {
    exists i {:trigger models[i]} :: 0 <= i < |models| && UsedBatch(models[i], duty) > models[i].maxBatch
  }

  function ChangesOf(models: seq<Instance>, duty: real): (r: seq<Change>)
    requires !Unshared(models, duty)
    ensures |r| == |models|
  {
    seq(|models|, i requires 0 <= i < |models| => ShareOf(models[i], duty).change)
  }

  datatype CycleResult = CheckFailed | Cycle(exec: real, duty: real, overload: bool, changes: seq<Change>)

  /** The common cycle of some models: the shortest of theirs, and the sum of their passes in it. */
  function CycleOf(models: seq<Instance>): CycleResult {
    var duty := DutyOf(models);
    if Unshared(models, duty) then CheckFailed
    else
      var exec := ExecOf(models, duty);
      Cycle(exec, duty, Overloaded(models, duty) || exec > duty, ChangesOf(models, duty))
  }

  lemma SharedMore(models: seq<Instance>, duty: real, i: nat)
    requires i < |models|
    ensures Unshared(models[..i + 1], duty) <==> Unshared(models[..i], duty) || ShareOf(models[i], duty) == NoShare
    ensures Overloaded(models[..i + 1], duty) <==>
      Overloaded(models[..i], duty) || UsedBatch(models[i], duty) > models[i].maxBatch
    ensures ExecOf(models[..i + 1], duty) == ExecOf(models[..i], duty) + PassTime(models[i], duty)
  {
    hide ShareOf, UsedBatch;
    var s, t := models[..i], models[..i + 1];
    assert t[..i] == s && t[i] == models[i];
    if Unshared(s, duty) {
      var k :| 0 <= k < i && ShareOf(s[k], duty) == NoShare;
      assert t[k] == s[k];
    }
    if Overloaded(s, duty) {
      var k :| 0 <= k < i && UsedBatch(s[k], duty) > s[k].maxBatch;
      assert t[k] == s[k];
    }
    if Unshared(t, duty) {
      var k :| 0 <= k <= i && ShareOf(t[k], duty) == NoShare;
      assert k < i ==> s[k] == t[k];
    }
    if Overloaded(t, duty) {
      var k :| 0 <= k <= i && UsedBatch(t[k], duty) > t[k].maxBatch;
      assert k < i ==> s[k] == t[k];
    }
  }

  lemma UnsharedPrefix(models: seq<Instance>, duty: real, i: nat)
    requires i <= |models| && Unshared(models[..i], duty)
    ensures Unshared(models, duty)
  {
    hide ShareOf;
    var k :| 0 <= k < i && ShareOf(models[..i][k], duty) == NoShare;
    assert models[k] == models[..i][k];
  }

  // The loop over the shares: what is found in the first i models.
  ghost predicate Summed(models: seq<Instance>, duty: real, i: nat, exec: real, overload: bool, changes: seq<Change>)
    requires i <= |models|
  {
    && !Unshared(models[..i], duty) && exec == ExecOf(models[..i], duty)
    && overload == Overloaded(models[..i], duty) && changes == ChangesOf(models[..i], duty)
  }

  lemma SummedMore(models: seq<Instance>, duty: real, i: nat, exec: real, overload: bool, changes: seq<Change>)
    requires i < |models| && Summed(models, duty, i, exec, overload, changes) && ShareOf(models[i], duty).Share?
    ensures var s := ShareOf(models[i], duty);
      Summed(models, duty, i + 1, exec + s.change.fwdLatency, overload || s.overload, changes + [s.change])
  {
    SharedMore(models, duty, i);
    assert ShareOf(models[i], duty).overload <==> UsedBatch(models[i], duty) > models[i].maxBatch;
    hide UsedBatch, ShareOf, Unshared, Overloaded, ExecOf;
    assert changes + [ShareOf(models[i], duty).change] == ChangesOf(models[..i + 1], duty);
  }

  method CalcCycle(models: seq<Instance>) returns (r: CycleResult)
    ensures r == CycleOf(models)
  {
    hide ShareOf, UsedBatch, PassTime;
    var exec, duty, overload, changes := 0.0, 0.0, false, [];
    for i := 0 to |models|
      invariant duty == DutyOf(models[..i])
    {
      assert models[..i + 1][..i] == models[..i];
      if duty == 0.0 || models[i].maxDutyCycle < duty {
        duty := models[i].maxDutyCycle;
      }
    }
    assert models[..|models|] == models;
    for i := 0 to |models|
      invariant Summed(models, duty, i, exec, overload, changes)
    {
      hide Summed, ExecOf, Overloaded, Unshared;
      var s := ShareOf(models[i], duty);
      if s == NoShare {
        SharedMore(models, duty, i);
        UnsharedPrefix(models, duty, i + 1);
        return CheckFailed;
      }
      SummedMore(models, duty, i, exec, overload, changes);
      exec, overload, changes := exec + s.change.fwdLatency, overload || s.overload, changes + [s.change];
    }
    r := Cycle(exec, duty, overload || exec > duty, changes);
  }

  /** The batch size and the longest duty cycle for a workload. */
  method ComputeBatchSize(m: Instance, workload: real) returns (r: Computed)
    ensures r == ComputedFor(m, workload)
  {
    var p, s := m.profile, m.session;
    var maxBatch := GetMaxBatch(p, s.slaMs as real);
    if !p.Covers(maxBatch) {
      return Aborted;
    }
    var f := p.Forward(maxBatch);
    if f == 0.0 {
      return Degenerate;
    }
    var t := Throughput(maxBatch, f);
    if workload == 0.0 || workload >= t {
      if t < EPS {
        return Aborted;
      }
      return Computed(m.(
        batch := maxBatch, maxBatch := maxBatch, fwdLatency := f, maxDutyCycle := f, throughput := t, workload := t));
    }
    var batch := 1;
    while batch <= maxBatch && InTime(p, s, workload, batch)
      invariant 1 <= batch <= maxBatch + 1
      invariant FirstLate(p, s, workload, maxBatch, batch) == FirstLate(p, s, workload, maxBatch, 1)
    {
      batch := batch + 1;
    }
    batch := batch - 1;
    if batch == 0 {
      return TooSlow;
    }
    hide InTime, Throughput;
    f := p.Forward(batch);
    var d := Minimum(s.SlaMicros() - f - Overhead(p), batch as real * MILLION / workload);
    if d == 0.0 {
      return Degenerate;
    }
    t := Throughput(batch, d);
    if t < workload - EPS || workload < EPS {
      return Aborted;
    }
    r := Computed(m.(
      batch := batch, maxBatch := maxBatch, fwdLatency := f, maxDutyCycle := d, throughput := t, workload := workload));
  }

  ghost predicate AllSound(models: seq<Instance>) {
    forall i {:trigger models[i]} | 0 <= i < |models| :: Sound(models[i])
  }

  lemma {:induction false} DutyIsLeast(models: seq<Instance>, i: nat)
    requires AllSound(models) && i < |models|
    ensures 0.0 < DutyOf(models) <= models[i].maxDutyCycle
  {
    var n := |models| - 1;
    if i < n {
      DutyIsLeast(models[..n], i);
    } else if n > 0 {
      DutyIsLeast(models[..n], 0);
    }
  }

  // A sound instance has its share of every cycle up to its own.
  lemma SoundShares(m: Instance, duty: real)
    requires Sound(m) && 0.0 < duty <= m.maxDutyCycle
    ensures 1 <= UsedBatch(m, duty) <= m.maxBatch && m.profile.Covers(UsedBatch(m, duty))
    ensures ShareOf(m, duty) == Share(false, Change(UsedBatch(m, duty), m.profile.Forward(UsedBatch(m, duty))))
    ensures PassTime(m, duty) > 0.0
  {
    SoundIsSafe(m, duty);
    assert m.profile.Forward(1) <= m.profile.Forward(UsedBatch(m, duty));
  }

  /** Sound models have a cycle: no check fails and none is overloaded by itself. */
  lemma SoundCycle(models: seq<Instance>)
    requires AllSound(models)
    ensures var duty := DutyOf(models);
      !Unshared(models, duty) && !Overloaded(models, duty) && ExecOf(models, duty) >= 0.0
  {
    hide Sound, ShareOf, UsedBatch;
    var duty := DutyOf(models);
    forall i | 0 <= i < |models| ensures ShareOf(models[i], duty).Share? &&
      UsedBatch(models[i], duty) <= models[i].maxBatch {
      DutyIsLeast(models, i);
      SoundShares(models[i], duty);
    }
    if models != [] {
      DutyIsLeast(models, 0);
      forall i | 0 <= i < |models| ensures 0.0 < duty <= models[i].maxDutyCycle {
        DutyIsLeast(models, i);
      }
      ExecNonNegative(models, duty);
    }
  }

  // No model's maximum is shorter than the cycle.
  ghost predicate Bounded(models: seq<Instance>, duty: real) {
    forall i {:trigger models[i]} | 0 <= i < |models| :: 0.0 < duty <= models[i].maxDutyCycle
  }

  lemma BoundedPrefix(models: seq<Instance>, duty: real, n: nat)
    requires AllSound(models) && Bounded(models, duty) && n <= |models|
    ensures AllSound(models[..n]) && Bounded(models[..n], duty)
  {
    var before := models[..n];
    forall i | 0 <= i < |before| ensures Sound(before[i]) && 0.0 < duty <= before[i].maxDutyCycle {
      assert before[i] == models[i];
    }
  }

  lemma {:induction false} ExecNonNegative(models: seq<Instance>, duty: real)
    requires AllSound(models) && Bounded(models, duty)
    ensures ExecOf(models, duty) >= 0.0
  {
    hide Sound, PassTime;
    if models != [] {
      var n := |models| - 1;
      BoundedPrefix(models, duty, n);
      ExecNonNegative(models[..n], duty);
      SoundShares(models[n], duty);
    }
  }

  // One duty cycle of waiting, the forward pass and the overhead fit the objective.
  predicate InObjective(m: Instance, duty: real) {
    && 1 <= m.batch <= m.maxBatch && m.profile.Covers(m.batch)
    && duty + m.profile.Forward(m.batch) + Overhead(m.profile) <= m.session.SlaMicros()
  }

  /** The instance runs the batch that the present cycle gives it. */
  ghost predicate Current(m: Instance, duty: real) {
    && Sound(m) && 0.0 < duty <= m.maxDutyCycle
    && m.batch == UsedBatch(m, duty) && m.fwdLatency == PassTime(m, duty)
  }

  /** An instance with the batch of the present cycle keeps its objective. */
  lemma CurrentIsSafe(m: Instance, duty: real)
    requires Current(m, duty)
    ensures InObjective(m, duty)
  {
    SoundIsSafe(m, duty);
  }

  /**
   An instance with a newly computed batch, in a cycle that was not computed anew, keeps its
   objective if and only if that cycle, the pass of the new batch and the overhead fit.
   */
  lemma ComputedInObjectiveIff(m: Instance, workload: real, duty: real)
    requires Measured(m.profile) && Fits(m.profile, m.session) && ComputedFor(m, workload).Computed?
    ensures var p, s := m.profile, m.session;
      && p.Covers(MaxBatchFor(p, s)) && p.Forward(MaxBatchFor(p, s)) != 0.0 && p.Covers(BatchFor(p, s, workload))
      && (InObjective(ComputedFor(m, workload).inst, duty) <==>
          duty + p.Forward(BatchFor(p, s, workload)) + Overhead(p) <= s.SlaMicros())
  {
    MaxBatchCovered(m.profile, m.session);
    ComputedSound(m, workload);
    hide LargestWithin, Sound, Throughput, Measured, Fits, ResidueBatch;
  }
}
