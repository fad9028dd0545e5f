/** What the duty-cycle arithmetic computes, said outright. */
module DutyLaws {
  import opened ModelProfiles
  import opened DutyCycles

  // The least whole number from 1 on that x does not exceed by eps or more.
  ghost predicate LeastBatch(x: real, eps: real, b: int) {
    b >= 1 && x < b as real + eps && (b == 1 || x >= (b - 1) as real + eps)
  }

  lemma CeilEpsIff(x: real, eps: real, b: int)
    requires x > 0.0 && 0.0 < eps <= 1.0
    ensures BatchSizeCeilEps(x, eps) == b <==> LeastBatch(x, eps, b)
  {
  }

  /** The batch for a cycle: the least that falls short of the requests coming in by less than 0.001. */
  lemma UsedBatchIff(m: Instance, duty: real, b: int)
    requires duty > 0.0 && m.workload > 0.0
    ensures UsedBatch(m, duty) == b <==> LeastBatch(duty * m.workload / 1000000.0, 0.001, b)
  {
    ArrivalsPositive(duty, m.workload);
    CeilEpsIff(Arrivals(duty, m.workload), EPS, b);
  }

  // A rate and a cycle for a batch of b: as many requests in each cycle.
  ghost predicate Serves(rate: real, cycle: real, b: nat) {
    rate * cycle == b as real * 1000000.0
  }

  // In a cycle in which the last of b requests has just come in, a batch of b keeps the objective.
  ghost predicate Possible(p: Profile, s: Session, workload: real, b: nat) {
    && p.Covers(b) && workload > 0.0
    && (b - 1) as real * 1000000.0 / workload + p.Forward(b) + p.pre.Total() + p.post.Total() <=
         s.slaMs as real * 1000.0
  }

  // Two forward passes of a batch of b, the network and the overhead fit the objective.
  predicate FitsTwice(p: Profile, s: Session, b: nat) {
    p.Covers(b) &&
    2.0 * p.Forward(b) + NETWORK_LATENCY_US + p.pre.Total() + p.post.Total() <= s.slaMs as real * 1000.0
  }

  // The largest batch that does, or 1.
  ghost predicate LargestTwice(p: Profile, s: Session, b: nat) {
    && b >= 1 && p.Covers(b) && (b > 1 ==> FitsTwice(p, s, b))
    && forall c: nat {:trigger FitsTwice(p, s, c)} | FitsTwice(p, s, c) :: c <= b
  }

  // The longest cycle that keeps the objective with a batch of b and lets no more than b requests come in.
  ghost predicate LongestCycle(p: Profile, s: Session, workload: real, b: nat, cycle: real)
    requires p.Covers(b)
  {
    && cycle + p.Forward(b) + p.pre.Total() + p.post.Total() <= s.slaMs as real * 1000.0
    && cycle * workload <= b as real * 1000000.0
    && (cycle + p.Forward(b) + p.pre.Total() + p.post.Total() == s.slaMs as real * 1000.0 ||
        cycle * workload == b as real * 1000000.0)
  }

  // All of a GPU: the largest batch, one after the other.
  ghost predicate Fills(m: Instance, n: Instance) {
    && m.profile.Covers(n.maxBatch) && n.batch == n.maxBatch
    && n.fwdLatency == n.maxDutyCycle == m.profile.Forward(n.maxBatch)
    && n.workload == n.throughput >= 0.001 && Serves(n.throughput, n.maxDutyCycle, n.batch)
  }

  // A part of it: the largest batch up to which each is possible, in its longest cycle.
  ghost predicate Shares(m: Instance, workload: real, n: Instance) {
    && n.workload == workload >= 0.001 && 1 <= n.batch <= n.maxBatch && m.profile.Covers(n.maxBatch)
    && (forall b: nat {:trigger Possible(m.profile, m.session, workload, b)} | 1 <= b <= n.batch ::
          Possible(m.profile, m.session, workload, b))
    && (n.batch < n.maxBatch ==> !Possible(m.profile, m.session, workload, n.batch + 1))
    && n.fwdLatency == m.profile.Forward(n.batch)
    && LongestCycle(m.profile, m.session, workload, n.batch, n.maxDutyCycle)
    && Serves(n.throughput, n.maxDutyCycle, n.batch)
  }

  /** The instance for a workload: it fills the GPU if that is all the GPU can do or the workload is unknown. */
  ghost predicate ComputedAs(m: Instance, workload: real, n: Instance) {
    && n == m.(batch := n.batch, maxBatch := n.maxBatch, fwdLatency := n.fwdLatency,
         maxDutyCycle := n.maxDutyCycle, workload := n.workload, throughput := n.throughput)
    && LargestTwice(m.profile, m.session, n.maxBatch)
    && if workload == 0.0 || workload * m.profile.Forward(n.maxBatch) >= n.maxBatch as real * 1000000.0
       then Fills(m, n) else Shares(m, workload, n)
  }

  lemma MaxBatchIs(p: Profile, s: Session)
    requires Measured(p)
    ensures LargestTwice(p, s, MaxBatchFor(p, s))
  {
    MaxBatchCovered(p, s);
    var b, budget := MaxBatchFor(p, s), FullBudget(p, s.slaMs as real) / 2.0;
    forall c: nat | FitsTwice(p, s, c) ensures c <= b {
      assert p.Covers(c) && p.Forward(c) <= budget;
    }
  }

  lemma PossibleIff(p: Profile, s: Session, workload: real, b: nat)
    requires p.Covers(b) && workload > 0.0
    ensures Possible(p, s, workload, b) <==> InTime(p, s, workload, b)
  {
    assert (b - 1) as real == b as real - 1.0;
  }

  lemma {:induction false} FirstLateAll(p: Profile, s: Session, workload: real, maxBatch: nat, b: nat, k: nat)
    requires p.Covers(maxBatch) && workload > 0.0 && 1 <= b <= maxBatch + 1
    requires b <= k < FirstLate(p, s, workload, maxBatch, b)
    ensures p.Covers(k) && InTime(p, s, workload, k)
    decreases maxBatch + 1 - b
  {
    hide InTime;
    if b < k {
      FirstLateAll(p, s, workload, maxBatch, b + 1, k);
    }
  }

  lemma ThroughputServes(b: nat, cycle: real)
    requires cycle != 0.0
    ensures Serves(Throughput(b, cycle), cycle, b)
  {
  }

  lemma QuotientIs(x: real, y: real, z: real)
    requires y > 0.0
    ensures z < x / y ==> z * y <= x
    ensures z == x / y ==> z * y == x
  {
    var q := x / y;
    assert q * y == x;
    if z < q {
      PositiveProduct(q - z, y);
      assert (q - z) * y == q * y - z * y;
    }
  }

  lemma PositiveProduct(x: real, y: real)
    requires x > 0.0 && y > 0.0
    ensures x * y > 0.0
  {
  }

  lemma LongestIs(p: Profile, s: Session, workload: real, b: nat, cycle: real)
    requires p.Covers(b) && workload > 0.0
    requires cycle == Minimum(s.SlaMicros() - p.Forward(b) - Overhead(p), b as real * MILLION / workload)
    ensures LongestCycle(p, s, workload, b, cycle)
  {
    QuotientIs(b as real * MILLION, workload, cycle);
  }

  lemma ResidueIs(m: Instance, maxBatch: nat, workload: real)
    requires Measured(m.profile) && m.profile.Covers(maxBatch) && workload > 0.0
    requires Residue(m, maxBatch, workload).Computed?
    ensures Shares(m, workload, Residue(m, maxBatch, workload).inst)
  {
    var p, s, n := m.profile, m.session, Residue(m, maxBatch, workload).inst;
    var b := ResidueBatch(p, s, workload, maxBatch);
    FirstLateIs(p, s, workload, maxBatch, 1);
    forall k: nat | 1 <= k <= b ensures Possible(p, s, workload, k) {
      FirstLateAll(p, s, workload, maxBatch, 1, k);
      PossibleIff(p, s, workload, k);
    }
    if b < maxBatch {
      PossibleIff(p, s, workload, b + 1);
    }
    hide Possible, InTime, FirstLate;
    LongestIs(p, s, workload, b, n.maxDutyCycle);
    ThroughputServes(b, n.maxDutyCycle);
  }

  lemma SaturatedIs(m: Instance, maxBatch: nat)
    requires m.profile.Covers(maxBatch) && m.profile.Forward(maxBatch) != 0.0 && Saturated(m, maxBatch).Computed?
    ensures Fills(m, Saturated(m, maxBatch).inst)
  {
    ThroughputServes(maxBatch, m.profile.Forward(maxBatch));
  }

  lemma FullIff(workload: real, b: nat, pass: real)
    requires pass > 0.0
    ensures workload >= Throughput(b, pass) <==> workload * pass >= b as real * 1000000.0
  {
    var t := Throughput(b, pass);
    assert t * pass == b as real * 1000000.0;
    if workload >= t {
      assert (workload - t) * pass >= 0.0;
    } else {
      assert (t - workload) * pass > 0.0;
    }
  }

  /** What is computed for a workload is the instance described. */
  lemma ComputedIs(m: Instance, workload: real)
    requires Measured(m.profile) && Fits(m.profile, m.session) && ComputedFor(m, workload).Computed?
    ensures ComputedAs(m, workload, ComputedFor(m, workload).inst)
  {
    hide Sound, LargestWithin, MaxBatchFor, Measured, LargestTwice, Saturated, Residue, Throughput, Fills, Shares;
    ComputedSound(m, workload);
    MaxBatchCovered(m.profile, m.session);
    MaxBatchIs(m.profile, m.session);
    var b := MaxBatchFor(m.profile, m.session);
    FullIff(workload, b, m.profile.Forward(b));
    ComputedTask(m, workload);
    if workload == 0.0 || workload >= Throughput(b, m.profile.Forward(b)) {
      SaturatedIs(m, b);
    } else {
      ResidueIs(m, b, workload);
    }
  }

  lemma ComputedTask(m: Instance, workload: real)
    requires ComputedFor(m, workload).Computed?
    ensures var n := ComputedFor(m, workload).inst;
      && n == m.(batch := n.batch, maxBatch := n.maxBatch, fwdLatency := n.fwdLatency,
           maxDutyCycle := n.maxDutyCycle, workload := n.workload, throughput := n.throughput)
      && n.maxBatch == MaxBatchFor(m.profile, m.session)
  {
    hide MaxBatchFor, Throughput, ResidueBatch;
  }

  // The shortest of the longest cycles.
  ghost predicate ShortestCycle(models: seq<Instance>, duty: real) {
    && (exists i {:trigger models[i]} :: 0 <= i < |models| && models[i].maxDutyCycle == duty)
    && forall i {:trigger models[i]} | 0 <= i < |models| :: duty <= models[i].maxDutyCycle
  }

  lemma {:induction false} DutyIsShortest(models: seq<Instance>)
    requires AllSound(models) && models != []
    ensures ShortestCycle(models, DutyOf(models))
  {
    hide Sound;
    var n := |models| - 1;
    var rest := models[..n];
    assert models[n].maxDutyCycle == models[n].maxDutyCycle;
    if n > 0 {
      DutyIsShortest(rest);
      DutyIsLeast(rest, 0);
      var i :| 0 <= i < n && rest[i].maxDutyCycle == DutyOf(rest);
      assert models[i] == rest[i];
      forall k | 0 <= k < |models| ensures DutyOf(models) <= models[k].maxDutyCycle {
        assert k < n ==> models[k] == rest[k];
      }
    }
  }
}
