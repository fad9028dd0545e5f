/** Latency profiles: lookup, forced monotonicity and the largest batch within a budget. */
module ModelProfiles {

  // Latencies in microseconds.
  datatype Entry = Entry(mean: real, std: real) {
    function Total(): real {
      mean + std
    }
  }

  // forward[b] is the entry for batch size b; forward[0] is unused.
  datatype Profile = Profile(forward: seq<Entry>, pre: Entry, post: Entry) {
    // Looking up a batch size that is not covered ends the process.
    predicate Covers(b: nat) {
      1 <= b < |forward|
    }

    function Forward(b: nat): real
      requires Covers(b)
    {
      forward[b].Total()
    }

    // Larger batches never take less time.
    ghost predicate Monotone() {
      forall a, b {:trigger Forward(a), Forward(b)} | Covers(a) && Covers(b) && a <= b :: Forward(a) <= Forward(b)
    }
  }

  /** A cast of a floating-point number to an integer type. */
  function Trunc(x: real): int {
    if x >= 0.0 then x.Floor else -((-x).Floor)
  }

  function Nanos(us: real): int {
    Trunc(us * 1000.0)
  }

  // Both the mean and the mean plus deviation are nondecreasing from batch size 1 on.
  ghost predicate MonotoneTable(t: seq<Entry>) {
    forall i, j {:trigger t[i], t[j]} | 1 <= i <= j < |t| :: t[i].mean <= t[j].mean && t[i].Total() <= t[j].Total()
  }

  // One round: entry i is overwritten by its predecessor when it is smaller in either measure.
  function ForceAt(t: seq<Entry>, i: nat): seq<Entry>
    requires 2 <= i < |t|
  {
    if t[i].mean < t[i - 1].mean || t[i].Total() < t[i - 1].Total() then t[i := t[i - 1]] else t
  }

  // The first i entries treated.
  function Forced(t: seq<Entry>, i: nat): (r: seq<Entry>)
    requires i <= |t|
    ensures |r| == |t| && r[i..] == t[i..]
  {
    if i <= 2 then t else ForceAt(Forced(t, i - 1), i - 1)
  }

  lemma {:induction false} ForcedIsMonotone(t: seq<Entry>, i: nat)
    requires i <= |t|
    ensures MonotoneTable(Forced(t, i)[..i])
  {
    if i > 2 {
      ForcedIsMonotone(t, i - 1);
      var s := Forced(t, i - 1);
      assert forall k | 0 <= k < i - 1 :: Forced(t, i)[k] == s[k] == s[..i - 1][k];
      assert s[..i - 1][i - 2] == s[i - 2];
    }
  }

  /** Forcing leaves exactly the tables alone that were monotone in both measures already. */
  lemma ForcedChangesNothingIff(t: seq<Entry>)
    ensures Forced(t, |t|) == t <==> MonotoneTable(t)
  {
    if MonotoneTable(t) {
      MonotoneStays(t, |t|);
    }
    ForcedIsMonotone(t, |t|);
    assert Forced(t, |t|)[..|t|] == Forced(t, |t|);
  }

  lemma {:induction false} MonotoneStays(t: seq<Entry>, i: nat)
    requires MonotoneTable(t) && i <= |t|
    ensures Forced(t, i) == t
  {
    if i > 2 {
      MonotoneStays(t, i - 1);
    }
  }

  // The forced table is nowhere below the measured one.
  ghost predicate Bounds(t: seq<Entry>, i: nat)
    requires i <= |t|
  {
    forall k {:trigger t[k]} | 1 <= k < i :: t[k].Total() <= Forced(t, i)[k].Total()
  }

  // Entry k has a smaller mean than the entry before it ends up with, and yet a larger sum.
  predicate Understated(t: seq<Entry>, k: nat)
    requires 2 <= k < |t|
  {
    var before := Forced(t, k)[k - 1];
    t[k].mean < before.mean && t[k].Total() > before.Total()
  }

  /**
   Forcing never shortens a latency if and only if no entry has a smaller mean but a
   larger sum of mean and deviation than what its predecessor has become.
   */
  lemma {:induction false} ForcedBoundsIff(t: seq<Entry>, i: nat)
    requires i <= |t|
    ensures Bounds(t, i) <==> forall k {:trigger Understated(t, k)} | 2 <= k < i :: !Understated(t, k)
  {
    if i > 2 {
      ForcedBoundsIff(t, i - 1);
      var s, r := Forced(t, i - 1), Forced(t, i);
      assert s[i - 1..][0] == t[i - 1..][0];
      assert forall k | 0 <= k < i - 1 :: r[k] == s[k];
      assert Bounds(t, i) <==> Bounds(t, i - 1) && t[i - 1].Total() <= r[i - 1].Total() by {
        if Bounds(t, i) {
          forall k | 1 <= k < i - 1 ensures t[k].Total() <= s[k].Total() {
            assert t[k].Total() <= r[k].Total();
          }
        }
      }
      assert t[i - 1].Total() <= r[i - 1].Total() <==> !Understated(t, i - 1);
    }
  }

  /** That happens: a table whose second batch size is forced to a shorter latency. */
  lemma ForcedMayUnderestimate()
    ensures !Bounds([Entry(0.0, 0.0), Entry(10.0, 0.0), Entry(5.0, 10.0)], 3)
  {
    var t := [Entry(0.0, 0.0), Entry(10.0, 0.0), Entry(5.0, 10.0)];
    assert Understated(t, 2);
    ForcedBoundsIff(t, 3);
  }

  const NETWORK_LATENCY_US := 2000.0

  // What is left of a budget in milliseconds for the forward pass.
  function FullBudget(p: Profile, budgetMs: real): real {
    budgetMs * 1000.0 - NETWORK_LATENCY_US - p.pre.Total() - p.post.Total()
  }

  // The first batch size from b on that is over budget or not covered.
  function FirstOver(p: Profile, budget: real, b: nat): (r: nat)
    requires 1 <= b
    ensures r >= b
    decreases |p.forward| - b
  {
    if b < |p.forward| && p.Forward(b) <= budget then FirstOver(p, budget, b + 1) else b
  }

  // The batch size before it, or 1.
  function MaxBatch(p: Profile, budget: real): (r: nat)
    ensures r >= 1
  {
    if FirstOver(p, budget, 1) == 1 then 1 else FirstOver(p, budget, 1) - 1
  }

  // batch is the largest batch size whose forward pass fits the budget, or 1 if none does.
  ghost predicate LargestWithin(p: Profile, budget: real, batch: nat) {
    && batch >= 1
    && (batch > 1 ==> p.Covers(batch) && p.Forward(batch) <= budget)
    && (forall b: nat {:trigger p.Forward(b)} | p.Covers(b) && b > batch :: p.Forward(b) > budget)
  }

  predicate FitsBudget(p: Profile, budget: real, b: nat) {
    p.Covers(b) && p.Forward(b) <= budget
  }

  lemma {:induction false} FirstOverIs(p: Profile, budget: real, b: nat)
    requires 1 <= b
    ensures forall k: nat {:trigger FitsBudget(p, budget, k)} | b <= k < FirstOver(p, budget, b) ::
      FitsBudget(p, budget, k)
    ensures var r := FirstOver(p, budget, b); p.Covers(r) ==> p.Forward(r) > budget
    decreases |p.forward| - b
  {
    if b < |p.forward| && p.Forward(b) <= budget {
      FirstOverIs(p, budget, b + 1);
    }
  }

  /** On a monotone profile the scan finds the largest batch size within the budget. */
  lemma MaxBatchIsLargest(p: Profile, budget: real)
    requires p.Monotone()
    ensures LargestWithin(p, budget, MaxBatch(p, budget))
  {
    FirstOverIs(p, budget, 1);
    var r := FirstOver(p, budget, 1);
    if r > 1 {
      assert FitsBudget(p, budget, r - 1);
    }
    forall b: nat | p.Covers(b) && b > MaxBatch(p, budget) ensures p.Forward(b) > budget {
      assert p.Forward(r) <= p.Forward(b);
    }
  }

  // The loop of both GetMaxBatch functions.
  method ScanBatches(p: Profile, budget: real) returns (batch: nat)
    ensures batch == MaxBatch(p, budget)
  {
    batch := 1;
    while batch < |p.forward| && p.Forward(batch) <= budget
      invariant 1 <= batch && FirstOver(p, budget, batch) == FirstOver(p, budget, 1)
      decreases |p.forward| - batch
    {
      batch := batch + 1;
    }
    batch := batch - 1;
    if batch == 0 {
      batch := 1;
    }
  }

  method GetMaxBatchWithFullBudget(p: Profile, budgetMs: real) returns (batch: nat)
    ensures batch == MaxBatch(p, FullBudget(p, budgetMs)) >= 1
    ensures p.Monotone() ==> LargestWithin(p, FullBudget(p, budgetMs), batch)
  {
    batch := ScanBatches(p, FullBudget(p, budgetMs));
    if p.Monotone() {
      MaxBatchIsLargest(p, FullBudget(p, budgetMs));
    }
  }

  /** Half of the budget is kept back for batching. */
  method GetMaxBatch(p: Profile, slaMs: real) returns (batch: nat)
    ensures batch == MaxBatch(p, FullBudget(p, slaMs) / 2.0) >= 1
    ensures p.Monotone() ==> LargestWithin(p, FullBudget(p, slaMs) / 2.0, batch)
  {
    batch := ScanBatches(p, FullBudget(p, slaMs) / 2.0);
    if p.Monotone() {
      MaxBatchIsLargest(p, FullBudget(p, slaMs) / 2.0);
    }
  }

  /** A forced profile is monotone, whatever was measured. */
  lemma ForcedProfileIsMonotone(t: seq<Entry>, pre: Entry, post: Entry)
    ensures Profile(Forced(t, |t|), pre, post).Monotone()
  {
    ForcedIsMonotone(t, |t|);
    assert Forced(t, |t|)[..|t|] == Forced(t, |t|);
  }

  class ModelProfile {
    var forward: seq<Entry>
    var pre: Entry
    var post: Entry

    constructor (p: Profile)
      ensures Value() == p
    {
      forward, pre, post := p.forward, p.pre, p.post;
    }

    function Value(): Profile
      reads this
    {
      Profile(forward, pre, post)
    }

    method ForceMonotonicity()
      modifies this`forward
      ensures forward == Forced(old(forward), |old(forward)|)
      ensures Value().Monotone()
    {
      var i := 2;
      while i < |forward|
        invariant 2 <= i && (i == 2 || i <= |forward|) && |forward| == |old(forward)|
        invariant forward == if i <= |forward| then Forced(old(forward), i) else old(forward)
      {
        if forward[i].mean < forward[i - 1].mean || forward[i].Total() < forward[i - 1].Total() {
          forward := forward[i := forward[i - 1]];
        }
        i := i + 1;
      }
      ForcedProfileIsMonotone(old(forward), pre, post);
    }
  }
}
