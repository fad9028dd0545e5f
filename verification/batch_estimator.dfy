/** How large the batches should be for a given request rate and time budget, both in seconds. */
module BatchEstimators {
  import opened ModelProfiles

  datatype Result = Fatal | Result(batchSize: nat, numGpus: real)

  function Latency(p: Profile, b: nat): real
    requires p.Covers(b)
  {
    p.Forward(b) / 1000000.0
  }

  ghost predicate NonNegative(p: Profile) {
    forall b: nat {:trigger p.Forward(b)} | p.Covers(b) :: p.Forward(b) >= 0.0
  }

  // GPUs needed to keep up with the rate in batches of b. A batch that takes no time needs none.
  function Gpus(l: real, b: nat, rps: real): real
    requires b > 0
  {
    if l == 0.0 then 0.0 else rps / (b as real / l)
  }

  // The worst time a request spends: its own batch, and waiting for its turn.
  function WorstCase(l: real, b: nat, rps: real): real
    requires b > 0
  {
    var n := Gpus(l, b, rps);
    var n1 := if n > 1.0 then n else 1.0;
    l * (1.0 + 1.0 / n1)
  }

  function Minimum(x: real, y: real): real {
    if x < y then x else y
  }

  // The time to collect b requests.
  function Collect(b: nat, rps: real): real
    requires rps > 0.0
  {
    b as real / rps
  }

  /** The number of GPUs is how many batches are collected while one is processed. */
  lemma GpusIs(l: real, b: nat, rps: real)
    requires b > 0 && l >= 0.0 && rps > 0.0
    ensures Gpus(l, b, rps) > 1.0 <==> Collect(b, rps) < l
    ensures Gpus(l, b, rps) * Collect(b, rps) == l && Collect(b, rps) > 0.0
  {
    if l > 0.0 {
      Keeps(l, b as real, rps);
      MoreThanOne(Gpus(l, b, rps), Collect(b, rps), l);
    } else {
      Positive(b as real, rps);
      assert Gpus(l, b, rps) == 0.0;
      hide Gpus;
    }
  }

  lemma Keeps(l: real, b: real, rps: real)
    requires b > 0.0 && l > 0.0 && rps > 0.0
    ensures b / l > 0.0 && rps / (b / l) * (b / rps) == l && b / rps > 0.0
  {
    Positive(b, l);
  }

  lemma MoreThanOne(n: real, c: real, l: real)
    requires c > 0.0 && n * c == l
    ensures n > 1.0 <==> c < l
  {
    if n > 1.0 {
      assert (n - 1.0) * c > 0.0;
    } else {
      assert (1.0 - n) * c >= 0.0;
    }
  }

  lemma Positive(x: real, y: real)
    requires x > 0.0 && y > 0.0
    ensures x / y > 0.0
  {
  }

  /** The test compares the batch latency plus the shorter of another batch and the time to collect one. */
  lemma WorstCaseIs(l: real, b: nat, rps: real)
    requires b > 0 && l >= 0.0 && rps > 0.0
    ensures WorstCase(l, b, rps) == l + Minimum(l, Collect(b, rps))
  {
    if l > 0.0 {
      GpusIs(l, b, rps);
      var n, c := Gpus(l, b, rps), Collect(b, rps);
      hide Gpus, Collect;
      if n > 1.0 {
        assert l * (1.0 / n) == c by { Quotient(l, n, c); }
      }
    } else {
      Positive(b as real, rps);
    }
  }

  lemma Quotient(l: real, n: real, c: real)
    requires n > 0.0 && n * c == l
    ensures l * (1.0 / n) == c
  {
  }

  // What a batch size needs, and what it needs without another batch to wait for.
  function Need(p: Profile, b: nat, rps: real): real
    requires p.Covers(b) && rps > 0.0
  {
    Latency(p, b) + Minimum(Latency(p, b), Collect(b, rps))
  }

  function NeedAlone(p: Profile, b: nat, rps: real): real
    requires p.Covers(b) && rps > 0.0
  {
    Latency(p, b) + Collect(b, rps)
  }

  lemma CollectMonotone(a: nat, b: nat, rps: real)
    requires rps > 0.0 && a <= b
    ensures Collect(a, rps) <= Collect(b, rps)
  {
  }

  /** Larger batches need more. */
  lemma NeedMonotone(p: Profile, a: nat, b: nat, rps: real)
    requires p.Monotone() && p.Covers(a) && p.Covers(b) && a <= b && rps > 0.0
    ensures Need(p, a, rps) <= Need(p, b, rps) && NeedAlone(p, a, rps) <= NeedAlone(p, b, rps)
  {
    assert p.Forward(a) <= p.Forward(b);
    CollectMonotone(a, b, rps);
  }

  // The test of the first loop.
  predicate Exceeds(p: Profile, b: nat, budget: real, rps: real)
    requires p.Covers(b)
  {
    WorstCase(Latency(p, b), b, rps) > budget
  }

  /** The first batch size over budget decides; running off the table ends the process. */
  method EstimateBatchSize(p: Profile, budget: real, rps: real) returns (r: Result, first: nat)
    ensures r == Fatal <==>
      forall b: nat {:trigger Exceeds(p, b, budget, rps)} | p.Covers(b) :: !Exceeds(p, b, budget, rps)
    ensures r != Fatal ==> p.Covers(first) && Exceeds(p, first, budget, rps)
    ensures r != Fatal ==>
      forall b: nat {:trigger Exceeds(p, b, budget, rps)} | 1 <= b < first :: !Exceeds(p, b, budget, rps)
    ensures r != Fatal ==>
      r.batchSize == (if first == 1 then 1 else first - 1) && r.numGpus == Gpus(Latency(p, first), first, rps)
  {
    var bs := 1;
    first := 0;
    while bs < |p.forward|
      invariant 1 <= bs
      invariant forall b: nat {:trigger Exceeds(p, b, budget, rps)} | 1 <= b < bs && p.Covers(b) ::
        !Exceeds(p, b, budget, rps)
    {
      var l := Latency(p, bs);
      if WorstCase(l, bs, rps) > budget {
        assert Exceeds(p, bs, budget, rps);
        first := bs;
        return Result(if bs == 1 then 1 else bs - 1, Gpus(l, bs, rps)), bs;
      }
      bs := bs + 1;
    }
    r := Fatal;
  }

  function NeedOf(p: Profile, b: nat, rps: real, alone: bool): real
    requires p.Covers(b) && rps > 0.0
  {
    if alone then NeedAlone(p, b, rps) else Need(p, b, rps)
  }

  /** The largest batch size whose need is within the budget, or 1 if none from 2 on is. */
  ghost predicate Largest(p: Profile, budget: real, rps: real, alone: bool, batch: nat)
    requires rps > 0.0
  {
    && batch >= 1
    && (batch > 1 ==> p.Covers(batch) && NeedOf(p, batch, rps, alone) <= budget)
    && (forall b: nat {:trigger NeedOf(p, b, rps, alone)} | p.Covers(b) && b > batch ::
      NeedOf(p, b, rps, alone) > budget)
  }

  // The last batch size before the first one over budget is the largest within it.
  lemma LastBeforeFirst(p: Profile, budget: real, rps: real, alone: bool, first: nat)
    requires p.Monotone() && rps > 0.0 && p.Covers(first) && NeedOf(p, first, rps, alone) > budget
    requires first > 2 ==> NeedOf(p, first - 1, rps, alone) <= budget
    ensures Largest(p, budget, rps, alone, if first == 1 then 1 else first - 1)
  {
    forall b: nat | p.Covers(b) && b >= first ensures NeedOf(p, b, rps, alone) > budget {
      NeedMonotone(p, first, b, rps);
    }
  }

  lemma ExceedsIs(p: Profile, b: nat, budget: real, rps: real)
    requires NonNegative(p) && p.Covers(b) && rps > 0.0
    ensures Exceeds(p, b, budget, rps) <==> NeedOf(p, b, rps, false) > budget
    ensures Gpus(Latency(p, b), b, rps) <= 1.0 <==> Latency(p, b) <= Collect(b, rps)
    ensures Latency(p, b) <= Collect(b, rps) ==> Need(p, b, rps) == 2.0 * Latency(p, b)
  {
    var l := Latency(p, b);
    assert p.Forward(b) >= 0.0;
    WorstCaseIs(l, b, rps);
    if l > 0.0 {
      GpusIs(l, b, rps);
    } else {
      Positive(b as real, rps);
    }
  }

  /**
   For a positive rate and a monotone profile, the first loop's answer is the largest batch size
   within the budget.
   */
  lemma EstimateIsLargest(p: Profile, budget: real, rps: real, first: nat)
    requires p.Monotone() && NonNegative(p) && rps > 0.0 && p.Covers(first) && Exceeds(p, first, budget, rps)
    requires forall b: nat {:trigger Exceeds(p, b, budget, rps)} | 1 <= b < first :: !Exceeds(p, b, budget, rps)
    ensures Largest(p, budget, rps, false, if first == 1 then 1 else first - 1)
  {
    ExceedsIs(p, first, budget, rps);
    if first > 1 {
      ExceedsIs(p, first - 1, budget, rps);
    }
    LastBeforeFirst(p, budget, rps, false, first);
  }

  // The rest of the loop from the second batch size on: the time to collect a batch is waited in full.
  method EstimateAlone(p: Profile, budget: real, rps: real) returns (r: Result)
    ensures rps > 0.0 ==>
      (r == Fatal <==>
         forall b: nat {:trigger NeedAlone(p, b, rps)} | p.Covers(b) && b >= 2 :: NeedAlone(p, b, rps) <= budget)
    ensures rps > 0.0 && p.Monotone() && r != Fatal ==> Largest(p, budget, rps, true, r.batchSize)
  {
    var bs := 2;
    while bs < |p.forward|
      invariant 2 <= bs
      invariant rps > 0.0 ==>
        forall b: nat {:trigger NeedAlone(p, b, rps)} | 2 <= b < bs && p.Covers(b) :: NeedAlone(p, b, rps) <= budget
    {
      var l := Latency(p, bs);
      if rps == 0.0 || l + bs as real / rps > budget {
        if rps > 0.0 {
          assert NeedAlone(p, bs, rps) > budget;
          if p.Monotone() {
            assert bs > 2 ==> NeedAlone(p, bs - 1, rps) <= budget;
            LastBeforeFirst(p, budget, rps, true, bs);
          }
        }
        return Result(bs - 1, 0.0);
      }
      bs := bs + 1;
    }
    r := Fatal;
  }

  // One GPU keeps up: then the second loop stops by the same batch size, or by the second.
  lemma AloneStops(p: Profile, budget: real, rps: real, first: nat)
    requires p.Monotone() && NonNegative(p) && rps > 0.0 && p.Covers(first) && Exceeds(p, first, budget, rps)
    requires Gpus(Latency(p, first), first, rps) <= 1.0
    ensures first >= 2 ==> NeedAlone(p, first, rps) > budget
    ensures p.Covers(2) ==>
      exists b: nat {:trigger NeedAlone(p, b, rps)} :: p.Covers(b) && b >= 2 && NeedAlone(p, b, rps) > budget
  {
    ExceedsIs(p, first, budget, rps);
    assert NeedAlone(p, first, rps) > budget;
    if first == 1 && p.Covers(2) {
      NeedMonotone(p, 1, 2, rps);
      assert NeedAlone(p, 2, rps) > budget;
    }
  }

  // Whether one GPU keeps up with the rate in batches of b.
  predicate Alone(p: Profile, b: nat, rps: real)
    requires p.Covers(b) && rps > 0.0
  {
    Latency(p, b) <= Collect(b, rps)
  }

  // The first batch size whose need exceeds the budget.
  ghost predicate IsFirstOver(p: Profile, budget: real, rps: real, first: nat)
    requires rps > 0.0
  {
    && p.Covers(first) && Need(p, first, rps) > budget
    && forall b: nat {:trigger Need(p, b, rps)} | 1 <= b < first :: Need(p, b, rps) <= budget
  }

  // The table has no batch size to stop at.
  ghost predicate TooShort(p: Profile, budget: real, rps: real)
    requires rps > 0.0
  {
    || (forall b: nat {:trigger Need(p, b, rps)} | p.Covers(b) :: Need(p, b, rps) <= budget)
    || (|p.forward| == 2 && Need(p, 1, rps) > budget && Alone(p, 1, rps))
  }

  // No first batch size over budget: the table is too short.
  lemma NoFirst(p: Profile, budget: real, rps: real)
    requires NonNegative(p) && rps > 0.0
    requires forall b: nat {:trigger Exceeds(p, b, budget, rps)} | p.Covers(b) :: !Exceeds(p, b, budget, rps)
    ensures TooShort(p, budget, rps)
  {
    forall b: nat | p.Covers(b) ensures Need(p, b, rps) <= budget {
      ExceedsIs(p, b, budget, rps);
    }
  }

  // A first batch size over budget: the table is too short only for the second loop.
  lemma FirstStops(p: Profile, budget: real, rps: real, first: nat)
    requires p.Monotone() && NonNegative(p) && rps > 0.0 && p.Covers(first) && Exceeds(p, first, budget, rps)
    requires forall b: nat {:trigger Exceeds(p, b, budget, rps)} | 1 <= b < first :: !Exceeds(p, b, budget, rps)
    ensures Gpus(Latency(p, first), first, rps) <= 1.0 <==> Alone(p, first, rps)
    ensures IsFirstOver(p, budget, rps, first)
    ensures TooShort(p, budget, rps) <==>
      Alone(p, first, rps) && forall b: nat {:trigger NeedAlone(p, b, rps)} | p.Covers(b) && b >= 2 ::
        NeedAlone(p, b, rps) <= budget
  {
    ExceedsIs(p, first, budget, rps);
    assert Need(p, first, rps) > budget;
    forall b: nat | 1 <= b < first ensures Need(p, b, rps) <= budget {
      ExceedsIs(p, b, budget, rps);
    }
    if Alone(p, first, rps) {
      AloneStops(p, budget, rps, first);
    }
    if |p.forward| == 2 {
      assert first == 1;
    }
  }

  /**
   The whole estimate. With a positive rate and a monotone profile: the largest
   batch size within the budget, counting the full time to collect a batch once
   a single GPU keeps up. The process ends exactly where the table is too short.
   */
  method Estimate(p: Profile, budget: real, rps: real, std: real, xrps: real, xstd: real)
    returns (r: Result, first: nat)
    ensures var rate := rps * xrps + std * xstd; rate > 0.0 && p.Monotone() && NonNegative(p) ==>
      && (r == Fatal <==> TooShort(p, budget, rate))
      && (r != Fatal ==>
            IsFirstOver(p, budget, rate, first) && Largest(p, budget, rate, Alone(p, first, rate), r.batchSize))
  {
    hide Alone, TooShort, Largest, IsFirstOver, Exceeds, Gpus, NeedAlone, Latency, NonNegative;
    var rate := rps * xrps + std * xstd;
    r, first := EstimateBatchSize(p, budget, rate);
    if r == Fatal {
      if rate > 0.0 && NonNegative(p) {
        NoFirst(p, budget, rate);
      }
    } else {
      if rate > 0.0 && p.Monotone() && NonNegative(p) {
        EstimateIsLargest(p, budget, rate, first);
        FirstStops(p, budget, rate, first);
      }
      if r.numGpus <= 1.0 {
        r := EstimateAlone(p, budget, rate);
      }
    }
  }
}
