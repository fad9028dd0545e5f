/** Sums and squared deviations of samples. */
module Statistics {

  ghost function Sum(s: seq<real>): real {
    if s == [] then 0.0 else Sum(s[..|s| - 1]) + s[|s| - 1]
  }

  ghost function Mean(s: seq<real>): real
    requires s != []
  {
    Sum(s) / |s| as real
  }

  ghost function Square(x: real): real {
    x * x
  }

  // The sum of the squared distances from m.
  ghost function Spread(s: seq<real>, m: real): real {
    if s == [] then 0.0 else Spread(s[..|s| - 1], m) + Square(s[|s| - 1] - m)
  }

  /** The sum of the squared deviations from the mean. */
  ghost function Deviations(s: seq<real>): real {
    if s == [] then 0.0 else Spread(s, Mean(s))
  }

  lemma {:induction false} SumHead(s: seq<real>)
    requires s != []
    ensures Sum(s) == s[0] + Sum(s[1..])
  {
    if |s| > 1 {
      SumHead(s[..|s| - 1]);
      assert s[1..][..|s| - 2] == s[..|s| - 1][1..];
    }
  }

  lemma {:induction false} SpreadHead(s: seq<real>, m: real)
    requires s != []
    ensures Spread(s, m) == Square(s[0] - m) + Spread(s[1..], m)
  {
    hide Square;
    if |s| > 1 {
      SpreadHead(s[..|s| - 1], m);
      assert s[1..][..|s| - 2] == s[..|s| - 1][1..];
    }
  }

  lemma SquareNonNegative(x: real)
    ensures x * x >= 0.0
  {
  }

  lemma {:induction false} SpreadNonNegative(s: seq<real>, m: real)
    ensures Spread(s, m) >= 0.0
  {
    if s != [] {
      SpreadNonNegative(s[..|s| - 1], m);
      SquareNonNegative(s[|s| - 1] - m);
    }
  }

  // What moving the centre from m to m + d adds, for n samples with the given sum.
  ghost function Shift(sum: real, n: real, m: real, d: real): real {
    n * d * d - 2.0 * (d * (sum - n * m))
  }

  lemma ShiftStep(sum: real, n: real, x: real, m: real, d: real)
    ensures Shift(sum + x, n + 1.0, m, d) == Shift(sum, n, m, d) + Square(x - (m + d)) - Square(x - m)
  {
  }

  lemma ShiftNone(m: real, d: real)
    ensures Shift(0.0, 0.0, m, d) == 0.0
  {
  }

  lemma {:induction false} SpreadShift(s: seq<real>, m: real, d: real)
    ensures Spread(s, m + d) == Spread(s, m) + Shift(Sum(s), |s| as real, m, d)
  {
    hide Shift, Square;
    if s == [] {
      ShiftNone(m, d);
    } else {
      var n := |s| - 1;
      SpreadShift(s[..n], m, d);
      ShiftStep(Sum(s[..n]), n as real, s[n], m, d);
      assert Sum(s) == Sum(s[..n]) + s[n] && |s| as real == n as real + 1.0;
    }
  }

  lemma ShiftAtMean(sum: real, n: real, m: real, d: real)
    requires n > 0.0 && m == sum / n
    ensures Shift(sum, n, m, d) == n * d * d
  {
  }

  // Moving the centre away from the mean.
  lemma SpreadFromMean(s: seq<real>, d: real)
    requires s != []
    ensures Spread(s, Mean(s) + d) == Deviations(s) + |s| as real * d * d
  {
    hide Spread, Shift, Sum;
    SpreadShift(s, Mean(s), d);
    ShiftAtMean(Sum(s), |s| as real, Mean(s), d);
  }

  // The running updates: the mean moves by its share of the change, the deviations by the change times the distances.
  function MeanAfter(avg: real, change: real, n: nat): real
    requires n > 0
  {
    avg + change / n as real
  }

  function DeviationsAfter(nvar: real, change: real, distance: real): real {
    nvar + change * distance
  }

  // The mean of n samples moves to m with one more: the two ways of adding the sample agree.
  lemma GrowMean(n: real, sum: real, x: real)
    requires n > 0.0
    ensures (sum + x) / (n + 1.0) == sum / n + (x - sum / n) / (n + 1.0)
  {
    var avg := sum / n;
    var d := (x - avg) / (n + 1.0);
    assert n * avg == sum && (n + 1.0) * d == x - avg;
    assert (n + 1.0) * (avg + d) == sum + x;
    Quotient(n + 1.0, avg + d, sum + x);
  }

  lemma Quotient(n: real, q: real, x: real)
    requires n > 0.0 && n * q == x
    ensures x / n == q
  {
  }

  lemma GrowDeviations(n: real, avg: real, x: real, m: real)
    requires n > 0.0 && m == avg + (x - avg) / (n + 1.0)
    ensures n * (m - avg) * (m - avg) + Square(x - m) == (x - m) * (x - avg)
  {
    var d := m - avg;
    assert (n + 1.0) * d == x - avg;
    assert n * d == x - m;
    assert n * d * d == (x - m) * d;
    assert Square(x - m) == (x - m) * (x - m);
    assert (x - m) * d + (x - m) * (x - m) == (x - m) * (d + x - m);
  }

  lemma SumMore(s: seq<real>, x: real, m: real)
    ensures Sum(s + [x]) == Sum(s) + x && Spread(s + [x], m) == Spread(s, m) + Square(x - m)
  {
    hide Square;
    assert (s + [x])[..|s|] == s;
  }

  /** One more sample: the running update of the mean and of the deviations. */
  lemma Grow(s: seq<real>, x: real)
    requires s != []
    ensures var m := MeanAfter(Mean(s), x - Mean(s), |s| + 1);
      Mean(s + [x]) == m && Deviations(s + [x]) == DeviationsAfter(Deviations(s), x - m, x - Mean(s))
  {
    hide Sum, Spread, Square;
    var n, avg := |s| as real, Mean(s);
    var m := MeanAfter(avg, x - avg, |s| + 1);
    SumMore(s, x, m);
    GrowMean(n, Sum(s), x);
    assert Mean(s + [x]) == m;
    SpreadFromMean(s, m - avg);
    GrowDeviations(n, avg, x, m);
  }

  lemma MeanIs(s: seq<real>, m: real)
    requires s != [] && |s| as real * m == Sum(s)
    ensures Mean(s) == m
  {
  }

  lemma SlideAlgebra(x: real, gone: real, m: real, avg: real, d: real)
    requires m == avg + d
    ensures (x - gone) * d + (x - m) * (x - m) - (gone - m) * (gone - m) == (x - gone) * (x - m + gone - avg)
  {
  }

  lemma SlideMean(s: seq<real>, x: real)
    requires s != []
    ensures Mean(s[1..] + [x]) == Mean(s) + (x - s[0]) / |s| as real
  {
    var n, t := |s| as real, s[1..] + [x];
    assert t[..|s| - 1] == s[1..];
    SumHead(s);
    var avg, d := Mean(s), (x - s[0]) / n;
    assert n * avg == Sum(s) && n * d == x - s[0];
    MeanIs(t, avg + d);
  }

  lemma SlideSpread(s: seq<real>, x: real, m: real)
    requires s != []
    ensures Spread(s[1..] + [x], m) == Spread(s, m) - Square(s[0] - m) + Square(x - m)
  {
    hide Square;
    var t := s[1..] + [x];
    assert t[..|s| - 1] == s[1..];
    SpreadHead(s, m);
  }

  /** The oldest sample replaced by a new one. */
  lemma Slide(s: seq<real>, x: real)
    requires s != []
    ensures var m := MeanAfter(Mean(s), x - s[0], |s|);
      && Mean(s[1..] + [x]) == m
      && Deviations(s[1..] + [x]) == DeviationsAfter(Deviations(s), x - s[0], x - m + s[0] - Mean(s))
  {
    hide Mean, Spread;
    var n, avg := |s| as real, Mean(s);
    var d := (x - s[0]) / n;
    var m := avg + d;
    SlideMean(s, x);
    SlideSpread(s, x, m);
    SpreadFromMean(s, d);
    assert n * d == x - s[0];
    assert n * d * d == (x - s[0]) * d;
    assert Deviations(s[1..] + [x]) == Spread(s[1..] + [x], m);
    SlideAlgebra(x, s[0], m, avg, d);
  }

  lemma DeviationsNonNegative(s: seq<real>)
    ensures Deviations(s) >= 0.0
  {
    if s != [] {
      SpreadNonNegative(s, Mean(s));
    }
  }
}

/** The request rate meter: mean and deviations of the latest rates, kept up to date by one update per seal. */
module RpsMeters {
  import opened Statistics

  datatype Sealing = Sealed | Backwards | NotANumber

  /** What the meter has been told: hits since the last seal, the time of it, and the rates so far. */
  datatype Tally = Tally(counter: nat, startAt: int, rates: seq<real>)

  // Requests per second over a span of nanoseconds.
  function Rate(counter: nat, span: int): real
    requires span != 0
  {
    counter as real * 1000000000.0 / span as real
  }

  // A seal only starts the clock until a request has come, and once more if the clock was never started.
  predicate TakesRate(t: Tally) {
    (t.rates != [] || t.counter != 0) && t.startAt != 0
  }

  /** A seal at a later time adds the rate since the last one. */
  function SealTally(t: Tally, now: int): Tally
    requires now > t.startAt
  {
    if TakesRate(t) then Tally(0, now, t.rates + [Rate(t.counter, now - t.startAt)])
    else if t.rates == [] && t.counter == 0 then t.(startAt := now)
    else Tally(0, now, t.rates)
  }

  // The latest n rates, or all of them.
  function Latest(rates: seq<real>, n: nat): (r: seq<real>)
    ensures |r| == if |rates| < n then |rates| else n
  {
    if |rates| <= n then rates else rates[|rates| - n..]
  }

  lemma LatestNext(rates: seq<real>, n: nat, x: real)
    requires n > 0
    ensures Latest(rates + [x], n) == if |rates| < n then rates + [x] else Latest(rates, n)[1..] + [x]
  {
  }

  // The latest rates with one more, before and after the window is full.
  lemma GrowLatest(rates: seq<real>, n: nat, x: real)
    requires 0 < |rates| < n
    ensures Latest(rates, n) == rates
    ensures var s, s' := Latest(rates, n), Latest(rates + [x], n);
      var m := MeanAfter(Mean(s), x - Mean(s), |s| + 1);
      s' != [] && Mean(s') == m && Deviations(s') == DeviationsAfter(Deviations(s), x - m, x - Mean(s))
  {
    LatestNext(rates, n, x);
    Grow(rates, x);
    hide Mean, Deviations, MeanAfter, DeviationsAfter;
  }

  lemma SlideLatest(rates: seq<real>, n: nat, x: real)
    requires 0 < n <= |rates|
    ensures |Latest(rates, n)| == n
    ensures var s, s' := Latest(rates, n), Latest(rates + [x], n);
      var m := MeanAfter(Mean(s), x - s[0], n);
      s' != [] && Mean(s') == m && Deviations(s') == DeviationsAfter(Deviations(s), x - s[0], x - m + s[0] - Mean(s))
  {
    LatestNext(rates, n, x);
    Slide(Latest(rates, n), x);
    hide Mean, Deviations, MeanAfter, DeviationsAfter, Latest;
  }

  lemma FirstLatest(n: nat, x: real)
    requires n > 0
    ensures Latest([x], n) == [x] && Mean([x]) == x && Deviations([x]) == 0.0
  {
    SingleSample(x);
  }

  // The window holds the latest rates, the oldest at idx once it is full.
  ghost predicate Holds(window: seq<real>, idx: nat, size: nat, rates: seq<real>) {
    if |rates| < size then window == rates && idx == |rates|
    else |window| == size && idx < size && Latest(rates, size) == window[idx..] + window[..idx]
  }

  lemma OldestIs(window: seq<real>, idx: nat, size: nat, rates: seq<real>)
    requires Holds(window, idx, size, rates) && |window| == size > 0
    ensures |rates| >= size && idx < size && window[idx] == Latest(rates, size)[0]
  {
    hide Latest;
    assert (window[idx..] + window[..idx])[0] == window[idx];
  }

  function NextIndex(idx: nat, size: nat): (r: nat)
    requires idx < size
    ensures r == if idx + 1 == size then 0 else idx + 1
  {
    (idx + 1) % size
  }

  class RpsMeter {
    const size: nat
    var counter: nat
    var startAt: int
    var window: seq<real>
    var idx: nat
    var avg: real
    var nvar: real
    ghost var rates: seq<real>

    ghost function Told(): Tally
      reads this
    {
      Tally(counter, startAt, rates)
    }

    ghost predicate Valid()
      reads this
    {
      && size > 0 && Holds(window, idx, size, rates)
      && (rates != [] ==> avg == Mean(Latest(rates, size)))
      && (rates != [] ==> nvar == Deviations(Latest(rates, size)))
    }

    constructor (windowSize: nat)
      requires windowSize > 0
      ensures Valid() && size == windowSize && Told() == Tally(0, 0, [])
    {
      size, counter, startAt, window, idx := windowSize, 0, 0, [], 0;
      avg, nvar, rates := 0.0, 0.0, [];
    }

    method Hit()
      requires Valid()
      modifies this
      ensures Valid() && Told() == old(Told()).(counter := old(counter) + 1)
    {
      counter := counter + 1;
    }

    // Brings mean and deviations up to date with a new rate.
    method Update(rps: real)
      requires Valid()
      modifies `avg, `nvar
      ensures avg == Mean(Latest(rates + [rps], size)) && nvar == Deviations(Latest(rates + [rps], size))
    {
      hide Mean, Deviations, MeanAfter, DeviationsAfter, Latest;
      if |window| == size {
        OldestIs(window, idx, size, rates);
        hide Holds;
        SlideLatest(rates, size, rps);
        var gone := window[idx];
        var mean := MeanAfter(avg, rps - gone, size);
        nvar := DeviationsAfter(nvar, rps - gone, rps - mean + gone - avg);
        avg := mean;
      } else if |window| == 0 {
        assert rates == [];
        FirstLatest(size, rps);
        avg, nvar := rps, 0.0;
        assert rates + [rps] == [rps];
      } else {
        assert window == rates && |rates| < size;
        hide Holds;
        GrowLatest(rates, size, rps);
        var mean := MeanAfter(avg, rps - avg, |window| + 1);
        nvar := DeviationsAfter(nvar, rps - mean, rps - avg);
        avg := mean;
      }
    }

    /** A seal keeps mean and deviations those of the latest rates; the time must advance. */
    method SealCounter(now: int) returns (r: Sealing)
      requires Valid()
      modifies this
      ensures r == Backwards <==> now < old(startAt)
      ensures r == NotANumber <==> now == old(startAt) && TakesRate(old(Told()))
      ensures r == Sealed ==> Valid()
      ensures r == Sealed && now > old(startAt) ==> Told() == SealTally(old(Told()), now)
      ensures r == Sealed && now == old(startAt) ==> rates == old(rates)
    {
      hide Mean, Deviations, Rate, Latest, NextIndex;
      if now < startAt {
        return Backwards;
      }
      var lastTime := startAt;
      startAt := now;
      if window == [] && counter == 0 {
        return Sealed;
      }
      if lastTime == 0 {
        counter := 0;
        return Sealed;
      }
      if now == lastTime {
        return NotANumber;
      }
      var rps := Rate(counter, now - lastTime);
      Update(rps);
      Slid(window, idx, size, rates, rps);
      if |window| == size {
        window := window[idx := rps];
      } else {
        window := window + [rps];
      }
      idx := NextIndex(idx, size);
      counter := 0;
      rates := rates + [rps];
      r := Sealed;
    }
  }

  lemma SingleSample(x: real)
    ensures Mean([x]) == x && Deviations([x]) == 0.0
  {
    assert [x][..0] == [];
    assert Sum([x]) == x && Spread([x][..0], x) == 0.0;
    MeanIs([x], x);
  }

  lemma Slid(window: seq<real>, idx: nat, size: nat, rates: seq<real>, x: real)
    requires size > 0 && Holds(window, idx, size, rates)
    ensures |window| == size ==> idx < |window|
    ensures Holds(if |window| == size then window[idx := x] else window + [x],
      if idx + 1 == size then 0 else idx + 1, size, rates + [x])
  {
  }

  datatype Event = Hit | Seal(now: int)

  // The time of the latest seal, zero before the first.
  function LastSeal(events: seq<Event>): int {
    if events == [] then 0
    else match events[|events| - 1] case Seal(now) => now case Hit => LastSeal(events[..|events| - 1])
  }

  /** Each seal comes strictly after the one before, the first one after the epoch. */
  ghost predicate Advancing(events: seq<Event>) {
    forall i {:trigger events[i]} | 0 <= i < |events| && events[i].Seal? :: LastSeal(events[..i]) < events[i].now
  }

  /** What a history of hits and seals amounts to. */
  function TallyOf(events: seq<Event>): (t: Tally)
    ensures t.startAt == LastSeal(events)
  {
    if events == [] then Tally(0, 0, [])
    else
      var t := TallyOf(events[..|events| - 1]);
      match events[|events| - 1]
      case Hit => t.(counter := t.counter + 1)
      case Seal(now) => if now > t.startAt then SealTally(t, now) else Tally(0, now, t.rates)
  }

  // The hits since the latest seal.
  function HitsSince(events: seq<Event>): nat {
    if events == [] then 0
    else match events[|events| - 1] case Seal(_) => 0 case Hit => 1 + HitsSince(events[..|events| - 1])
  }

  // A request has come after the first seal.
  ghost predicate HitAfterSeal(events: seq<Event>) {
    exists i, j {:trigger events[i], events[j]} :: 0 <= i < j < |events| && events[i].Seal? && events[j].Hit?
  }

  ghost predicate SomeSeal(events: seq<Event>) {
    exists i {:trigger events[i]} :: 0 <= i < |events| && events[i].Seal?
  }

  lemma SealMore(events: seq<Event>)
    requires events != []
    ensures var before, last := events[..|events| - 1], events[|events| - 1];
      && (SomeSeal(events) <==> SomeSeal(before) || last.Seal?)
      && (HitAfterSeal(events) <==> HitAfterSeal(before) || (SomeSeal(before) && last.Hit?))
  {
    var n := |events| - 1;
    var before := events[..n];
    assert forall i {:trigger events[i]} | 0 <= i < n :: events[i] == before[i];
    assert forall i {:trigger before[i]} | 0 <= i < n :: events[i] == before[i];
    if SomeSeal(before) {
      var i :| 0 <= i < n && before[i].Seal?;
      assert events[i].Seal? && events[n] == events[n];
    }
    if HitAfterSeal(before) {
      var i, j :| 0 <= i < j < n && before[i].Seal? && before[j].Hit?;
      assert events[i].Seal? && events[j].Hit?;
    }
  }

  // What a history amounts to so far: hits since the latest seal, and rates once a request has been sealed in.
  ghost predicate Counts(events: seq<Event>, t: Tally) {
    && t.counter == HitsSince(events) && t.startAt == LastSeal(events) && (SomeSeal(events) <==> t.startAt != 0)
    && (t.rates == [] ==> (HitAfterSeal(events) <==> SomeSeal(events) && t.counter > 0))
    && (t.rates != [] ==> HitAfterSeal(events))
  }

  lemma FirstAdvancing(events: seq<Event>)
    requires events != [] && Advancing(events)
    ensures var n := |events| - 1;
      && Advancing(events[..n]) && LastSeal(events[..n]) >= 0
      && (events[n].Seal? ==> LastSeal(events[..n]) < events[n].now)
  {
    var n := |events| - 1;
    forall i | 0 <= i < n && events[..n][i].Seal? ensures LastSeal(events[..n][..i]) < events[..n][i].now {
      assert events[..n][..i] == events[..i] && events[i] == events[..n][i];
    }
    SealsPositive(events[..n]);
  }

  lemma {:induction false} SealsPositive(events: seq<Event>)
    requires Advancing(events)
    ensures LastSeal(events) >= 0 && (SomeSeal(events) <==> LastSeal(events) > 0)
  {
    if events != [] {
      var n := |events| - 1;
      SealMore(events);
      forall i | 0 <= i < n && events[..n][i].Seal? ensures LastSeal(events[..n][..i]) < events[..n][i].now {
        assert events[..n][..i] == events[..i] && events[i] == events[..n][i];
      }
      SealsPositive(events[..n]);
    }
  }

  lemma {:induction false} TallyCounts(events: seq<Event>)
    requires Advancing(events)
    ensures Counts(events, TallyOf(events))
  {
    SealsPositive(events);
    if events != [] {
      var n := |events| - 1;
      FirstAdvancing(events);
      TallyCounts(events[..n]);
      SealMore(events);
      hide Rate, SomeSeal, HitAfterSeal, Advancing;
    }
  }

  /**
   Every history with strictly advancing seals: a seal adds a rate if and only if a request has come since the
   first seal, namely the requests since the latest seal over the time since then. Hits add none.
   */
  lemma RatesAre(events: seq<Event>)
    requires events != [] && Advancing(events)
    ensures var before, last := events[..|events| - 1], events[|events| - 1];
      var rates, rates' := TallyOf(before).rates, TallyOf(events).rates;
      if last.Seal? && HitAfterSeal(before) then
        && |rates'| == |rates| + 1 && rates'[..|rates|] == rates
        && rates'[|rates|] * (last.now - LastSeal(before)) as real == HitsSince(before) as real * 1000000000.0
      else rates' == rates
  {
    FirstAdvancing(events);
    TallyCounts(events[..|events| - 1]);
    hide Advancing, HitAfterSeal;
  }

  /**
   Every history with strictly advancing seals: the meter's mean and deviations are those of
   the latest rates, so the number under the square root is not negative.
   */
  method Run(size: nat, events: seq<Event>) returns (n: nat, avg: real, nvar: real)
    requires size > 0 && Advancing(events)
    ensures var latest := Latest(TallyOf(events).rates, size);
      n == |latest| && nvar >= 0.0 && (n > 0 ==> avg == Mean(latest) && nvar == Deviations(latest))
  {
    hide Mean, Deviations, Latest, SealTally;
    var m := new RpsMeter(size);
    for k := 0 to |events|
      invariant fresh(m) && m.Valid() && m.size == size && m.Told() == TallyOf(events[..k])
    {
      assert events[..k + 1][..k] == events[..k];
      match events[k]
      case Hit => m.Hit();
      case Seal(now) => var r := m.SealCounter(now);
    }
    assert events[..|events|] == events;
    HoldsLatest(m.window, m.idx, size, m.rates);
    n, avg, nvar := |m.window|, m.avg, if m.window == [] then 0.0 else m.nvar;
    DeviationsNonNegative(Latest(m.rates, size));
  }

  lemma HoldsLatest(window: seq<real>, idx: nat, size: nat, rates: seq<real>)
    requires size > 0 && Holds(window, idx, size, rates)
    ensures |window| == |Latest(rates, size)| && (window == [] <==> rates == [])
  {
  }
}
