/** How the delayed scheduler forms a batch plan for one model session on one backend. */
module DelayedPlans {
  import opened ModelProfiles
  import opened BatchPolicy

  const CTRL_PLANE_NS := 2_000_000
  const DATA_PLANE_NS := 5_000_000

  // The deadlines of the remaining queries, in the order of their global ids.
  type Deadlines = seq<int>

  datatype Found = Missing | At(n: nat)

  // Skips queries that would miss their deadline in a batch as large as the rest allows, up to `reserved`.
  function Skip(p: Profile, dl: Deadlines, exec: int, reserved: nat, k: nat): Found
    requires k <= |dl| && reserved >= 1
    decreases |dl| - k
  {
    if k == |dl| then At(k)
    else if !p.Covers(Min(reserved, |dl| - k)) then Missing
    else if dl[k] > Finish(p, exec, Min(reserved, |dl| - k)) then At(k)
    else Skip(p, dl, exec, reserved, k + 1)
  }

  // Extends a batch of n that starts with query k while the first query still makes it.
  function Grow(p: Profile, dl: Deadlines, exec: int, k: nat, n: nat): Found
    requires k < |dl| && k + n <= |dl|
    decreases |dl| - n
  {
    if k + n == |dl| then At(n)
    else if !p.Covers(n + 1) then Missing
    else if dl[k] > Finish(p, exec, n + 1) then Grow(p, dl, exec, k, n + 1)
    else At(n)
  }

  // A batch takes `size` queries from place `start` on; size 0 means that there is none.
  datatype Segment = Uncovered | Segment(start: nat, size: nat)

  function Select(p: Profile, dl: Deadlines, exec: int, reserved: nat): Segment
    requires reserved >= 1
  {
    match Skip(p, dl, exec, reserved, 0)
    case Missing => Uncovered
    case At(k) =>
      if k >= |dl| then Segment(|dl|, 0) else
        match Grow(p, dl, exec, k, Min(reserved, |dl| - k))
        case Missing => Uncovered
        case At(n) => Segment(k, n)
  }

  // Query j misses its deadline in a batch as large as the queries from j on allow.
  ghost predicate MissesAt(p: Profile, dl: Deadlines, exec: int, reserved: nat, j: nat) {
    j < |dl| && p.Covers(Min(reserved, |dl| - j)) && dl[j] <= Finish(p, exec, Min(reserved, |dl| - j))
  }

  lemma {:induction false} SkipStops(p: Profile, dl: Deadlines, exec: int, reserved: nat, k: nat)
    requires k <= |dl| && reserved >= 1 && Skip(p, dl, exec, reserved, k).At?
    ensures k <= Skip(p, dl, exec, reserved, k).n <= |dl|
    ensures var k' := Skip(p, dl, exec, reserved, k).n;
      && (k' < |dl| ==> p.Covers(Min(reserved, |dl| - k')) && dl[k'] > Finish(p, exec, Min(reserved, |dl| - k')))
      && forall j: nat | k <= j < k' :: MissesAt(p, dl, exec, reserved, j)
    decreases |dl| - k
  {
    if k < |dl| && dl[k] <= Finish(p, exec, Min(reserved, |dl| - k)) {
      SkipStops(p, dl, exec, reserved, k + 1);
    }
  }

  lemma {:induction false} GrowStops(p: Profile, dl: Deadlines, exec: int, k: nat, n: nat)
    requires k < |dl| && k + n <= |dl| && Grow(p, dl, exec, k, n).At?
    requires p.Covers(n) && dl[k] > Finish(p, exec, n)
    ensures var m := Grow(p, dl, exec, k, n).n;
      && n <= m && k + m <= |dl| && p.Covers(m) && dl[k] > Finish(p, exec, m)
      && (k + m < |dl| ==> p.Covers(m + 1) && dl[k] <= Finish(p, exec, m + 1))
    decreases |dl| - n
  {
    if k + n < |dl| && dl[k] > Finish(p, exec, n + 1) {
      GrowStops(p, dl, exec, k, n + 1);
    }
  }

  /**
   The batch is one run of consecutive ids. Its first query makes its deadline with
   the whole batch started at once, and would not with one more; every query before
   it was skipped for good reason.
   */
  lemma SelectIsBest(p: Profile, dl: Deadlines, exec: int, reserved: nat)
    requires reserved >= 1 && Select(p, dl, exec, reserved).Segment?
    ensures var Segment(k, n) := Select(p, dl, exec, reserved);
      && k + n <= |dl|
      && (n == 0 ==> k == |dl|)
      && (n > 0 ==>
            && p.Covers(n) && dl[k] > Finish(p, exec, n)
            && n >= Min(reserved, |dl| - k)
            && (k + n < |dl| ==> p.Covers(n + 1) && dl[k] <= Finish(p, exec, n + 1)))
      && forall j: nat | j < k :: MissesAt(p, dl, exec, reserved, j)
  {
    SkipStops(p, dl, exec, reserved, 0);
    var k := Skip(p, dl, exec, reserved, 0).n;
    if k < |dl| {
      GrowStops(p, dl, exec, k, Min(reserved, |dl| - k));
    }
  }

  // When the chosen batch of n starts: no earlier than `exec`, otherwise as late as n + 1 queries would allow.
  function ExecTime(p: Profile, first: int, exec: int, n: nat): int
    requires p.Covers(n + 1)
  {
    var delayed := first - (Nanos(p.Forward(n + 1)) + ProcElapse(p));
    if exec >= delayed then exec else delayed
  }

  /**
   The plan finishes by its first query's deadline exactly when it is not delayed
   beyond the earliest start, or one more query does not make the batch faster.
   */
  lemma FinishInTimeIff(p: Profile, first: int, exec: int, n: nat)
    requires p.Covers(n) && p.Covers(n + 1) && first > Finish(p, exec, n)
    ensures Finish(p, ExecTime(p, first, exec, n), n) <= first
      <==> ExecTime(p, first, exec, n) == exec || Nanos(p.Forward(n)) <= Nanos(p.Forward(n + 1))
  {
  }

  lemma MonotoneFinishesInTime(p: Profile, first: int, exec: int, n: nat)
    requires p.Monotone() && p.Covers(n) && p.Covers(n + 1) && first > Finish(p, exec, n)
    ensures Finish(p, ExecTime(p, first, exec, n), n) <= first
  {
  }

  // The sliding window over the ids, then the free lunch.
  method SlideWindow(p: Profile, dl: Deadlines, exec: int, reserved: nat) returns (ok: bool, start: nat, size: nat)
    requires reserved >= 1
    ensures Select(p, dl, exec, reserved) == if ok then Segment(start, size) else Uncovered
  {
    var i, remain := 0, |dl|;
    var bs := Min(remain, reserved);
    start, size := 0, 0;
    while size < bs && i < |dl|
      invariant 0 <= i <= |dl| && remain == |dl| - i && i == start + size
      invariant Skip(p, dl, exec, reserved, 0) == Skip(p, dl, exec, reserved, start)
      invariant bs == Min(reserved, |dl| - start)
      invariant size > 0 ==> size <= bs && p.Covers(bs) && dl[start] > Finish(p, exec, bs)
      decreases |dl| - i
    {
      remain := remain - 1;
      var deadline := if size == 0 then dl[i] else dl[start];
      if !p.Covers(bs) {
        return false, 0, 0;
      }
      if deadline > Finish(p, exec, bs) {
        size := size + 1;
      } else {
        bs := Min(size + remain, reserved);
        start := start + 1;
      }
      i := i + 1;
    }
    if size == 0 {
      return true, |dl|, 0;
    }
    assert Skip(p, dl, exec, reserved, 0) == At(start);
    while i < |dl|
      invariant i == start + size <= |dl| && size >= 1
      invariant Grow(p, dl, exec, start, size) == Grow(p, dl, exec, start, Min(reserved, |dl| - start))
      decreases |dl| - i
    {
      if !p.Covers(size + 1) {
        return false, 0, 0;
      }
      if dl[start] > Finish(p, exec, size + 1) {
        size := size + 1;
      } else {
        break;
      }
      i := i + 1;
    }
    return true, start, size;
  }

  // The first query of the batch has the earliest deadline of all its members.
  ghost predicate FirstIsEarliest(dl: Deadlines, s: Segment) {
    s.Segment? && s.start + s.size <= |dl| ==>
      forall j {:trigger dl[j]} | s.start <= j < s.start + s.size :: dl[s.start] <= dl[j]
  }

  ghost predicate Nondecreasing(dl: Deadlines) {
    forall i, j {:trigger dl[i], dl[j]} | 0 <= i <= j < |dl| :: dl[i] <= dl[j]
  }

  // A profile under which every batch of at most n takes no time.
  function Instant(n: nat): Profile {
    Profile(seq(n + 1, _ => Entry(0.0, 0.0)), Entry(0.0, 0.0), Entry(0.0, 0.0))
  }

  lemma InstantFinish(n: nat, exec: int, b: nat)
    requires 1 <= b <= n
    ensures Instant(n).Covers(b) && Finish(Instant(n), exec, b) == exec
  {
    assert Instant(n).Forward(b) == 0.0;
  }

  lemma {:induction false} InstantSkip(dl: Deadlines, exec: int, k: nat, i: nat)
    requires k <= i < |dl| && dl[i] > exec
    ensures var r := Skip(Instant(|dl|), dl, exec, |dl|, k); r.At? && k <= r.n <= i && dl[r.n] > exec
    decreases i - k
  {
    hide Instant, Finish;
    InstantFinish(|dl|, exec, Min(|dl|, |dl| - k));
    if dl[k] <= exec {
      InstantSkip(dl, exec, k + 1, i);
    }
  }

  // If a later id has an earlier deadline, some batch has a member that is due before its first query.
  lemma InversionShows(dl: Deadlines, i: nat, j: nat)
    requires i < j < |dl| && dl[i] > dl[j]
    ensures !FirstIsEarliest(dl, Select(Instant(|dl|), dl, dl[j], |dl|))
  {
    InstantSkip(dl, dl[j], 0, i);
    var k := Skip(Instant(|dl|), dl, dl[j], |dl|, 0).n;
    assert dl[k] > dl[j];
    assert Select(Instant(|dl|), dl, dl[j], |dl|) == Segment(k, |dl| - k);
  }

  /**
   Queries are taken in the order of their ids, not of their deadlines. So the
   first query of a plan is the most urgent one, whatever the profile, the start
   and the target, exactly when deadlines do not decrease with the ids.
   */
  lemma FirstIsEarliestIff(dl: Deadlines)
    ensures (forall p: Profile, exec: int, reserved: nat | reserved >= 1 ::
      FirstIsEarliest(dl, Select(p, dl, exec, reserved)))
      <==> Nondecreasing(dl)
  {
    if !Nondecreasing(dl) {
      var i, j :| 0 <= i <= j < |dl| && dl[i] > dl[j];
      InversionShows(dl, i, j);
    }
  }
}
