/** Whole runs of a model thread. */
module ThreadRuns {
  import opened Wrappers
  import opened ModelProfiles
  import opened QueryLists
  import opened BatchPolicy
  import opened ThreadStates

  // Global ids are issued once.
  ghost predicate DistinctIds(events: seq<Event>) {
    forall i, j {:trigger events[i], events[j]} | 0 <= i < j < |events| && events[i].Arrive? && events[j].Arrive? ::
      events[i].id != events[j].id
  }

  // What a thread accepts in a run: the arrivals for its model until it is stopped.
  function AcceptedOf(s: Setup, events: seq<Event>): seq<Query> {
    if events == [] then []
    else
      var n := |events| - 1;
      AcceptedOf(s, events[..n]) + AcceptedBy(s, events[n], StopThread in events[..n])
  }

  lemma StoppedMore(events: seq<Event>)
    requires events != []
    ensures var n := |events| - 1; StopThread in events <==> StopThread in events[..n] || events[n].StopThread?
  {
    var n := |events| - 1;
    assert events == events[..n] + [events[n]];
  }

  // Ids of accepted queries come from arrivals.
  lemma {:induction false} AcceptedArrived(s: Setup, events: seq<Event>, q: Query)
    requires q in AcceptedOf(s, events)
    ensures exists i {:trigger events[i]} :: 0 <= i < |events| && events[i].Arrive? && events[i].id == q.id
  {
    var n := |events| - 1;
    if q in AcceptedOf(s, events[..n]) {
      AcceptedArrived(s, events[..n], q);
      var i :| 0 <= i < |events[..n]| && events[..n][i].Arrive? && events[..n][i].id == q.id;
      assert events[i] == events[..n][i];
    } else {
      assert q in AcceptedBy(s, events[n], StopThread in events[..n]);
    }
  }

  // With distinct ids, the key of an arriving query is new.
  lemma ArrivalIsNew(s: Setup, events: seq<Event>)
    requires DistinctIds(events) && events != [] && events[|events| - 1].Arrive?
    ensures Arrived(s, events[|events| - 1]) !in AcceptedOf(s, events[..|events| - 1])
  {
    var n := |events| - 1;
    var q := Arrived(s, events[n]);
    if q in AcceptedOf(s, events[..n]) {
      AcceptedArrived(s, events[..n], q);
    }
  }

  lemma {:induction false} AcceptedOnce(s: Setup, events: seq<Event>, q: Query)
    requires DistinctIds(events)
    ensures multiset(AcceptedOf(s, events))[q] <= 1
  {
    if events != [] {
      var n := |events| - 1;
      FirstDistinct(events);
      AcceptedOnce(s, events[..n], q);
      if events[n].Arrive? {
        ArrivalIsNew(s, events);
      }
    }
  }

  lemma FirstDistinct(events: seq<Event>)
    requires DistinctIds(events) && events != []
    ensures DistinctIds(events[..|events| - 1])
  {
  }

  lemma WaitingIsAccepted(s: Setup, t: Thread, q: Query)
    requires Balanced(s, t) && q !in t.accepted
    ensures q !in t.w.queries && q !in t.w.inputs
  {
    hide AllSafe, CandidateFits, SentQueries;
    assert q !in multiset(t.accepted);
    assert q in t.w.queries ==> q in multiset(t.w.queries);
    assert q in t.w.inputs ==> q in multiset(t.w.inputs);
  }

  lemma IdleBalanced(s: Setup)
    ensures Balanced(s, IDLE)
  {
  }

  /**
   For every run: no plan is late by more than 2 ns for any of its queries, and the accepted
   queries are exactly those waiting, reported as dropped, or sent, each once.
   */
  lemma {:induction false} RunBalanced(s: Setup, events: seq<Event>)
    requires s.profile.Monotone() && DistinctIds(events) && RunOf(s, events).Some?
    ensures var t := RunOf(s, events).value;
      && Balanced(s, t) && AllSafe(t.sent) && t.accepted == AcceptedOf(s, events)
      && (t.stopped <==> StopThread in events)
  {
    hide Profile.Monotone, DistinctIds, Handled, Balanced, AllSafe;
    if events == [] {
      IdleBalanced(s);
    } else {
      var n := |events| - 1;
      FirstDistinct(events);
      RunBalanced(s, events[..n]);
      var t := RunOf(s, events[..n]).value;
      StoppedMore(events);
      if events[n].Arrive? {
        ArrivalIsNew(s, events);
        WaitingIsAccepted(s, t, Arrived(s, events[n]));
      }
      HandledBalanced(s, t, events[n]);
    }
    BalancedSafe(s, RunOf(s, events).value);
  }

  lemma BalancedSafe(s: Setup, t: Thread)
    requires Balanced(s, t)
    ensures AllSafe(t.sent)
  {
    hide AllSafe;
  }

  /** Every accepted query is in exactly one place. */
  lemma RunAccounts(s: Setup, events: seq<Event>, q: Query)
    requires s.profile.Monotone() && DistinctIds(events) && RunOf(s, events).Some?
    ensures var t := RunOf(s, events).value;
      var places := multiset(t.w.queries) + multiset(t.w.inputs) + multiset(t.reported) + SentQueries(t.sent);
      multiset(AcceptedOf(s, events)) == places && places[q] <= 1
  {
    RunBalanced(s, events);
    AcceptedOnce(s, events, q);
    hide RunOf, AcceptedOf, SentQueries, AllSafe, CandidateFits;
  }

  // The number of arrivals.
  function Arrivals(events: seq<Event>): nat {
    if events == [] then 0 else Arrivals(events[..|events| - 1]) + if events[|events| - 1].Arrive? then 1 else 0
  }

  // The clock reading of the last update that an event makes, after one at `before`.
  function ClockAfter(e: Event, before: int): int {
    match e
    case Arrive(_, _, _, now, _) => now
    case Timer(now, _) => now
    case Grants(_, _, _, later, _) => later
    case StopThread => before
  }

  // The clock goes forward, and grants are of GPUs that are free when a plan can reach them.
  predicate Orderly(s: Setup, e: Event, before: int) {
    match e
    case Arrive(_, _, _, now, _) => before <= now
    case Timer(now, _) => before <= now
    case Grants(cmd, now, _, later, _) => before <= now <= later && cmd.freeAt <= s.Earliest(now)
    case StopThread => true
  }

  function LastClock(events: seq<Event>, start: int): int {
    if events == [] then start else ClockAfter(events[|events| - 1], LastClock(events[..|events| - 1], start))
  }

  predicate AllOrderly(s: Setup, events: seq<Event>, start: int) {
    events == [] ||
    (AllOrderly(s, events[..|events| - 1], start) &&
     Orderly(s, events[|events| - 1], LastClock(events[..|events| - 1], start)))
  }

  // Few enough queries for the profile, and no time yet beyond the clock.
  ghost predicate Covered(s: Setup, t: Thread, n: nat, clock: int) {
    && |t.w.queries| + |t.w.inputs| <= n && s.profile.Covers(n + 1) && t.lastExec <= s.Earliest(clock)
  }

  lemma InsertLonger(list: seq<Query>, q: Query)
    ensures |Insert(list, q)| <= |list| + 1
  {
  }

  lemma PoolSize(w: Window)
    ensures |Pool(w)| == |w.queries| + |w.inputs| + |w.drops|
  {
  }

  /** An update survives if the clock has not gone back and the profile covers all waiting queries and one more. */
  lemma UpdatedSurvives(s: Setup, t: Thread, now: int, target: Target, n: nat, clock: int)
    requires Good(t.w) && t.w.drops == [] && Covered(s, t, n, clock) && clock <= now
    ensures Updated(s, t, now, target).Some? && Covered(s, Updated(s, t, now, target).value, n, now)
  {
    var earliest := s.Earliest(now);
    CoveredNeverFatal(s.profile, earliest, target, t.w);
    PolicySafe(s.profile, earliest, target, t.w);
    var w := Expanded(s.profile, earliest, target, t.w).w;
    PoolSize(t.w);
    PoolSize(w);
    hide Expanded, Pool, Settled, HeadFits, ExecAt, ExecElapse;
  }

  lemma HandledSurvives(s: Setup, t: Thread, e: Event, n: nat, clock: int)
    requires s.profile.Monotone() && Balanced(s, t) && Covered(s, t, n, clock) && Orderly(s, e, clock)
    requires e.Arrive? ==> Arrived(s, e) !in t.w.queries && Arrived(s, e) !in t.w.inputs && s.profile.Covers(n + 2)
    ensures Handled(s, t, e).Some?
    ensures Covered(s, Handled(s, t, e).value, if e.Arrive? then n + 1 else n, ClockAfter(e, clock))
  {
    hide Updated, Profile.Monotone, CandidateFits, AllSafe, Accounted;
    match e
    case Arrive(index, id, recv, now, target) =>
      var q := Arrived(s, e);
      BalancedSorted(s, t);
      AcceptSorted(t, q);
      InsertLonger(t.w.queries, q);
      UpdatedSurvives(s, WithQuery(t, q), now, target, n + 1, clock);
    case Timer(now, target) => UpdatedSurvives(s, t, now, target, n, clock);
    case Grants(cmd, now, target, later, laterTarget) => GrantSurvives(s, t, cmd, now, target, later, laterTarget, n,
      clock);
    case StopThread =>
  }

  lemma GrantSurvives(
    s: Setup, t: Thread, cmd: Grant, now: int, target: Target, later: int, laterTarget: Target, n: nat, clock: int)
    requires s.profile.Monotone() && Balanced(s, t) && Covered(s, t, n, clock)
    requires clock <= now <= later && cmd.freeAt <= s.Earliest(now)
    ensures GpuGranted(s, t, cmd, now, target, later, laterTarget).Some?
    ensures Covered(s, GpuGranted(s, t, cmd, now, target, later, laterTarget).value.thread, n, later)
  {
    hide Updated, Profile.Monotone, CandidateFits, AllSafe, Accounted;
    BalancedSorted(s, t);
    UpdatedSurvives(s, t, now, target, n, clock);
    UpdatedBalanced(s, t, now, target);
    var t' := Updated(s, t, now, target).value;
    if t'.w.inputs != [] {
      PlanSorted(s, t', cmd);
      hide ExecElapse;
      UpdatedSurvives(s, WithPlan(s, t', cmd), later, laterTarget, n, now);
    }
  }

  /**
   A run survives if the clock never goes back, each granted GPU is free when a plan can reach it,
   and the profile covers as many queries as arrive, and one more.
   */
  lemma {:induction false} RunSurvives(s: Setup, events: seq<Event>, start: int)
    requires s.profile.Monotone() && DistinctIds(events) && 0 <= s.Earliest(start)
    requires AllOrderly(s, events, start) && s.profile.Covers(Arrivals(events) + 1)
    ensures RunOf(s, events).Some?
    ensures Covered(s, RunOf(s, events).value, Arrivals(events), LastClock(events, start))
  {
    hide Profile.Monotone, DistinctIds, Handled, Balanced, AllSafe, Orderly, ClockAfter;
    if events != [] {
      var n := |events| - 1;
      FirstDistinct(events);
      RunSurvives(s, events[..n], start);
      RunBalanced(s, events[..n]);
      var t := RunOf(s, events[..n]).value;
      if events[n].Arrive? {
        ArrivalIsNew(s, events);
        WaitingIsAccepted(s, t, Arrived(s, events[n]));
      }
      HandledSurvives(s, t, events[n], Arrivals(events[..n]), LastClock(events[..n], start));
    }
  }
}
