/** What the delayed scheduler plans, said outright and without its loops. */
module DelayedLaws {
  import opened Wrappers
  import opened Orderings
  import opened ModelProfiles
  import opened BatchPolicy
  import opened DelayedPlans
  import opened DelayedStates
  import opened DelayedSafety
  import opened DelayedRuns

  // A batch of n started at exec is done before the deadline.
  predicate Makes(p: Profile, exec: int, n: nat, deadline: int) {
    p.Covers(n) && exec + Nanos(p.Forward(n)) + Nanos(p.pre.Total()) + Nanos(p.post.Total()) < deadline
  }

  // It is not.
  predicate Misses(p: Profile, exec: int, n: nat, deadline: int) {
    p.Covers(n) && exec + Nanos(p.Forward(n)) + Nanos(p.pre.Total()) + Nanos(p.post.Total()) >= deadline
  }

  // Each of the queries from k to m misses its deadline in a batch as large as the rest allows, up to a bound.
  ghost predicate AllMiss(p: Profile, dl: Deadlines, exec: int, reserved: nat, k: nat, m: nat) {
    forall j {:trigger dl[j]} | k <= j < m && j < |dl| :: Misses(p, exec, Min(reserved, |dl| - j), dl[j])
  }

  // The first query makes its deadline in batches from n to m, and no longer in one more, if there is one more.
  ghost predicate Grown(p: Profile, dl: Deadlines, exec: int, k: nat, n: nat, m: nat)
    requires k < |dl|
  {
    && n <= m && k + m <= |dl|
    && (forall i: nat {:trigger Makes(p, exec, i, dl[k])} | n < i <= m :: Makes(p, exec, i, dl[k]))
    && (k + m < |dl| ==> Misses(p, exec, m + 1, dl[k]))
  }

  /** The batch: after those that miss their deadlines, as many queries as the first one lets in. */
  ghost predicate Selected(p: Profile, dl: Deadlines, exec: int, reserved: nat, k: nat, n: nat) {
    && k <= |dl| && AllMiss(p, dl, exec, reserved, 0, k)
    && if k == |dl| then n == 0
       else
         var least := Min(reserved, |dl| - k);
         Makes(p, exec, least, dl[k]) && Grown(p, dl, exec, k, least, n)
  }

  lemma {:induction false} SkipIff(p: Profile, dl: Deadlines, exec: int, reserved: nat, k: nat, m: nat)
    requires k <= |dl| && reserved >= 1
    ensures Skip(p, dl, exec, reserved, k) == At(m) <==>
      && k <= m <= |dl| && AllMiss(p, dl, exec, reserved, k, m)
      && (m < |dl| ==> Makes(p, exec, Min(reserved, |dl| - m), dl[m]))
    decreases |dl| - k
  {
    if k < |dl| {
      var b := Min(reserved, |dl| - k);
      if Misses(p, exec, b, dl[k]) {
        SkipIff(p, dl, exec, reserved, k + 1, m);
        hide Misses;
      } else {
        assert k < m ==> dl[k] == dl[k];
      }
    }
  }

  lemma {:induction false} GrowIff(p: Profile, dl: Deadlines, exec: int, k: nat, n: nat, m: nat)
    requires k < |dl| && k + n <= |dl|
    ensures Grow(p, dl, exec, k, n) == At(m) <==> Grown(p, dl, exec, k, n, m)
    decreases |dl| - n
  {
    if k + n < |dl| {
      if Makes(p, exec, n + 1, dl[k]) {
        GrowIff(p, dl, exec, k, n + 1, m);
        assert !Misses(p, exec, n + 1, dl[k]);
        hide Makes, Misses;
      } else {
        assert n + 1 <= m ==> !Makes(p, exec, n + 1, dl[k]);
      }
    }
  }

  /** The loops choose a batch if and only if it is the one described. */
  lemma SelectIff(p: Profile, dl: Deadlines, exec: int, reserved: nat, k: nat, n: nat)
    requires reserved >= 1
    ensures Select(p, dl, exec, reserved) == Segment(k, n) <==> Selected(p, dl, exec, reserved, k, n)
  {
    hide Makes, Misses, Skip, Grow, AllMiss, Grown;
    SkipIff(p, dl, exec, reserved, 0, k);
    var s := Skip(p, dl, exec, reserved, 0);
    if s.At? {
      SkipIff(p, dl, exec, reserved, 0, s.n);
      if s.n < |dl| {
        GrowIff(p, dl, exec, s.n, Min(reserved, |dl| - s.n), n);
        if Grow(p, dl, exec, s.n, Min(reserved, |dl| - s.n)).At? {
          GrowIff(p, dl, exec, s.n, Min(reserved, |dl| - s.n), Grow(p, dl, exec, s.n, Min(reserved, |dl| - s.n)).n);
        }
      }
    }
  }

  // The earliest start: when the backend is available and the plan can have reached it, and no later.
  ghost predicate FirstStart(available: int, now: int, exec: int) {
    && available <= exec && now + CTRL_PLANE_NS + DATA_PLANE_NS <= exec
    && (exec == available || exec == now + CTRL_PLANE_NS + DATA_PLANE_NS)
  }

  // The first time from exec on at which a batch of n would not be done before the deadline.
  ghost predicate DelayedTo(p: Profile, exec: int, n: nat, deadline: int, t: int) {
    && exec <= t && Overruns(p, t, n, deadline)
    && forall u {:trigger Overruns(p, u, n, deadline)} :: exec <= u && Overruns(p, u, n, deadline) ==> t <= u
  }

  predicate Overruns(p: Profile, t: int, n: nat, deadline: int) {
    p.Covers(n) && t + Nanos(p.Forward(n)) + Nanos(p.pre.Total()) + Nanos(p.post.Total()) >= deadline
  }

  /**
   A plan for some of the given ids: the batch selected for the earliest start. It starts when one
   more query would use up the time to the first deadline, and is sent to arrive just then.
   */
  ghost predicate PlannedAs(
    p: Profile, ids: seq<nat>, queries: Queries, reserved: nat, exec: int, k: nat, plan: BatchPlan)
  {
    var n := |plan.ids|;
    && n > 0 && Selected(p, DeadlinesOf(ids, queries), exec, reserved, k, n)
    && k + n <= |ids| && plan.ids == ids[k..k + n] && plan.earliestDeadline == DeadlinesOf(ids, queries)[k]
    && DelayedTo(p, exec, n + 1, plan.earliestDeadline, plan.execTime)
    && p.Covers(n) && plan.finishTime == plan.execTime + Nanos(p.Forward(n)) + Nanos(p.pre.Total()) +
         Nanos(p.post.Total())
    && plan.sendTime + CTRL_PLANE_NS + DATA_PLANE_NS == plan.execTime
  }

  lemma FirstStartIff(available: int, now: int, exec: int)
    ensures FirstStart(available, now, exec) <==> exec == EarliestExec(available, now)
  {
  }

  lemma DelayedToIff(p: Profile, first: int, exec: int, n: nat, t: int)
    requires p.Covers(n + 1)
    ensures DelayedTo(p, exec, n + 1, first, t) <==> t == ExecTime(p, first, exec, n)
  {
    var r := ExecTime(p, first, exec, n);
    assert Overruns(p, r, n + 1, first);
  }

  lemma MadeIff(p: Profile, b: nat, model: nat, ids: seq<nat>, queries: Queries, reserved: nat, exec: int,
                k: nat, n: nat, plan: BatchPlan)
    requires reserved >= 1 && Select(p, DeadlinesOf(ids, queries), exec, reserved) == Segment(k, n) && n > 0
    requires k + n <= |ids| && p.Covers(n) && p.Covers(n + 1) && |plan.ids| == n
    ensures plan == MakePlan(p, b, model, ids[k..k + n], DeadlinesOf(ids, queries)[k], exec) <==>
      plan.planId == 0 && plan.backend == b && plan.model == model &&
      PlannedAs(p, ids, queries, reserved, exec, k, plan)
  {
    SelectIff(p, DeadlinesOf(ids, queries), exec, reserved, k, n);
    DelayedToIff(p, DeadlinesOf(ids, queries)[k], exec, n, plan.execTime);
    hide Select, Selected, DelayedTo, ExecTime;
  }

  lemma PlannedSelects(p: Profile, ids: seq<nat>, queries: Queries, reserved: nat, exec: int, k: nat, plan: BatchPlan)
    requires reserved >= 1 && PlannedAs(p, ids, queries, reserved, exec, k, plan)
    ensures Select(p, DeadlinesOf(ids, queries), exec, reserved) == Segment(k, |plan.ids|)
    ensures |plan.ids| > 0 && p.Covers(|plan.ids| + 1)
  {
    hide Selected;
    SelectIff(p, DeadlinesOf(ids, queries), exec, reserved, k, |plan.ids|);
  }

  /**
   Trying a model session gives a plan if and only if it is the one described, and none if and only if
   every query misses its deadline in a batch as large as the rest allows.
   */
  lemma TryPlanIff(p: Profile, b: nat, available: int, model: nat, ids: seq<nat>, queries: Queries, now: int,
                   reserved: BatchSize, plan: BatchPlan)
    ensures var r := TryPlan(p, b, available, model, ids, queries, now, reserved);
      && (r == Candidate(plan) <==>
          && plan.planId == 0 && plan.backend == b && plan.model == model
          && exists exec, k {:trigger PlannedAs(p, ids, queries, reserved, exec, k, plan)} ::
               FirstStart(available, now, exec) && PlannedAs(p, ids, queries, reserved, exec, k, plan))
      && (r == NoPlan <==>
          exists exec {:trigger FirstStart(available, now, exec)} ::
            FirstStart(available, now, exec) && AllMiss(p, DeadlinesOf(ids, queries), exec, reserved, 0, |ids|))
  {
    var dl, exec := DeadlinesOf(ids, queries), EarliestExec(available, now);
    FirstStartIff(available, now, exec);
    forall e ensures FirstStart(available, now, e) <==> e == exec {
      FirstStartIff(available, now, e);
    }
    hide FirstStart, EarliestExec;
    TryPlanHas(p, b, available, model, ids, queries, now, reserved, plan);
    TryPlanNone(p, b, available, model, ids, queries, now, reserved);
    hide TryPlan, PlannedAs, AllMiss;
  }

  lemma TryPlanNone(p: Profile, b: nat, available: int, model: nat, ids: seq<nat>, queries: Queries, now: int,
                    reserved: BatchSize)
    ensures TryPlan(p, b, available, model, ids, queries, now, reserved) == NoPlan <==>
      AllMiss(p, DeadlinesOf(ids, queries), EarliestExec(available, now), reserved, 0, |ids|)
  {
    var dl, exec := DeadlinesOf(ids, queries), EarliestExec(available, now);
    SelectIff(p, dl, exec, reserved, |dl|, 0);
    var sel := Select(p, dl, exec, reserved);
    if sel.Segment? {
      SelectIsBest(p, dl, exec, reserved);
    }
    hide Select, AllMiss, Makes, Grown, EarliestExec, Finish;
  }

  lemma TryPlanHas(p: Profile, b: nat, available: int, model: nat, ids: seq<nat>, queries: Queries, now: int,
                   reserved: BatchSize, plan: BatchPlan)
    ensures TryPlan(p, b, available, model, ids, queries, now, reserved) == Candidate(plan) <==>
      && plan.planId == 0 && plan.backend == b && plan.model == model
      && exists k {:trigger PlannedAs(p, ids, queries, reserved, EarliestExec(available, now), k, plan)} ::
           PlannedAs(p, ids, queries, reserved, EarliestExec(available, now), k, plan)
  {
    hide Select, PlannedAs, Finish, EarliestExec, DelayedPlans.ExecTime;
    var dl, exec := DeadlinesOf(ids, queries), EarliestExec(available, now);
    var sel := Select(p, dl, exec, reserved);
    if sel.Segment? {
      SelectIsBest(p, dl, exec, reserved);
      if sel.size > 0 && p.Covers(sel.size + 1) && |plan.ids| == sel.size {
        MadeIff(p, b, model, ids, queries, reserved, exec, sel.start, sel.size, plan);
      }
    }
    forall k | PlannedAs(p, ids, queries, reserved, exec, k, plan)
      ensures sel == Segment(k, |plan.ids|) && |plan.ids| > 0 && p.Covers(|plan.ids| + 1)
    {
      PlannedSelects(p, ids, queries, reserved, exec, k, plan);
    }
  }

  // The free queries of a model, in the order of their ids.
  ghost predicate FreeOf(ids: seq<nat>, free: set<nat>, queries: Queries, m: nat) {
    && Increasing(ids)
    && forall id {:trigger id in ids} {:trigger id in free} ::
         id in ids <==> id in free && id in queries && queries[id].model == m
  }

  lemma {:induction false} IncreasingUnique(a: seq<nat>, b: seq<nat>)
    requires Increasing(a) && Increasing(b) && forall x {:trigger x in a} {:trigger x in b} :: x in a <==> x in b
    ensures a == b
  {
    HasMember(a);
    HasMember(b);
    if a != [] {
      assert a[0] in a && b[0] in b;
      FirstLeast(a, b[0]);
      FirstLeast(b, a[0]);
      forall x ensures x in a[1..] <==> x in b[1..] {
        InTail(a, x);
        InTail(b, x);
      }
      IncreasingUnique(a[1..], b[1..]);
    }
  }

  lemma HasMember(a: seq<nat>)
    ensures a != [] ==> exists x {:trigger x in a} :: x in a
  {
    assert a != [] ==> a[0] in a;
  }

  lemma FirstLeast(a: seq<nat>, x: nat)
    requires Increasing(a) && x in a
    ensures a[0] <= x
  {
  }

  lemma InTail(a: seq<nat>, x: nat)
    requires Increasing(a) && a != []
    ensures x in a[1..] <==> x in a && x != a[0]
  {
    assert a == [a[0]] + a[1..];
  }

  lemma InOrderIs(ids: seq<nat>, free: set<nat>, queries: Queries, m: nat)
    requires FreeOf(ids, free, queries, m)
    ensures InOrder(IdsOf(free, queries, m)) == ids
  {
    var s := IdsOf(free, queries, m);
    InOrderMembers(s);
    InOrderIncreases(s);
    hide Increasing, InOrder;
    forall x ensures x in InOrder(s) <==> x in ids {
      assert x in InOrder(s) <==> x in IdSet(InOrder(s));
    }
    IncreasingUnique(InOrder(s), ids);
  }

  // What a model session offers for a backend: a plan over its free queries.
  ghost predicate Planning(s: State, profiles: Profiles, env: Env, ids: seq<nat>, b: nat, m: nat, plan: BatchPlan) {
    && b in s.backends && m in profiles && plan.planId == 0 && plan.backend == b && plan.model == m
    && exists exec, k {:trigger PlannedAs(profiles[m], ids, s.queries, env.reserved(b, m), exec, k, plan)} ::
         && FirstStart(s.backends[b].nextAvailable, env.clock(b, m), exec)
         && PlannedAs(profiles[m], ids, s.queries, env.reserved(b, m), exec, k, plan)
  }

  // Or nothing, because every one of them would miss its deadline.
  ghost predicate Passing(s: State, profiles: Profiles, env: Env, ids: seq<nat>, b: nat, m: nat) {
    b in s.backends && m in profiles ==>
      exists exec {:trigger FirstStart(s.backends[b].nextAvailable, env.clock(b, m), exec)} ::
        && FirstStart(s.backends[b].nextAvailable, env.clock(b, m), exec)
        && AllMiss(profiles[m], DeadlinesOf(ids, s.queries), exec, env.reserved(b, m), 0, |ids|)
  }

  /** A model session offers a plan if and only if it is the one described, and passes if and only if it has to. */
  lemma OfferIff(
    s: State, profiles: Profiles, env: Env, free: set<nat>, b: nat, m: nat, ids: seq<nat>, plan: BatchPlan)
    requires FreeOf(ids, free, s.queries, m)
    ensures Offer(s, profiles, env, free, b, m) == Candidate(plan) <==> Planning(s, profiles, env, ids, b, m, plan)
    ensures Offer(s, profiles, env, free, b, m) == NoPlan <==> Passing(s, profiles, env, ids, b, m)
  {
    InOrderIs(ids, free, s.queries, m);
    if b in s.backends && m in profiles {
      TryPlanIff(profiles[m], b, s.backends[b].nextAvailable, m, ids, s.queries, env.clock(b, m), env.reserved(b, m),
        plan);
      if IdsOf(free, s.queries, m) == {} {
        NoneFree(ids, free, s.queries, m);
        NothingPlanned(s, profiles, env, b, m, plan);
      } else {
        hide IdsOf, TryPlan, PlannedAs, AllMiss, FirstStart, FreeOf, InOrder;
      }
    }
  }

  lemma NoneFree(ids: seq<nat>, free: set<nat>, queries: Queries, m: nat)
    requires FreeOf(ids, free, queries, m) && IdsOf(free, queries, m) == {}
    ensures ids == []
  {
    HasMember(ids);
    forall x ensures x in ids <==> x in IdsOf(free, queries, m) {
    }
  }

  lemma NothingPlanned(s: State, profiles: Profiles, env: Env, b: nat, m: nat, plan: BatchPlan)
    requires b in s.backends && m in profiles
    ensures !Planning(s, profiles, env, [], b, m, plan) && Passing(s, profiles, env, [], b, m)
  {
    var exec := EarliestExec(s.backends[b].nextAvailable, env.clock(b, m));
    FirstStartIff(s.backends[b].nextAvailable, env.clock(b, m), exec);
  }

  ghost function OfferAt(s: State, profiles: Profiles, env: Env, free: set<nat>, b: nat, models: seq<nat>, i: nat): Try
    requires i < |models|
  {
    Offer(s, profiles, env, free, b, models[i])
  }

  // The choice: nothing if nobody offers a plan, else the first of those that start the earliest; nobody fails.
  ghost predicate Picks(
    s: State, profiles: Profiles, env: Env, free: set<nat>, b: nat, models: seq<nat>, best: Option<BatchPlan>)
  {
    && (forall i {:trigger OfferAt(s, profiles, env, free, b, models, i)} | 0 <= i < |models| ::
         !OfferAt(s, profiles, env, free, b, models, i).Aborted?)
    && match best
       case None =>
         forall i {:trigger OfferAt(s, profiles, env, free, b, models, i)} | 0 <= i < |models| ::
           OfferAt(s, profiles, env, free, b, models, i).NoPlan?
       case Some(plan) =>
         exists i {:trigger PickedAt(s, profiles, env, free, b, models, plan, i)} ::
           0 <= i < |models| && PickedAt(s, profiles, env, free, b, models, plan, i)
  }

  ghost predicate PickedAt(
    s: State, profiles: Profiles, env: Env, free: set<nat>, b: nat, models: seq<nat>, plan: BatchPlan, i: nat)
  {
    && i < |models| && OfferAt(s, profiles, env, free, b, models, i) == Candidate(plan)
    && forall j {:trigger OfferAt(s, profiles, env, free, b, models, j)} | 0 <= j < |models| ::
         var o := OfferAt(s, profiles, env, free, b, models, j);
         o.Candidate? ==> plan.execTime <= o.plan.execTime && (j < i ==> plan.execTime < o.plan.execTime)
  }

  lemma PicksSome(s: State, profiles: Profiles, env: Env, free: set<nat>, b: nat, models: seq<nat>,
                  x: Option<BatchPlan>)
    requires Picks(s, profiles, env, free, b, models, x)
    ensures x.Some? <==>
      exists i {:trigger OfferAt(s, profiles, env, free, b, models, i)} ::
        0 <= i < |models| && OfferAt(s, profiles, env, free, b, models, i).Candidate?
  {
    hide Offer;
  }

  lemma PicksOnce(s: State, profiles: Profiles, env: Env, free: set<nat>, b: nat, models: seq<nat>,
                  x: Option<BatchPlan>, y: Option<BatchPlan>)
    requires Picks(s, profiles, env, free, b, models, x) && Picks(s, profiles, env, free, b, models, y)
    ensures x == y
  {
    hide Offer;
    PicksSome(s, profiles, env, free, b, models, x);
    PicksSome(s, profiles, env, free, b, models, y);
    if x.Some? {
      var i :| 0 <= i < |models| && PickedAt(s, profiles, env, free, b, models, x.value, i);
      var j :| 0 <= j < |models| && PickedAt(s, profiles, env, free, b, models, y.value, j);
    }
  }

  lemma {:induction false} BestPicks(s: State, profiles: Profiles, env: Env, free: set<nat>, b: nat, models: seq<nat>)
    ensures var r := Best(s, profiles, env, free, b, models);
      if r.Died? then
        exists i {:trigger OfferAt(s, profiles, env, free, b, models, i)} ::
          0 <= i < |models| && OfferAt(s, profiles, env, free, b, models, i).Aborted?
      else Picks(s, profiles, env, free, b, models, r.best)
  {
    hide Offer;
    if models != [] {
      var n := |models| - 1;
      var first := models[..n];
      BestPicks(s, profiles, env, free, b, first);
      var before := Best(s, profiles, env, free, b, first);
      if before.Died? {
        var i :| 0 <= i < n && OfferAt(s, profiles, env, free, b, first, i).Aborted?;
        assert OfferAt(s, profiles, env, free, b, models, i).Aborted?;
      } else if !OfferAt(s, profiles, env, free, b, models, n).Aborted? {
        PicksMore(s, profiles, env, free, b, models, before.best);
      }
    }
  }

  lemma PicksMore(s: State, profiles: Profiles, env: Env, free: set<nat>, b: nat, models: seq<nat>,
                  best: Option<BatchPlan>)
    requires models != [] && Picks(s, profiles, env, free, b, models[..|models| - 1], best)
    requires !Offer(s, profiles, env, free, b, models[|models| - 1]).Aborted?
    ensures var o := Offer(s, profiles, env, free, b, models[|models| - 1]);
      Picks(s, profiles, env, free, b, models,
        if o.Candidate? && (best == None || o.plan.execTime < best.value.execTime) then Some(o.plan) else best)
  {
    hide Offer;
    var n := |models| - 1;
    var first, o := models[..n], OfferAt(s, profiles, env, free, b, models, n);
    assert forall i {:trigger OfferAt(s, profiles, env, free, b, models, i)} | 0 <= i < n ::
      OfferAt(s, profiles, env, free, b, models, i) == OfferAt(s, profiles, env, free, b, first, i);
    if best.Some? {
      var i :| 0 <= i < n && PickedAt(s, profiles, env, free, b, first, best.value, i);
      if o.Candidate? && o.plan.execTime < best.value.execTime {
        assert PickedAt(s, profiles, env, free, b, models, o.plan, n);
      } else {
        assert PickedAt(s, profiles, env, free, b, models, best.value, i);
      }
    } else if o.Candidate? {
      assert PickedAt(s, profiles, env, free, b, models, o.plan, n);
    }
  }

  /** The choice among the model sessions is exactly that. */
  lemma BestIff(s: State, profiles: Profiles, env: Env, free: set<nat>, b: nat, models: seq<nat>,
                best: Option<BatchPlan>)
    ensures Best(s, profiles, env, free, b, models) == Chosen(best) <==>
      Picks(s, profiles, env, free, b, models, best)
  {
    hide Offer, Best;
    BestPicks(s, profiles, env, free, b, models);
    var r := Best(s, profiles, env, free, b, models);
    if r.Chosen? && Picks(s, profiles, env, free, b, models, best) {
      PicksOnce(s, profiles, env, free, b, models, r.best, best);
    }
  }

  // The queries in the plans of some backends.
  ghost function Used(backends: Backends, nodes: seq<nat>): set<nat> {
    if nodes == [] then {} else Used(backends, nodes[..|nodes| - 1]) + PlannedIds(backends, nodes[|nodes| - 1])
  }

  ghost function PlannedIds(backends: Backends, b: nat): set<nat> {
    if Planned(backends, b) then IdSet(PlanOf(backends, b).ids) else {}
  }

  ghost function PlanCount(backends: Backends, nodes: seq<nat>): nat {
    if nodes == [] then 0
    else PlanCount(backends, nodes[..|nodes| - 1]) + if Planned(backends, nodes[|nodes| - 1]) then 1 else 0
  }

  /**
   The turn of the backend at place i: with the queries that the plans of those before it leave free,
   it gets the model sessions' choice, under the next plan id.
   */
  ghost predicate Turn(s: State, profiles: Profiles, env: Env, free: set<nat>, first: nat, nodes: seq<nat>, i: nat)
    requires i < |nodes|
  {
    var b, left := nodes[i], free - Used(s.backends, nodes[..i]);
    && b in s.backends
    && match s.backends[b].nextPlan
       case None => Picks(s, profiles, env, left, b, env.models, None)
       case Some(plan) =>
         && plan.planId == first + PlanCount(s.backends, nodes[..i])
         && Picks(s, profiles, env, left, b, env.models, Some(plan.(planId := 0)))
  }

  ghost predicate AllTurns(s: State, profiles: Profiles, env: Env, free: set<nat>, first: nat, nodes: seq<nat>) {
    && (forall i {:trigger Turn(s, profiles, env, free, first, nodes, i)} | 0 <= i < |nodes| ::
          Turn(s, profiles, env, free, first, nodes, i))
    && s.nextPlanId == first + PlanCount(s.backends, nodes)
  }

  lemma OfferPlain(s: State, profiles: Profiles, env: Env, free: set<nat>, b: nat, m: nat)
    ensures var o := Offer(s, profiles, env, free, b, m); o.Candidate? ==> o.plan.planId == 0
  {
    hide Select, InOrder, IdsOf;
  }

  lemma PicksPlain(s: State, profiles: Profiles, env: Env, free: set<nat>, b: nat, models: seq<nat>, plan: BatchPlan)
    requires Picks(s, profiles, env, free, b, models, Some(plan))
    ensures plan.planId == 0
  {
    hide Offer;
    var i :| 0 <= i < |models| && PickedAt(s, profiles, env, free, b, models, plan, i);
    OfferPlain(s, profiles, env, free, b, models[i]);
  }

  // Two states with the same queries and the same availability of b.
  ghost predicate Alike(s: State, s': State, b: nat) {
    && s.queries == s'.queries && b in s.backends && b in s'.backends
    && s.backends[b].nextAvailable == s'.backends[b].nextAvailable
  }

  lemma PicksSame(s: State, s': State, profiles: Profiles, env: Env, free: set<nat>, b: nat, models: seq<nat>,
                  best: Option<BatchPlan>)
    requires Alike(s, s', b) && Picks(s, profiles, env, free, b, models, best)
    ensures Picks(s', profiles, env, free, b, models, best)
  {
    forall i | 0 <= i < |models|
      ensures OfferAt(s, profiles, env, free, b, models, i) == OfferAt(s', profiles, env, free, b, models, i)
    {
    }
    hide OfferAt;
    if best.Some? {
      var i :| 0 <= i < |models| && PickedAt(s, profiles, env, free, b, models, best.value, i);
      assert PickedAt(s', profiles, env, free, b, models, best.value, i);
    }
  }

  // Backends that are the same on some nodes.
  ghost predicate SameOn(x: Backends, y: Backends, nodes: seq<nat>) {
    forall b {:trigger b in nodes} | b in nodes :: (b in x <==> b in y) && (b in x ==> x[b] == y[b])
  }

  lemma {:induction false} UsedSame(x: Backends, y: Backends, nodes: seq<nat>)
    requires SameOn(x, y, nodes)
    ensures Used(x, nodes) == Used(y, nodes)
  {
    if nodes != [] {
      var n := |nodes| - 1;
      SameFirst(x, y, nodes, n);
      UsedSame(x, y, nodes[..n]);
      assert nodes[n] in nodes;
    }
  }

  lemma {:induction false} CountSame(x: Backends, y: Backends, nodes: seq<nat>)
    requires SameOn(x, y, nodes)
    ensures PlanCount(x, nodes) == PlanCount(y, nodes)
  {
    if nodes != [] {
      var n := |nodes| - 1;
      SameFirst(x, y, nodes, n);
      CountSame(x, y, nodes[..n]);
      assert nodes[n] in nodes;
    }
  }

  lemma SameFirst(x: Backends, y: Backends, nodes: seq<nat>, i: nat)
    requires SameOn(x, y, nodes) && i <= |nodes|
    ensures SameOn(x, y, nodes[..i])
  {
    forall b | b in nodes[..i] ensures b in nodes {
    }
  }

  lemma OneMore(backends: Backends, nodes: seq<nat>, b: nat)
    ensures Used(backends, nodes + [b]) == Used(backends, nodes) + PlannedIds(backends, b)
    ensures PlanCount(backends, nodes + [b]) == PlanCount(backends, nodes) + if Planned(backends, b) then 1 else 0
  {
    assert (nodes + [b])[..|nodes|] == nodes;
  }

  lemma TurnKept(s: State, s': State, profiles: Profiles, env: Env, free: set<nat>, first: nat, nodes: seq<nat>,
                 b: nat, i: nat)
    requires i < |nodes| && SameOn(s.backends, s'.backends, nodes) && s.queries == s'.queries
    requires Turn(s, profiles, env, free, first, nodes, i)
    ensures Turn(s', profiles, env, free, first, nodes + [b], i)
  {
    SameFirst(s.backends, s'.backends, nodes, i);
    UsedSame(s.backends, s'.backends, nodes[..i]);
    CountSame(s.backends, s'.backends, nodes[..i]);
    assert (nodes + [b])[..i] == nodes[..i] && (nodes + [b])[i] == nodes[i];
    assert nodes[i] in nodes;
    hide Used, PlanCount, Picks;
    var c, left := nodes[i], free - Used(s.backends, nodes[..i]);
    var plan := s.backends[c].nextPlan;
    PicksSame(s, s', profiles, env, left, c, env.models,
      if plan.Some? then Some(plan.value.(planId := 0)) else None);
  }

  // What assigning a plan to one backend changes.
  lemma AssignedIs(r: Round, b: nat, best: Option<BatchPlan>, nodes: seq<nat>)
    requires b in r.state.backends && b !in nodes
    ensures var r' := Assigned(r, b, best);
      && b in r'.state.backends && SameOn(r.state.backends, r'.state.backends, nodes)
      && Alike(r.state, r'.state, b) && r'.state.backends.Keys == r.state.backends.Keys
      && r'.state.backends[b].nextPlan ==
           (if best.Some? then Some(best.value.(planId := r.state.nextPlanId)) else None)
      && r'.state.nextPlanId == r.state.nextPlanId + (if best.Some? then 1 else 0)
      && r'.free == r.free - PlannedIds(r'.state.backends, b)
  {
    hide IdSet;
  }

  // A backend gets the best plan in its turn.
  lemma TurnTaken(s: State, s': State, profiles: Profiles, env: Env, free: set<nat>, first: nat, nodes: seq<nat>,
                  b: nat, best: Option<BatchPlan>)
    requires Alike(s, s', b) && SameOn(s.backends, s'.backends, nodes)
    requires s.nextPlanId == first + PlanCount(s.backends, nodes)
    requires s'.backends[b].nextPlan == if best.Some? then Some(best.value.(planId := s.nextPlanId)) else None
    requires Picks(s, profiles, env, free - Used(s.backends, nodes), b, env.models, best)
    ensures Turn(s', profiles, env, free, first, nodes + [b], |nodes|)
  {
    hide Used, PlanCount, SameOn, Picks;
    var all, left := nodes + [b], free - Used(s.backends, nodes);
    assert all[..|nodes|] == nodes && all[|nodes|] == b;
    UsedSame(s.backends, s'.backends, nodes);
    CountSame(s.backends, s'.backends, nodes);
    if best.Some? {
      PicksPlain(s, profiles, env, left, b, env.models, best.value);
    }
    PicksSame(s, s', profiles, env, left, b, env.models, best);
  }

  lemma TurnCounts(r: Round, b: nat, best: Option<BatchPlan>, free: set<nat>, first: nat, nodes: seq<nat>)
    requires b in r.state.backends && b !in nodes && r.free == free - Used(r.state.backends, nodes)
    requires r.state.nextPlanId == first + PlanCount(r.state.backends, nodes)
    ensures var r' := Assigned(r, b, best);
      && r'.free == free - Used(r'.state.backends, nodes + [b])
      && r'.state.nextPlanId == first + PlanCount(r'.state.backends, nodes + [b])
  {
    AssignedIs(r, b, best, nodes);
    hide Assigned, Used, PlanCount, SameOn, PlannedIds;
    var r' := Assigned(r, b, best);
    UsedSame(r.state.backends, r'.state.backends, nodes);
    CountSame(r.state.backends, r'.state.backends, nodes);
    OneMore(r'.state.backends, nodes, b);
    LessTwice(free, Used(r.state.backends, nodes), PlannedIds(r'.state.backends, b));
  }

  lemma LessTwice(free: set<nat>, x: set<nat>, y: set<nat>)
    ensures free - x - y == free - (x + y)
  {
  }

  // One more backend has its turn.
  lemma TurnsMore(r: Round, profiles: Profiles, env: Env, free: set<nat>, first: nat, nodes: seq<nat>, b: nat,
                  best: Option<BatchPlan>)
    requires b in r.state.backends && b !in nodes && AllTurns(r.state, profiles, env, free, first, nodes)
    requires r.free == free - Used(r.state.backends, nodes)
    requires Picks(r.state, profiles, env, r.free, b, env.models, best)
    ensures var r' := Assigned(r, b, best);
      && AllTurns(r'.state, profiles, env, free, first, nodes + [b])
      && r'.free == free - Used(r'.state.backends, nodes + [b]) && r'.state.queries == r.state.queries
      && r'.state.backends.Keys == r.state.backends.Keys
  {
    hide Used, PlanCount, SameOn, Assigned, Turn, Picks, PlannedIds;
    var s' := Assigned(r, b, best).state;
    AssignedIs(r, b, best, nodes);
    TurnCounts(r, b, best, free, first, nodes);
    TurnTaken(r.state, s', profiles, env, free, first, nodes, b, best);
    forall i | 0 <= i < |nodes + [b]| ensures Turn(s', profiles, env, free, first, nodes + [b], i) {
      if i < |nodes| {
        assert Turn(r.state, profiles, env, free, first, nodes, i);
        TurnKept(r.state, s', profiles, env, free, first, nodes, b, i);
      }
    }
  }

  /** Every backend gets its plan in its turn. */
  lemma {:induction false} AssignTurns(r: Round, profiles: Profiles, env: Env, nodes: seq<nat>)
    requires NoRepeats(nodes) && forall b {:trigger b in nodes} | b in nodes :: b in r.state.backends
    ensures var a := AssignAll(r, profiles, env, nodes);
      a.Some? ==>
        && AllTurns(a.value.state, profiles, env, r.free, r.state.nextPlanId, nodes)
        && a.value.free == r.free - Used(a.value.state.backends, nodes) && a.value.state.queries == r.state.queries
        && a.value.state.backends.Keys == r.state.backends.Keys
  {
    hide Turn, Picks, Best, Assigned;
    if nodes == [] {
      assert Used(r.state.backends, []) == {};
    } else {
      hide AllTurns, Used;
      var n := |nodes| - 1;
      var b, rest := nodes[n], nodes[..n];
      FirstNodes(nodes, r.state.backends.Keys);
      NotIn(rest, b);
      AssignTurns(r, profiles, env, rest);
      var before := AssignAll(r, profiles, env, rest);
      if before.Some? {
        var best := Best(before.value.state, profiles, env, before.value.free, b, env.models);
        if best.Chosen? {
          BestIff(before.value.state, profiles, env, before.value.free, b, env.models, best.best);
          TurnsMore(before.value, profiles, env, r.free, r.state.nextPlanId, rest, b, best.best);
          assert rest + [b] == nodes;
        }
      }
    }
  }

  lemma NotIn(nodes: seq<nat>, b: nat)
    requires b !in IdSet(nodes)
    ensures b !in nodes
  {
  }

  // Somebody cannot even be asked: a batch size outside its profile is looked up.
  ghost predicate Fails(r: Round, profiles: Profiles, env: Env, b: nat) {
    exists i {:trigger OfferAt(r.state, profiles, env, r.free, b, env.models, i)} ::
      0 <= i < |env.models| && OfferAt(r.state, profiles, env, r.free, b, env.models, i).Aborted?
  }

  lemma BestFailsIff(r: Round, profiles: Profiles, env: Env, b: nat)
    ensures Best(r.state, profiles, env, r.free, b, env.models).Died? <==> Fails(r, profiles, env, b)
  {
    hide Best, OfferAt;
    BestPicks(r.state, profiles, env, r.free, b, env.models);
  }

  // It happens in the turn of the backend at place i.
  ghost predicate FailsAt(r: Round, profiles: Profiles, env: Env, nodes: seq<nat>, i: nat)
    requires i < |nodes|
  {
    var a := AssignAll(r, profiles, env, nodes[..i]);
    a.Some? && Fails(a.value, profiles, env, nodes[i])
  }

  /** Assigning the plans ends the process if and only if it happens in somebody's turn. */
  lemma {:induction false} AssignEndsIff(r: Round, profiles: Profiles, env: Env, nodes: seq<nat>)
    ensures AssignAll(r, profiles, env, nodes) == None <==>
      exists i {:trigger FailsAt(r, profiles, env, nodes, i)} :: 0 <= i < |nodes| && FailsAt(r, profiles, env, nodes, i)
  {
    hide Best, Fails;
    if nodes != [] {
      var n := |nodes| - 1;
      var rest := nodes[..n];
      AssignEndsIff(r, profiles, env, rest);
      forall i | 0 <= i < n ensures FailsAt(r, profiles, env, nodes, i) <==> FailsAt(r, profiles, env, rest, i) {
        assert rest[..i] == nodes[..i];
      }
      var before := AssignAll(r, profiles, env, rest);
      if before.Some? {
        BestFailsIff(before.value, profiles, env, nodes[n]);
        assert FailsAt(r, profiles, env, nodes, n) <==> AssignAll(r, profiles, env, nodes) == None;
      } else {
        var i :| 0 <= i < n && FailsAt(r, profiles, env, rest, i);
        assert FailsAt(r, profiles, env, nodes, i);
      }
    }
  }

  /**
   After a reschedule every backend has the plan it should have: in the order of availability each had
   its turn, and chose among the plans of all model sessions for the queries still free.
   */
  lemma RescheduleTurns(s: State, profiles: Profiles, env: Env)
    requires Sound(s, profiles) && AllNonNegative(profiles) && WalksAll(s, env)
    requires Rescheduled(s, profiles, env).Some?
    ensures var s' := Rescheduled(s, profiles, env).value;
      exists order {:trigger AllTurns(s', profiles, env, s'.queries.Keys, s.nextPlanId, order)} ::
        && Lists(order, s.backends.Keys) && EarliestFirst(s'.backends, order)
        && AllTurns(s', profiles, env, s'.queries.Keys, s.nextPlanId, order)
  {
    hide Sound, AllNonNegative, DropAll, AssignAll, ByAvailability, InLists, AllTurns, RoundOk;
    SoundLists(s, profiles);
    DropAllKeeps(s, env.models, env.now);
    var t, s' := DropAll(s, env.models, env.now), Rescheduled(s, profiles, env).value;
    ByAvailabilityIs(t.backends, env.nodes);
    var order := ByAvailability(t.backends, env.nodes);
    AssignTurns(Round(t, t.queries.Keys), profiles, env, order);
    DroppedLedger(s, t, IdSet(env.models), env.now, profiles);
    FreshRound(t, profiles);
    AssignAllOk(Round(t, t.queries.Keys), profiles, env, order);
    assert OnlyPlans(t, s', IdSet(order));
    hide Total, Left, CurrentIds, Ledger, History, Accounted;
    StillEarliest(t.backends, s'.backends, order);
    assert AllTurns(s', profiles, env, s'.queries.Keys, s.nextPlanId, order);
  }

  lemma StillEarliest(x: Backends, y: Backends, order: seq<nat>)
    requires EarliestFirst(x, order) && x.Keys == y.Keys
    requires forall b {:trigger y[b]} | b in y :: y[b].nextAvailable == x[b].nextAvailable
    ensures EarliestFirst(y, order)
  {
  }

  /** A query joins the pending ones, in its place by deadline, unless its id is taken or its model unknown. */
  lemma EnqueueIs(s: State, id: nat, info: Info)
    requires InLists(s.queries, s.waiting)
    ensures var s' := Enqueued(s, id, info);
      if id in s.queries || info.model !in s.waiting then s' == s
      else
        && s' == s.(queries := s.queries[id := info], accepted := s.accepted + [id], waiting := s'.waiting)
        && InLists(s'.queries, s'.waiting) && s'.waiting == s.waiting[info.model := s'.waiting[info.model]]
  {
    if id !in s.queries && info.model in s.waiting {
      EnqueueLists(s.queries, s.waiting, id, info);
    }
    hide InLists;
  }

  /** In every run: right after a reschedule each backend has the plan that it got in its turn. */
  lemma RunReschedules(models: set<nat>, nodes: set<nat>, profiles: Profiles, events: seq<Event>)
    requires AllNonNegative(profiles) && AllRegular(models, nodes, events)
    requires events != [] && events[|events| - 1].Reschedule? && RunOf(models, nodes, profiles, events).Some?
    ensures var s' := RunOf(models, nodes, profiles, events).value;
      exists order, first {:trigger
        AllTurns(s', profiles, events[|events| - 1].env, s'.queries.Keys, first, order)} ::
        && Lists(order, nodes) && EarliestFirst(s'.backends, order)
        && AllTurns(s', profiles, events[|events| - 1].env, s'.queries.Keys, first, order)
  {
    hide Sound, AllNonNegative, AllTurns, Rescheduled, EarliestFirst, SentSafely, SentIds, PlanIds;
    var before := events[..|events| - 1];
    FirstRegular(models, nodes, events);
    RunIsSafe(models, nodes, profiles, before);
    var s := RunOf(models, nodes, profiles, before).value;
    RescheduleTurns(s, profiles, events[|events| - 1].env);
  }
}
