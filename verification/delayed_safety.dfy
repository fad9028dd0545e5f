/** What every step of the delayed scheduler keeps. */
module DelayedSafety {
  import opened Wrappers
  import opened Orderings
  import opened ModelProfiles
  import opened QueryLists
  import opened BatchPolicy
  import opened DelayedPlans
  import opened DelayedStates

  /** The per-model lists hold exactly the pending queries, in order of deadline. */
  ghost predicate InLists(queries: Queries, waiting: Waiting) {
    && (forall m {:trigger waiting[m]} | m in waiting :: Ascending(waiting[m]))
    && (forall m, q {:trigger q in waiting[m]} | m in waiting && q in waiting[m] ::
          q.id in queries && queries[q.id] == Info(q.deadline, m))
    && (forall id {:trigger queries[id]} | id in queries ::
          queries[id].model in waiting && Query(queries[id].deadline, id) in waiting[queries[id].model])
  }

  lemma EnqueueLists(queries: Queries, waiting: Waiting, id: nat, info: Info)
    requires InLists(queries, waiting) && id !in queries && info.model in waiting
    ensures InLists(queries[id := info], waiting[info.model := Insert(waiting[info.model], Query(info.deadline, id))])
  {
    var q := Query(info.deadline, id);
    InsertAscending(waiting[info.model], q);
    forall x ensures x in Insert(waiting[info.model], q) <==> x in waiting[info.model] || x == q {
      InsertMembers(waiting[info.model], q, x);
    }
  }

  // A list loses one query, and the query is no longer pending.
  lemma RemoveLists(queries: Queries, waiting: Waiting, m: nat, q: Query, list: seq<Query>)
    requires InLists(queries, waiting) && m in waiting && q in waiting[m] && Ascending(list)
    requires forall x {:trigger x in list} :: x in list <==> x in waiting[m] && x != q
    ensures InLists(queries - {q.id}, waiting[m := list])
  {
  }

  lemma {:induction false} EraseIs(list: seq<Query>, q: Query)
    requires Ascending(list)
    ensures Ascending(Erase(list, q))
    ensures forall x {:trigger x in Erase(list, q)} :: x in Erase(list, q) <==> x in list && x != q
  {
    if list != [] {
      assert list == [list[0]] + list[1..];
      if list[0] == q {
        FirstOnce(list);
      } else {
        EraseIs(list[1..], q);
        var r := Erase(list[1..], q);
        if r != [] {
          assert r[0] in r;
        }
        ConsAscending(list[0], r);
      }
    }
  }

  lemma FirstOnce(list: seq<Query>)
    requires Ascending(list) && list != []
    ensures Ascending(list[1..])
    ensures forall x {:trigger x in list[1..]} :: x in list[1..] <==> x in list && x != list[0]
  {
    assert list == [list[0]] + list[1..];
  }

  // Pending and dropped ids together, with multiplicity.
  ghost function Total(queries: Queries, dropped: seq<nat>): multiset<nat> {
    multiset(queries.Keys) + multiset(dropped)
  }

  lemma DropTotal(queries: Queries, dropped: seq<nat>, id: nat)
    requires id in queries
    ensures Total(queries - {id}, dropped + [id]) == Total(queries, dropped)
  {
    assert (queries - {id}).Keys == queries.Keys - {id};
  }

  // The queries that a drop at `now` leaves, if it looks at these models.
  ghost function Left(queries: Queries, models: set<nat>, now: int): Queries {
    queries - (set id | id in queries && queries[id].model in models && queries[id].deadline <= now)
  }

  // What a drop keeps.
  ghost predicate DropKeeps(s: State, s': State, models: set<nat>, now: int) {
    && InLists(s'.queries, s'.waiting) && s'.queries == Left(s.queries, models, now)
    && Total(s'.queries, s'.dropped) == Total(s.queries, s.dropped) && s'.waiting.Keys == s.waiting.Keys
    && s' == s.(queries := s'.queries, waiting := s'.waiting, dropped := s'.dropped)
  }

  lemma DropFirstKeeps(s: State, m: nat, now: int)
    requires InLists(s.queries, s.waiting) && m in s.waiting && s.waiting[m] != [] && s.waiting[m][0].deadline <= now
    ensures var s' := DropFirst(s, m);
      && InLists(s'.queries, s'.waiting) && Total(s'.queries, s'.dropped) == Total(s.queries, s.dropped)
      && Left(s'.queries, {m}, now) == Left(s.queries, {m}, now)
  {
    var list := s.waiting[m];
    var q := list[0];
    FirstOnce(list);
    assert q in s.waiting[m];
    assert s.queries[q.id] == Info(q.deadline, m);
    RemoveLists(s.queries, s.waiting, m, q, list[1..]);
    hide InLists;
    DropTotal(s.queries, s.dropped, q.id);
  }

  lemma DropNone(s: State, m: nat, now: int)
    requires InLists(s.queries, s.waiting) && m in s.waiting
    requires s.waiting[m] == [] || s.waiting[m][0].deadline > now
    ensures DropKeeps(s, s, {m}, now)
  {
    NoneLate(s, m, now);
    assert Left(s.queries, {m}, now) == s.queries;
  }

  lemma DropOneMore(s: State, m: nat, now: int, s': State)
    requires InLists(s.queries, s.waiting) && m in s.waiting && s.waiting[m] != [] && s.waiting[m][0].deadline <= now
    requires DropKeeps(DropFirst(s, m), s', {m}, now)
    ensures DropKeeps(s, s', {m}, now)
  {
    DropFirstKeeps(s, m, now);
    hide Left, Total;
  }

  lemma {:induction false} DropTimedOutKeeps(s: State, m: nat, now: int)
    requires InLists(s.queries, s.waiting) && m in s.waiting
    ensures DropKeeps(s, DropTimedOut(s, m, now), {m}, now)
    decreases |s.waiting[m]|
  {
    hide InLists, DropKeeps;
    if s.waiting[m] == [] || s.waiting[m][0].deadline > now {
      DropNone(s, m, now);
    } else {
      DropFirstKeeps(s, m, now);
      DropTimedOutKeeps(DropFirst(s, m), m, now);
      DropOneMore(s, m, now, DropTimedOut(DropFirst(s, m), m, now));
    }
  }

  lemma NoneLate(s: State, m: nat, now: int)
    requires InLists(s.queries, s.waiting) && m in s.waiting
    requires s.waiting[m] == [] || s.waiting[m][0].deadline > now
    ensures forall id {:trigger s.queries[id]} | id in s.queries && s.queries[id].model == m ::
      s.queries[id].deadline > now
  {
    forall id | id in s.queries && s.queries[id].model == m ensures s.queries[id].deadline > now {
      var list := s.waiting[m];
      assert Query(s.queries[id].deadline, id) in list;
      var k :| 0 <= k < |list| && list[k] == Query(s.queries[id].deadline, id);
      assert k > 0 ==> Before(list[0], list[k]);
    }
  }

  lemma LeftMore(queries: Queries, models: set<nat>, m: nat, now: int)
    ensures Left(Left(queries, models, now), {m}, now) == Left(queries, models + {m}, now)
  {
  }

  // Models that are not there have no queries.
  lemma LeftSame(s: State, models: set<nat>, m: nat, now: int)
    requires InLists(s.queries, s.waiting) && m !in s.waiting
    ensures Left(s.queries, models + {m}, now) == Left(s.queries, models, now)
  {
  }

  lemma {:induction false} DropAllKeeps(s: State, models: seq<nat>, now: int)
    requires InLists(s.queries, s.waiting)
    ensures DropKeeps(s, DropAll(s, models, now), IdSet(models), now)
  {
    if models == [] {
      assert Left(s.queries, IdSet([]), now) == s.queries;
    } else {
      var n := |models| - 1;
      var m := models[n];
      DropAllKeeps(s, models[..n], now);
      var before := DropAll(s, models[..n], now);
      assert models == models[..n] + [m];
      assert IdSet(models) == IdSet(models[..n]) + {m};
      if m in before.waiting {
        DropTimedOutKeeps(before, m, now);
        LeftMore(s.queries, IdSet(models[..n]), m, now);
      } else {
        LeftSame(s, IdSet(models[..n]), m, now);
      }
      hide InLists, Left, DropTimedOut;
    }
  }

  /** Afterwards exactly the queries with a later deadline are pending; the others are reported, once each. */
  lemma DropTimeoutsIs(s: State, models: seq<nat>, now: int)
    requires InLists(s.queries, s.waiting) && Lists(models, s.waiting.Keys)
    ensures var s' := DropAll(s, models, now);
      && s'.queries == s.queries - (set id | id in s.queries && s.queries[id].deadline <= now)
      && multiset(s'.queries.Keys) + multiset(s'.dropped) == multiset(s.queries.Keys) + multiset(s.dropped)
  {
    DropAllKeeps(s, models, now);
    forall id | id in s.queries ensures s.queries[id].model in IdSet(models) {
      assert s.queries[id].model in models;
    }
  }

  ghost predicate Increasing(ids: seq<nat>) {
    forall i, j {:trigger ids[i], ids[j]} | 0 <= i < j < |ids| :: ids[i] < ids[j]
  }

  lemma IdSetFirst(x: nat, ids: seq<nat>)
    ensures IdSet([x] + ids) == {x} + IdSet(ids)
  {
  }

  lemma {:induction false} InOrderMembers(s: set<nat>)
    ensures IdSet(InOrder(s)) == s
    decreases |s|
  {
    hide IdSet, IsLeast;
    if s == {} {
      assert IdSet([]) == {} by { NoIds(); }
    } else {
      var x := Least(s);
      LeastIn(s);
      InOrderMembers(s - {x});
      IdSetFirst(x, InOrder(s - {x}));
    }
  }

  lemma NoIds()
    ensures IdSet([]) == {}
  {
  }

  lemma LeastIn(s: set<nat>)
    requires s != {}
    ensures Least(s) in s
  {
    hide Least;
  }

  lemma {:induction false} InOrderIncreases(s: set<nat>)
    ensures Increasing(InOrder(s))
    decreases |s|
  {
    if s != {} {
      var x := Least(s);
      hide Increasing, IdSet;
      InOrderIncreases(s - {x});
      InOrderMembers(s - {x});
      IncreasingFirst(s, x, InOrder(s - {x}));
    } else {
      NoneIncreases();
    }
  }

  lemma NoneIncreases()
    ensures Increasing([])
  {
  }

  lemma IncreasingFirst(s: set<nat>, x: nat, rest: seq<nat>)
    requires IsLeast(s, x) && IdSet(rest) == s - {x} && Increasing(rest)
    ensures Increasing([x] + rest)
  {
    forall j | 0 <= j < |rest| ensures x < rest[j] {
      assert rest[j] in IdSet(rest);
    }
  }

  ghost predicate NonNegative(p: Profile) {
    p.pre.Total() >= 0.0 && p.post.Total() >= 0.0 && forall b {:trigger p.forward[b]} | 0 <= b < |p.forward| ::
      p.forward[b].Total() >= 0.0
  }

  ghost predicate AllNonNegative(profiles: Profiles) {
    forall m {:trigger profiles[m]} | m in profiles :: NonNegative(profiles[m])
  }

  lemma ElapseNonNegative(p: Profile, n: nat)
    requires NonNegative(p) && p.Covers(n)
    ensures Nanos(p.Forward(n)) + ProcElapse(p) >= 0
  {
  }

  /** A plan for backend b: its queries are pending ones of one model, and it starts when the backend is free. */
  ghost predicate PlanFor(plan: BatchPlan, b: nat, available: int, queries: Queries) {
    && plan.backend == b && plan.ids != [] && Increasing(plan.ids)
    && (forall id {:trigger id in plan.ids} | id in plan.ids :: id in queries && queries[id].model == plan.model)
    && available <= plan.execTime <= plan.finishTime
    && plan.ids[0] in queries && plan.earliestDeadline == queries[plan.ids[0]].deadline
  }

  // The plan ends when its batch is done, and is sent to arrive when it starts.
  ghost predicate Timed(plan: BatchPlan, p: Profile) {
    && p.Covers(|plan.ids|)
    && plan.finishTime == plan.execTime + Nanos(p.Forward(|plan.ids|)) + Nanos(p.pre.Total()) + Nanos(p.post.Total())
    && plan.sendTime + CTRL_PLANE_NS + DATA_PLANE_NS == plan.execTime
  }

  // With a monotone profile the plan is also done by its first query's deadline.
  ghost predicate InTime(plan: BatchPlan, profiles: Profiles) {
    && plan.model in profiles && Timed(plan, profiles[plan.model])
    && (profiles[plan.model].Monotone() ==> plan.finishTime <= plan.earliestDeadline)
  }

  // A plan for b that only uses ids from `free`.
  ghost predicate UsesFree(
      plan: BatchPlan, b: nat, available: int, queries: Queries, profiles: Profiles, free: set<nat>) {
    PlanFor(plan, b, available, queries) && InTime(plan, profiles) && IdSet(plan.ids) <= free
  }

  ghost predicate OfModel(ids: seq<nat>, queries: Queries, model: nat) {
    forall i {:trigger ids[i]} | 0 <= i < |ids| :: ids[i] in queries && queries[ids[i]].model == model
  }

  /**
   Trying a model session: there is no plan exactly if every query would miss its deadline in a
   batch as large as the queries from it on allow; a plan takes the selected run of ids.
   */
  lemma TryPlanIs(
    p: Profile, b: nat, available: int, model: nat, ids: seq<nat>, queries: Queries, now: int, reserved: BatchSize)
    ensures var r, dl, exec := TryPlan(p, b, available, model, ids, queries, now, reserved),
        DeadlinesOf(ids, queries), EarliestExec(available, now);
      && (r.NoPlan? ==> forall j: nat | j < |ids| :: MissesAt(p, dl, exec, reserved, j))
      && (r.Candidate? ==>
            exists k: nat, n: nat {:trigger Segment(k, n)} ::
              && Select(p, dl, exec, reserved) == Segment(k, n) && 0 < n && k + n <= |ids|
              && !MissesAt(p, dl, exec, reserved, k) && r.plan.ids == ids[k..k + n])
  {
    var dl, exec := DeadlinesOf(ids, queries), EarliestExec(available, now);
    var sel := Select(p, dl, exec, reserved);
    if sel.Segment? {
      SelectIsBest(p, dl, exec, reserved);
      SkipStops(p, dl, exec, reserved, 0);
      hide Skip, Grow;
      assert Segment(sel.start, sel.size) == sel;
    }
  }

  // A run of consecutive ids that fits makes a plan.
  lemma SegmentGood(
    p: Profile, b: nat, available: int, model: nat, ids: seq<nat>, queries: Queries, exec: int, k: nat, n: nat)
    requires NonNegative(p) && Increasing(ids) && OfModel(ids, queries, model) && available <= exec
    requires 0 < n && k + n <= |ids| && p.Covers(n) && p.Covers(n + 1)
    requires queries[ids[k]].deadline > Finish(p, exec, n)
    ensures var plan := MakePlan(p, b, model, ids[k..k + n], queries[ids[k]].deadline, exec);
      && PlanFor(plan, b, available, queries) && IdSet(plan.ids) <= IdSet(ids) && exec <= plan.execTime
      && Timed(plan, p) && (p.Monotone() ==> plan.finishTime <= plan.earliestDeadline)
  {
    ElapseNonNegative(p, n);
    if p.Monotone() {
      MonotoneFinishesInTime(p, queries[ids[k]].deadline, exec, n);
    }
    var batch := ids[k..k + n];
    hide NonNegative, Nanos, ProcElapse, Profile.Monotone;
    forall i | 0 <= i < |batch| ensures batch[i] == ids[k + i] {
    }
  }

  lemma TryPlanGood(
    p: Profile, b: nat, available: int, model: nat, ids: seq<nat>, queries: Queries, now: int, reserved: BatchSize)
    requires NonNegative(p) && Increasing(ids) && OfModel(ids, queries, model)
    ensures var r := TryPlan(p, b, available, model, ids, queries, now, reserved);
      r.Candidate? ==>
        && PlanFor(r.plan, b, available, queries) && r.plan.model == model && IdSet(r.plan.ids) <= IdSet(ids)
        && Timed(r.plan, p) && (p.Monotone() ==> r.plan.finishTime <= r.plan.earliestDeadline)
        && now <= r.plan.sendTime
  {
    hide Select, NonNegative, Finish, PlanFor, ExecTime, Profile.Monotone, Increasing;
    var dl, exec := DeadlinesOf(ids, queries), EarliestExec(available, now);
    var sel := Select(p, dl, exec, reserved);
    if sel.Segment? {
      SelectIsBest(p, dl, exec, reserved);
      if sel.size > 0 && p.Covers(sel.size + 1) {
        SegmentGood(p, b, available, model, ids, queries, exec, sel.start, sel.size);
      }
    }
  }

  /** Whatever a model session offers for a backend uses free ids only and starts when the backend is free. */
  lemma OfferIsGood(s: State, profiles: Profiles, env: Env, free: set<nat>, b: nat, m: nat)
    requires AllNonNegative(profiles) && b in s.backends
    ensures var r := Offer(s, profiles, env, free, b, m);
      r.Candidate? ==>
        UsesFree(r.plan, b, s.backends[b].nextAvailable, s.queries, profiles, free) && r.plan.model == m
  {
    hide NonNegative, TryPlan, Increasing;
    var r := Offer(s, profiles, env, free, b, m);
    if r.Candidate? {
      var ids := InOrder(IdsOf(free, s.queries, m));
      InOrderMembers(IdsOf(free, s.queries, m));
      InOrderIncreases(IdsOf(free, s.queries, m));
      forall i | 0 <= i < |ids| ensures ids[i] in s.queries && s.queries[ids[i]].model == m {
        assert ids[i] in IdSet(ids);
      }
      TryPlanGood(profiles[m], b, s.backends[b].nextAvailable, m, ids, s.queries, env.clock(b, m), env.reserved(b, m));
    }
  }

  // The plan is offered by one of the models, and no offer of any of them starts earlier.
  ghost predicate EarliestOffer(
    s: State, profiles: Profiles, env: Env, free: set<nat>, b: nat, models: seq<nat>, best: BatchPlan)
  {
    && (exists m {:trigger m in models} :: m in models && Offer(s, profiles, env, free, b, m) == Candidate(best))
    && forall m {:trigger m in models} | m in models ::
         var o := Offer(s, profiles, env, free, b, m);
         o.Candidate? ==> best.execTime <= o.plan.execTime
  }

  /**
   The choice among all the model sessions: the process ends exactly if one of them needs a batch
   size outside its profile; there is no plan exactly if nobody has one; else it is one that
   starts no later than any other.
   */
  lemma {:induction false} BestIsEarliest(
    s: State, profiles: Profiles, env: Env, free: set<nat>, b: nat, models: seq<nat>)
    ensures var r := Best(s, profiles, env, free, b, models);
      && (r.Died? <==> exists m {:trigger m in models} :: m in models && Offer(s, profiles, env, free, b, m).Aborted?)
      && (r == Chosen(None) ==>
        forall m {:trigger m in models} | m in models :: Offer(s, profiles, env, free, b, m).NoPlan?)
      && (r.Chosen? && r.best.Some? ==> EarliestOffer(s, profiles, env, free, b, models, r.best.value))
  {
    hide Offer;
    if models != [] {
      var n := |models| - 1;
      BestIsEarliest(s, profiles, env, free, b, models[..n]);
      assert models == models[..n] + [models[n]];
      assert models[n] in models;
      assert forall m {:trigger m in models} :: m in models <==> m in models[..n] || m == models[n];
      var before := Best(s, profiles, env, free, b, models[..n]);
      if before.Died? {
        var m :| m in models[..n] && Offer(s, profiles, env, free, b, m).Aborted?;
        assert m in models;
      } else if before.best.Some? {
        var m :| m in models[..n] && Offer(s, profiles, env, free, b, m) == Candidate(before.best.value);
        assert m in models;
      }
    }
  }

  lemma BestIsGood(s: State, profiles: Profiles, env: Env, free: set<nat>, b: nat, models: seq<nat>)
    requires AllNonNegative(profiles) && b in s.backends
    ensures var r := Best(s, profiles, env, free, b, models);
      r.Chosen? && r.best.Some? ==>
        UsesFree(r.best.value, b, s.backends[b].nextAvailable, s.queries, profiles, free)
  {
    hide Offer, AllNonNegative, UsesFree, Best;
    BestIsEarliest(s, profiles, env, free, b, models);
    var r := Best(s, profiles, env, free, b, models);
    if r.Chosen? && r.best.Some? {
      var m :| m in models && Offer(s, profiles, env, free, b, m) == Candidate(r.best.value);
      OfferIsGood(s, profiles, env, free, b, m);
    }
  }

  // Backend b has a current plan.
  ghost predicate Planned(backends: Backends, b: nat) {
    b in backends && backends[b].nextPlan.Some?
  }

  ghost function PlanOf(backends: Backends, b: nat): BatchPlan
    requires Planned(backends, b)
  {
    backends[b].nextPlan.value
  }

  /** The current plans of the backends in `done` are good, and no two of them share a query. */
  ghost predicate PlansOk(backends: Backends, done: set<nat>, queries: Queries, profiles: Profiles)
  {
    && (forall b {:trigger Planned(backends, b)} | b in done && Planned(backends, b) ::
          && PlanFor(PlanOf(backends, b), b, backends[b].nextAvailable, queries)
          && InTime(PlanOf(backends, b), profiles))
    && (forall b, c {:trigger Planned(backends, b), Planned(backends, c)} |
          b in done && c in done && b != c && Planned(backends, b) && Planned(backends, c) ::
          IdSet(PlanOf(backends, b).ids) !! IdSet(PlanOf(backends, c).ids))
  }

  // The plans of the backends in `done` use no free id.
  ghost predicate FreeUnused(backends: Backends, done: set<nat>, free: set<nat>) {
    forall b {:trigger Planned(backends, b)} | b in done && Planned(backends, b) ::
      IdSet(PlanOf(backends, b).ids) !! free
  }

  ghost function PlanIds(sent: seq<BatchPlan>): set<nat> {
    set i | 0 <= i < |sent| :: sent[i].planId
  }

  /** Plan ids are never reused: a current plan's id was neither sent nor superseded before. */
  ghost predicate Ledger(backends: Backends, sent: seq<BatchPlan>, superseded: set<nat>, nextPlanId: nat) {
    && (forall b {:trigger Planned(backends, b)} | Planned(backends, b) ::
          var id := PlanOf(backends, b).planId;
          id < nextPlanId && id !in superseded && id !in PlanIds(sent))
    && (forall b, c {:trigger Planned(backends, b), Planned(backends, c)} |
          b != c && Planned(backends, b) && Planned(backends, c) ::
            PlanOf(backends, b).planId != PlanOf(backends, c).planId)
    && (forall id {:trigger id in superseded} | id in superseded :: id < nextPlanId && id !in PlanIds(sent))
    && (forall id {:trigger id in PlanIds(sent)} | id in PlanIds(sent) :: id < nextPlanId)
    && (forall i, j {:trigger sent[i], sent[j]} | 0 <= i < j < |sent| :: sent[i].planId != sent[j].planId)
  }

  /** Plans sent to one backend do not overlap, and the backend is busy until the last of them is done. */
  ghost predicate History(sent: seq<BatchPlan>, backends: Backends, profiles: Profiles) {
    && (forall i {:trigger sent[i]} | 0 <= i < |sent| ::
          sent[i].backend in backends && sent[i].finishTime <= backends[sent[i].backend].nextAvailable &&
            InTime(sent[i], profiles))
    && (forall i, j {:trigger sent[i], sent[j]} | 0 <= i < j < |sent| && sent[i].backend == sent[j].backend ::
          sent[i].finishTime <= sent[j].execTime)
  }

  ghost function SentIds(sent: seq<BatchPlan>): multiset<nat> {
    if sent == [] then multiset{} else SentIds(sent[..|sent| - 1]) + multiset(sent[|sent| - 1].ids)
  }

  /** Every accepted query is pending, was dropped, or was sent: once. */
  ghost predicate Accounted(accepted: seq<nat>, queries: Queries, dropped: seq<nat>, sent: seq<BatchPlan>) {
    multiset(accepted) == Total(queries, dropped) + SentIds(sent)
  }

  lemma AssignKeepsPlans(
    backends: Backends, done: set<nat>, queries: Queries, profiles: Profiles, b: nat, plan: BatchPlan, free: set<nat>)
    requires PlansOk(backends, done, queries, profiles) && FreeUnused(backends, done, free)
    requires b in backends && b !in done && UsesFree(plan, b, backends[b].nextAvailable, queries, profiles, free)
    ensures var backends' := SetPlan(backends, b, Some(plan));
      && PlansOk(backends', done + {b}, queries, profiles)
      && FreeUnused(backends', done + {b}, free - IdSet(plan.ids))
  {
    var backends' := SetPlan(backends, b, Some(plan));
    forall c | c in done + {b} && c != b ensures Planned(backends', c) == Planned(backends, c) {
    }
    hide Increasing, IdSet;
  }

  lemma ClearKeepsPlans(
    backends: Backends, done: set<nat>, queries: Queries, profiles: Profiles, b: nat, free: set<nat>)
    requires PlansOk(backends, done, queries, profiles) && FreeUnused(backends, done, free)
    requires b in backends && b !in done
    ensures var backends' := SetPlan(backends, b, None);
      PlansOk(backends', done + {b}, queries, profiles) && FreeUnused(backends', done + {b}, free)
  {
    var backends' := SetPlan(backends, b, None);
    forall c | c in done + {b} && c != b ensures Planned(backends', c) == Planned(backends, c) {
    }
    hide Increasing, IdSet;
  }

  // Replacing a plan supersedes the old id; the new id is fresh.
  lemma ReplaceKeepsLedger(
    backends: Backends, sent: seq<BatchPlan>, superseded: set<nat>, next: nat, b: nat, plan: Option<BatchPlan>)
    requires Ledger(backends, sent, superseded, next) && b in backends
    requires plan.Some? ==> plan.value.planId == next
    ensures Ledger(SetPlan(backends, b, plan), sent, superseded + CurrentId(backends, b),
      if plan.Some? then next + 1 else next)
  {
    var backends' := SetPlan(backends, b, plan);
    forall c | c != b ensures Planned(backends', c) == Planned(backends, c) {
    }
    assert CurrentId(backends, b) == if Planned(backends, b) then {PlanOf(backends, b).planId} else {};
    hide PlanIds;
  }

  // The state of a reschedule while the backends in `done` have their new plan.
  ghost predicate RoundOk(r: Round, done: set<nat>, profiles: Profiles) {
    && PlansOk(r.state.backends, done, r.state.queries, profiles)
    && FreeUnused(r.state.backends, done, r.free)
    && Ledger(r.state.backends, r.state.sent, r.state.superseded, r.state.nextPlanId)
  }

  // The renumbered best plan is as good as the best plan.
  lemma Renumber(
    plan: BatchPlan, id: nat, b: nat, available: int, queries: Queries, profiles: Profiles, free: set<nat>)
    requires UsesFree(plan, b, available, queries, profiles, free)
    ensures UsesFree(plan.(planId := id), b, available, queries, profiles, free)
  {
  }

  lemma AssignedOk(r: Round, done: set<nat>, profiles: Profiles, b: nat, best: Option<BatchPlan>)
    requires RoundOk(r, done, profiles) && b in r.state.backends && b !in done
    requires best.Some? ==>
      UsesFree(best.value, b, r.state.backends[b].nextAvailable, r.state.queries, profiles, r.free)
    ensures RoundOk(Assigned(r, b, best), done + {b}, profiles)
  {
    hide PlansOk, FreeUnused, Ledger, UsesFree, CurrentId, SetPlan;
    var s := r.state;
    match best
    case None =>
      ClearKeepsPlans(s.backends, done, s.queries, profiles, b, r.free);
      ReplaceKeepsLedger(s.backends, s.sent, s.superseded, s.nextPlanId, b, None);
    case Some(p) =>
      var plan := p.(planId := s.nextPlanId);
      Renumber(p, s.nextPlanId, b, s.backends[b].nextAvailable, s.queries, profiles, r.free);
      AssignKeepsPlans(s.backends, done, s.queries, profiles, b, plan, r.free);
      ReplaceKeepsLedger(s.backends, s.sent, s.superseded, s.nextPlanId, b, Some(plan));
  }

  // All current plan ids of the given backends.
  ghost function CurrentIds(backends: Backends, some: set<nat>): set<nat> {
    set b | b in some && Planned(backends, b) :: PlanOf(backends, b).planId
  }

  // What assigning plans to the backends in `done` changes.
  ghost predicate OnlyPlans(start: State, s: State, done: set<nat>) {
    && s == start.(backends := s.backends, nextPlanId := s.nextPlanId, superseded := s.superseded)
    && s.superseded == start.superseded + CurrentIds(start.backends, done) && s.backends.Keys == start.backends.Keys
    && forall b {:trigger s.backends[b]} | b in s.backends ::
         && s.backends[b].nextAvailable == start.backends[b].nextAvailable
         && (b !in done ==> s.backends[b] == start.backends[b])
  }

  lemma OnlyPlansMore(start: State, r: Round, done: set<nat>, b: nat, best: Option<BatchPlan>)
    requires OnlyPlans(start, r.state, done) && b in r.state.backends && b !in done
    ensures OnlyPlans(start, Assigned(r, b, best).state, done + {b})
  {
    assert r.state.backends[b] == start.backends[b];
    assert CurrentIds(start.backends, done + {b}) ==
      CurrentIds(start.backends, done) + CurrentId(start.backends, b) by {
      CurrentMore(start.backends, done, b);
    }
    hide CurrentIds, CurrentId;
  }

  lemma CurrentMore(backends: Backends, done: set<nat>, b: nat)
    ensures CurrentIds(backends, done + {b}) == CurrentIds(backends, done) + CurrentId(backends, b)
  {
    assert CurrentId(backends, b) == if Planned(backends, b) then {PlanOf(backends, b).planId} else {};
  }

  lemma {:induction false} AssignAllOk(r: Round, profiles: Profiles, env: Env, nodes: seq<nat>)
    requires AllNonNegative(profiles) && NoRepeats(nodes) && RoundOk(r, {}, profiles)
    requires forall b {:trigger b in nodes} | b in nodes :: b in r.state.backends
    ensures var a := AssignAll(r, profiles, env, nodes);
      a.Some? ==> RoundOk(a.value, IdSet(nodes), profiles) && OnlyPlans(r.state, a.value.state, IdSet(nodes))
  {
    hide RoundOk, AllNonNegative, Best, OnlyPlans, UsesFree, IdSet;
    if nodes == [] {
      NoIds();
      OnlyPlansNone(r.state);
    } else {
      var n := |nodes| - 1;
      var b := nodes[n];
      FirstNodes(nodes, r.state.backends.Keys);
      AssignAllOk(r, profiles, env, nodes[..n]);
      var before := AssignAll(r, profiles, env, nodes[..n]);
      if before.Some? {
        OnlyPlansKeys(r.state, before.value.state, IdSet(nodes[..n]));
        BestIsGood(before.value.state, profiles, env, before.value.free, b, env.models);
        var best := Best(before.value.state, profiles, env, before.value.free, b, env.models);
        if best.Chosen? {
          AssignedOk(before.value, IdSet(nodes[..n]), profiles, b, best.best);
          OnlyPlansMore(r.state, before.value, IdSet(nodes[..n]), b, best.best);
        }
      }
    }
  }

  lemma OnlyPlansNone(s: State)
    ensures OnlyPlans(s, s, {})
  {
  }

  lemma OnlyPlansKeys(start: State, s: State, done: set<nat>)
    requires OnlyPlans(start, s, done)
    ensures s.backends.Keys == start.backends.Keys
  {
  }

  lemma FirstNodes(nodes: seq<nat>, keys: set<nat>)
    requires nodes != [] && NoRepeats(nodes) && forall b {:trigger b in nodes} | b in nodes :: b in keys
    ensures var n := |nodes| - 1;
      && NoRepeats(nodes[..n]) && IdSet(nodes) == IdSet(nodes[..n]) + {nodes[n]} && nodes[n] !in IdSet(nodes[..n])
      && nodes[n] in keys && forall b {:trigger b in nodes[..n]} | b in nodes[..n] :: b in keys
  {
    var n := |nodes| - 1;
    assert nodes == nodes[..n] + [nodes[n]];
    assert nodes[n] in nodes;
    forall b | b in nodes[..n] ensures b in keys {
      assert b in nodes;
    }
  }

  /** What holds between any two steps. */
  ghost predicate Sound(s: State, profiles: Profiles) {
    && InLists(s.queries, s.waiting) && Accounted(s.accepted, s.queries, s.dropped, s.sent)
    && Ledger(s.backends, s.sent, s.superseded, s.nextPlanId) && History(s.sent, s.backends, profiles)
    && PlansOk(s.backends, s.backends.Keys, s.queries, profiles)
  }

  lemma InitialSound(models: set<nat>, nodes: set<nat>, profiles: Profiles)
    ensures Sound(Initial(models, nodes), profiles)
  {
  }

  // The pending queries may grow.
  lemma PlansKept(backends: Backends, done: set<nat>, queries: Queries, queries': Queries, profiles: Profiles)
    requires PlansOk(backends, done, queries, profiles)
    requires forall id {:trigger id in queries} | id in queries :: id in queries' && queries'[id] == queries[id]
    ensures PlansOk(backends, done, queries', profiles)
  {
    hide Increasing, IdSet;
  }

  lemma EnqueueSound(s: State, profiles: Profiles, id: nat, info: Info)
    requires Sound(s, profiles)
    ensures Sound(Enqueued(s, id, info), profiles)
  {
    hide Ledger, History, InLists, PlansOk, Accounted;
    if EnqueueStatus(s, id, info.model) == Ok {
      EnqueueLists(s.queries, s.waiting, id, info);
      PlansKept(s.backends, s.backends.Keys, s.queries, s.queries[id := info], profiles);
      AcceptAccount(s.accepted, s.queries, s.dropped, s.sent, id, info);
    }
  }

  lemma AcceptAccount(
    accepted: seq<nat>, queries: Queries, dropped: seq<nat>, sent: seq<BatchPlan>, id: nat, info: Info)
    requires Accounted(accepted, queries, dropped, sent) && id !in queries
    ensures Accounted(accepted + [id], queries[id := info], dropped, sent)
  {
    assert queries[id := info].Keys == queries.Keys + {id};
  }

  ghost predicate EarliestFirst(backends: Backends, nodes: seq<nat>) {
    && (forall i {:trigger nodes[i]} | 0 <= i < |nodes| :: nodes[i] in backends)
    && (forall i, j {:trigger nodes[i], nodes[j]} | 0 <= i < j < |nodes| ::
          backends[nodes[i]].nextAvailable <= backends[nodes[j]].nextAvailable)
  }

  /** The backends from the earliest available on, each once. */
  lemma ByAvailabilityIs(backends: Backends, nodes: seq<nat>)
    requires NoRepeats(nodes)
    ensures var r := ByAvailability(backends, nodes);
      && NoRepeats(r) && (forall b {:trigger b in r} :: b in r <==> b in nodes && b in backends)
      && EarliestFirst(backends, r)
  {
    var rank := map b | b in backends :: -(backends[b].nextAvailable as real);
    assert rank.Keys == backends.Keys;
    SortedKeys(nodes, rank);
    var r := ByAvailability(backends, nodes);
    hide SortDown, Listed;
    forall i | 0 <= i < |r| ensures r[i] in backends {
      assert r[i] in r;
    }
    forall i, j | 0 <= i < j < |r| ensures backends[r[i]].nextAvailable <= backends[r[j]].nextAvailable {
      assert r[i] in backends && r[j] in backends;
      assert Orderings.At(rank, r[i]) >= Orderings.At(rank, r[j]);
    }
  }

  // The hash tables are walked in full.
  ghost predicate WalksAll(s: State, env: Env) {
    Lists(env.models, s.waiting.Keys) && Lists(env.nodes, s.backends.Keys)
  }

  lemma HistoryKept(sent: seq<BatchPlan>, backends: Backends, backends': Backends, profiles: Profiles)
    requires History(sent, backends, profiles) && backends'.Keys == backends.Keys
    requires forall b {:trigger backends'[b]} | b in backends' ::
      backends'[b].nextAvailable == backends[b].nextAvailable
    ensures History(sent, backends', profiles)
  {
  }

  lemma FreshRound(s: State, profiles: Profiles)
    requires Ledger(s.backends, s.sent, s.superseded, s.nextPlanId)
    ensures RoundOk(Round(s, s.queries.Keys), {}, profiles)
  {
  }

  // Dropping does not touch the plans, the ledger or the history.
  lemma DroppedLedger(s: State, s': State, models: set<nat>, now: int, profiles: Profiles)
    requires Sound(s, profiles) && DropKeeps(s, s', models, now)
    ensures InLists(s'.queries, s'.waiting) && Accounted(s'.accepted, s'.queries, s'.dropped, s'.sent)
    ensures Ledger(s'.backends, s'.sent, s'.superseded, s'.nextPlanId) && History(s'.sent, s'.backends, profiles)
    ensures s'.backends == s.backends && s'.superseded == s.superseded && s'.sent == s.sent
  {
    hide Ledger, History, InLists, PlansOk, Left, Total;
  }

  lemma PlansSound(s: State, s': State, r: Round, profiles: Profiles, nodes: set<nat>)
    requires InLists(s'.queries, s'.waiting) && Accounted(s'.accepted, s'.queries, s'.dropped, s'.sent)
    requires History(s'.sent, s'.backends, profiles) && nodes == s'.backends.Keys
    requires RoundOk(r, nodes, profiles) && OnlyPlans(s', r.state, nodes)
    ensures Sound(r.state, profiles)
  {
    HistoryKept(s'.sent, s'.backends, r.state.backends, profiles);
    hide Ledger, History, InLists, PlansOk, Accounted;
  }

  /** A reschedule supersedes every former plan, sends nothing and keeps the invariant. */
  lemma RescheduleSound(s: State, profiles: Profiles, env: Env)
    requires Sound(s, profiles) && AllNonNegative(profiles) && WalksAll(s, env)
    ensures Rescheduled(s, profiles, env).Some? ==>
      var s' := Rescheduled(s, profiles, env).value;
      && Sound(s', profiles) && s'.sent == s.sent && s'.accepted == s.accepted
      && s'.superseded == s.superseded + CurrentIds(s.backends, s.backends.Keys)
      && s'.queries == s.queries - (set id | id in s.queries && s.queries[id].deadline <= env.now)
      && s'.waiting.Keys == s.waiting.Keys && s'.backends.Keys == s.backends.Keys
  {
    hide Sound, AllNonNegative, DropAll, AssignAll, ByAvailability, CurrentIds, RoundOk, InLists;
    SoundLists(s, profiles);
    DropAllKeeps(s, env.models, env.now);
    DropTimeoutsIs(s, env.models, env.now);
    var s' := DropAll(s, env.models, env.now);
    DroppedLedger(s, s', IdSet(env.models), env.now, profiles);
    FreshRound(s', profiles);
    ByAvailabilityIs(s'.backends, env.nodes);
    var nodes := ByAvailability(s'.backends, env.nodes);
    NodesAre(nodes, env.nodes, s'.backends.Keys);
    AssignAllOk(Round(s', s'.queries.Keys), profiles, env, nodes);
    var a := AssignAll(Round(s', s'.queries.Keys), profiles, env, nodes);
    hide Lists, Accounted, History, Ledger;
    if a.Some? {
      PlansSound(s, s', a.value, profiles, IdSet(nodes));
    }
  }

  lemma SoundLists(s: State, profiles: Profiles)
    requires Sound(s, profiles)
    ensures InLists(s.queries, s.waiting)
  {
  }

  lemma NodesAre(nodes: seq<nat>, order: seq<nat>, keys: set<nat>)
    requires Lists(order, keys) && forall b {:trigger b in nodes} :: b in nodes <==> b in order && b in keys
    ensures IdSet(nodes) == keys
  {
  }

  // What taking the queries of a plan changes.
  ghost predicate TakenFrom(s: State, s': State, ids: set<nat>) {
    && InLists(s'.queries, s'.waiting) && s'.queries == s.queries - ids && s'.waiting.Keys == s.waiting.Keys
    && s' == s.(queries := s'.queries, waiting := s'.waiting)
  }

  lemma TakeOne(s: State, t: State, done: set<nat>, model: nat, id: nat)
    requires TakenFrom(s, t, done) && id in t.queries && t.queries[id].model == model
    ensures model in t.waiting
    ensures var q := Query(t.queries[id].deadline, id);
      TakenFrom(s, t.(queries := t.queries - {id}, waiting := t.waiting[model := Erase(t.waiting[model], q)]),
        done + {id})
  {
    var q := Query(t.queries[id].deadline, id);
    assert q in t.waiting[model];
    EraseIs(t.waiting[model], q);
    RemoveLists(t.queries, t.waiting, model, q, Erase(t.waiting[model], q));
    hide InLists, Erase;
    assert t.queries - {id} == s.queries - (done + {id});
  }

  lemma TakenNone(s: State)
    requires InLists(s.queries, s.waiting)
    ensures TakenFrom(s, s, {})
  {
    assert s.queries - {} == s.queries;
  }

  lemma TakenRest(s: State, t: State, done: set<nat>, id: nat)
    requires TakenFrom(s, t, done) && id !in done && id in s.queries
    ensures id in t.queries && t.queries[id] == s.queries[id]
  {
    hide InLists;
  }

  lemma LastId(ids: seq<nat>, queries: Queries, model: nat)
    requires ids != [] && Increasing(ids) && OfModel(ids, queries, model)
    ensures var n := |ids| - 1;
      && IdSet(ids) == IdSet(ids[..n]) + {ids[n]} && ids[n] !in IdSet(ids[..n])
      && Increasing(ids[..n]) && OfModel(ids[..n], queries, model)
      && ids[n] in queries && queries[ids[n]].model == model
  {
    var n := |ids| - 1;
    assert ids == ids[..n] + [ids[n]];
  }

  lemma {:induction false} TakeAllIs(s: State, model: nat, ids: seq<nat>)
    requires InLists(s.queries, s.waiting) && Increasing(ids) && OfModel(ids, s.queries, model)
    ensures TakeAll(s, model, ids).Some? && TakenFrom(s, TakeAll(s, model, ids).value, IdSet(ids))
  {
    hide InLists, TakenFrom, Erase, IdSet, Increasing, OfModel;
    if ids == [] {
      NoIds();
      TakenNone(s);
    } else {
      var n := |ids| - 1;
      LastId(ids, s.queries, model);
      TakeAllIs(s, model, ids[..n]);
      var t := TakeAll(s, model, ids[..n]).value;
      TakenRest(s, t, IdSet(ids[..n]), ids[n]);
      TakeOne(s, t, IdSet(ids[..n]), model, ids[n]);
    }
  }

  // The backend after its plan has been sent: busy until the plan is done, and without a plan.
  ghost function Freed(backends: Backends, b: nat): Backends
    requires Planned(backends, b)
  {
    backends[b := Backend(PlanOf(backends, b).finishTime, None)]
  }

  /** The new plan starts after all plans sent to its backend before. */
  lemma SendKeepsHistory(sent: seq<BatchPlan>, backends: Backends, profiles: Profiles, b: nat, queries: Queries)
    requires History(sent, backends, profiles) && Planned(backends, b)
    requires PlanFor(PlanOf(backends, b), b, backends[b].nextAvailable, queries) &&
      InTime(PlanOf(backends, b), profiles)
    ensures History(sent + [PlanOf(backends, b)], Freed(backends, b), profiles)
  {
    hide Increasing;
  }

  lemma PlanIdsAppend(sent: seq<BatchPlan>, plan: BatchPlan)
    ensures PlanIds(sent + [plan]) == PlanIds(sent) + {plan.planId}
  {
    var sent' := sent + [plan];
    forall id ensures id in PlanIds(sent') <==> id in PlanIds(sent) + {plan.planId} {
      if id in PlanIds(sent) {
        var i :| 0 <= i < |sent| && sent[i].planId == id;
        assert sent'[i].planId == id;
      } else if id == plan.planId {
        assert sent'[|sent|].planId == id;
      }
    }
  }

  /** A plan id goes from current to sent once. */
  lemma SendKeepsLedger(backends: Backends, sent: seq<BatchPlan>, superseded: set<nat>, next: nat, b: nat)
    requires Ledger(backends, sent, superseded, next) && Planned(backends, b)
    ensures Ledger(Freed(backends, b), sent + [PlanOf(backends, b)], superseded, next)
  {
    var plan, sent', backends' := PlanOf(backends, b), sent + [PlanOf(backends, b)], Freed(backends, b);
    PlanIdsAppend(sent, plan);
    forall c ensures Planned(backends', c) <==> c != b && Planned(backends, c) {
    }
    forall i, j | 0 <= i < j < |sent'| ensures sent'[i].planId != sent'[j].planId {
      assert sent'[i] == sent[i] && sent[i].planId in PlanIds(sent);
      assert j < |sent| ==> sent'[j] == sent[j];
    }
  }

  lemma {:induction false} IncreasingIsSet(ids: seq<nat>)
    requires Increasing(ids)
    ensures multiset(ids) == multiset(IdSet(ids))
  {
    if ids != [] {
      var n := |ids| - 1;
      IncreasingIsSet(ids[..n]);
      assert ids == ids[..n] + [ids[n]];
      assert IdSet(ids) == IdSet(ids[..n]) + {ids[n]};
      assert ids[n] !in IdSet(ids[..n]);
    }
  }

  /** The plan's queries go from pending to sent. */
  lemma SendAccount(accepted: seq<nat>, queries: Queries, dropped: seq<nat>, sent: seq<BatchPlan>, plan: BatchPlan)
    requires Accounted(accepted, queries, dropped, sent) && Increasing(plan.ids) && IdSet(plan.ids) <= queries.Keys
    ensures Accounted(accepted, queries - IdSet(plan.ids), dropped, sent + [plan])
  {
    var ids := IdSet(plan.ids);
    IncreasingIsSet(plan.ids);
    hide IdSet, Increasing;
    assert (queries - ids).Keys == queries.Keys - ids;
    assert multiset(queries.Keys) == multiset(queries.Keys - ids) + multiset(ids);
    assert (sent + [plan])[..|sent|] == sent;
  }

  // A plan only looks at its own queries.
  lemma PlanKept(plan: BatchPlan, b: nat, available: int, queries: Queries, queries': Queries)
    requires PlanFor(plan, b, available, queries)
    requires forall id {:trigger id in plan.ids} | id in plan.ids :: id in queries' && queries'[id] == queries[id]
    ensures PlanFor(plan, b, available, queries')
  {
    assert plan.ids[0] in plan.ids;
  }

  /** The other backends' plans do not notice. */
  lemma SendKeepsPlans(backends: Backends, queries: Queries, profiles: Profiles, b: nat)
    requires PlansOk(backends, backends.Keys, queries, profiles) && Planned(backends, b)
    ensures PlansOk(Freed(backends, b), backends.Keys, queries - IdSet(PlanOf(backends, b).ids), profiles)
  {
    var backends', queries' := Freed(backends, b), queries - IdSet(PlanOf(backends, b).ids);
    forall c ensures Planned(backends', c) <==> c != b && Planned(backends, c) {
    }
    forall c | c in backends && Planned(backends', c)
      ensures PlanFor(PlanOf(backends', c), c, backends'[c].nextAvailable, queries')
    {
      var plan := PlanOf(backends, c);
      assert Planned(backends, c);
      forall id | id in plan.ids ensures id in queries' && queries'[id] == queries[id] {
        assert id in IdSet(plan.ids);
      }
      PlanKept(plan, c, backends[c].nextAvailable, queries, queries');
    }
    hide PlanFor;
  }

  lemma PlanIsPending(plan: BatchPlan, b: nat, available: int, queries: Queries)
    requires PlanFor(plan, b, available, queries)
    ensures plan.ids != [] && OfModel(plan.ids, queries, plan.model) && IdSet(plan.ids) <= queries.Keys
    ensures Increasing(plan.ids) && available <= plan.execTime
  {
    forall i | 0 <= i < |plan.ids| ensures plan.ids[i] in queries && queries[plan.ids[i]].model == plan.model {
      assert plan.ids[i] in plan.ids;
    }
  }

  // The state after b's plan has been sent.
  ghost predicate PlanSent(s: State, b: nat, s': State)
    requires Planned(s.backends, b)
  {
    var plan := PlanOf(s.backends, b);
    && s' == s.(queries := s.queries - IdSet(plan.ids), waiting := s'.waiting, backends := Freed(s.backends, b),
         sent := s.sent + [plan])
    && s'.waiting.Keys == s.waiting.Keys
  }

  lemma SendSound(s: State, profiles: Profiles, b: nat, s': State)
    requires Sound(s, profiles) && Planned(s.backends, b) && PlanSent(s, b, s') && InLists(s'.queries, s'.waiting)
    ensures Sound(s', profiles)
  {
    hide Ledger, History, PlansOk, Accounted, InLists, PlanFor, IdSet, InTime, Increasing;
    var plan := PlanOf(s.backends, b);
    CurrentIsGood(s, profiles, b);
    PlanIsPending(plan, b, s.backends[b].nextAvailable, s.queries);
    SendKeepsHistory(s.sent, s.backends, profiles, b, s.queries);
    SendKeepsLedger(s.backends, s.sent, s.superseded, s.nextPlanId, b);
    SendAccount(s.accepted, s.queries, s.dropped, s.sent, plan);
    SendKeepsPlans(s.backends, s.queries, profiles, b);
    assert s'.backends.Keys == s.backends.Keys;
  }

  lemma CurrentIsGood(s: State, profiles: Profiles, b: nat)
    requires Sound(s, profiles) && Planned(s.backends, b)
    ensures PlanFor(PlanOf(s.backends, b), b, s.backends[b].nextAvailable, s.queries)
    ensures InTime(PlanOf(s.backends, b), profiles)
  {
    hide Ledger, History, Accounted, InLists, IdSet, Increasing;
  }

  /**
   A timer sends the plan it was set for if that is still the backend's current one, and changes
   nothing otherwise; a superseded plan is never sent, and neither check can fail.
   */
  lemma FinalizeSound(s: State, profiles: Profiles, b: nat, planId: nat)
    requires Sound(s, profiles)
    ensures Finalized(s, b, planId).Some?
    ensures var s' := Finalized(s, b, planId).value;
      && Sound(s', profiles)
      && (if Planned(s.backends, b) && PlanOf(s.backends, b).planId == planId then PlanSent(s, b, s') else s' == s)
      && (planId in s.superseded ==> s' == s)
  {
    hide Ledger, History, PlansOk, Accounted, InLists, PlanFor, IdSet, InTime, Increasing, TakeAll, OfModel;
    if Planned(s.backends, b) && PlanOf(s.backends, b).planId == planId {
      var plan := PlanOf(s.backends, b);
      CurrentIsGood(s, profiles, b);
      PlanIsPending(plan, b, s.backends[b].nextAvailable, s.queries);
      ModelWaits(s, plan);
      NotSuperseded(s, profiles, b);
      var t := s.(backends := Freed(s.backends, b), sent := s.sent + [plan]);
      TakeAllIs(t, plan.model, plan.ids);
      SendSound(s, profiles, b, TakeAll(t, plan.model, plan.ids).value);
    }
  }

  lemma ModelWaits(s: State, plan: BatchPlan)
    requires InLists(s.queries, s.waiting) && plan.ids != [] && OfModel(plan.ids, s.queries, plan.model)
    ensures plan.model in s.waiting
  {
    assert plan.ids[0] in s.queries;
    var info := s.queries[plan.ids[0]];
    assert info.model in s.waiting;
  }

  lemma NotSuperseded(s: State, profiles: Profiles, b: nat)
    requires Sound(s, profiles) && Planned(s.backends, b)
    ensures PlanOf(s.backends, b).planId !in s.superseded
  {
    hide History, PlansOk, Accounted, InLists, PlanIds;
  }
}
