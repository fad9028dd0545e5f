/** Whole runs of the delayed scheduler. */
module DelayedRuns {
  import opened Wrappers
  import opened Orderings
  import opened ModelProfiles
  import opened DelayedPlans
  import opened DelayedStates
  import opened DelayedSafety

  // Successive plans on one backend do not overlap, each is in time, and no plan id is sent twice.
  ghost predicate SentSafely(sent: seq<BatchPlan>, profiles: Profiles) {
    && (forall i {:trigger sent[i]} | 0 <= i < |sent| :: InTime(sent[i], profiles))
    && (forall i, j {:trigger sent[i], sent[j]} | 0 <= i < j < |sent| ::
          && sent[i].planId != sent[j].planId
          && (sent[i].backend == sent[j].backend ==> sent[i].finishTime <= sent[j].execTime))
  }

  lemma SoundIsSafe(s: State, profiles: Profiles)
    requires Sound(s, profiles)
    ensures SentSafely(s.sent, profiles) && s.superseded !! PlanIds(s.sent)
    ensures multiset(s.accepted) == multiset(s.queries.Keys) + multiset(s.dropped) + SentIds(s.sent)
  {
    hide PlansOk, InLists, SentIds, PlanIds;
  }

  // Reschedules walk the hash tables in full.
  ghost predicate Regular(models: set<nat>, nodes: set<nat>, e: Event) {
    e.Reschedule? ==> Lists(e.env.models, models) && Lists(e.env.nodes, nodes)
  }

  ghost predicate AllRegular(models: set<nat>, nodes: set<nat>, events: seq<Event>) {
    forall i {:trigger events[i]} | 0 <= i < |events| :: Regular(models, nodes, events[i])
  }

  lemma StepSound(s: State, profiles: Profiles, e: Event)
    requires Sound(s, profiles) && AllNonNegative(profiles) && Regular(s.waiting.Keys, s.backends.Keys, e)
    ensures Step(s, profiles, e).Some? ==>
      var s' := Step(s, profiles, e).value;
      Sound(s', profiles) && s'.waiting.Keys == s.waiting.Keys && s'.backends.Keys == s.backends.Keys
  {
    hide Sound, AllNonNegative, Rescheduled, Finalized, Lists, CurrentIds, IdSet;
    match e
    case Enqueue(id, deadline, model) => EnqueueSound(s, profiles, id, Info(deadline, model));
    case Reschedule(env) => RescheduleSound(s, profiles, env);
    case Timer(b, planId) => FinalizeSound(s, profiles, b, planId);
  }

  lemma FirstRegular(models: set<nat>, nodes: set<nat>, events: seq<Event>)
    requires events != [] && AllRegular(models, nodes, events)
    ensures AllRegular(models, nodes, events[..|events| - 1]) && Regular(models, nodes, events[|events| - 1])
  {
    hide Regular;
  }

  /**
   For every run of enqueues, reschedules and timers, also stale ones: every accepted query is
   pending, dropped, or sent in exactly one plan; plans on one backend do not overlap; with a
   monotone profile each is done by its first query's deadline; no superseded plan is ever sent.
   */
  lemma {:induction false} RunIsSafe(models: set<nat>, nodes: set<nat>, profiles: Profiles, events: seq<Event>)
    requires AllNonNegative(profiles) && AllRegular(models, nodes, events)
    requires RunOf(models, nodes, profiles, events).Some?
    ensures var s := RunOf(models, nodes, profiles, events).value;
      && Sound(s, profiles) && s.waiting.Keys == models && s.backends.Keys == nodes
      && SentSafely(s.sent, profiles) && s.superseded !! PlanIds(s.sent)
      && multiset(s.accepted) == multiset(s.queries.Keys) + multiset(s.dropped) + SentIds(s.sent)
  {
    hide Sound, AllNonNegative, AllRegular, Step, Regular, SentSafely, SentIds, PlanIds;
    if events == [] {
      InitialSound(models, nodes, profiles);
    } else {
      var n := |events| - 1;
      FirstRegular(models, nodes, events);
      RunIsSafe(models, nodes, profiles, events[..n]);
      StepSound(RunOf(models, nodes, profiles, events[..n]).value, profiles, events[n]);
    }
    SoundIsSafe(RunOf(models, nodes, profiles, events).value, profiles);
  }

  // The query came in with this deadline for this model.
  ghost predicate CameIn(events: seq<Event>, id: nat, deadline: int, model: nat) {
    exists k {:trigger events[k]} :: 0 <= k < |events| && events[k] == Enqueue(id, deadline, model)
  }

  lemma CameBefore(events: seq<Event>, id: nat, deadline: int, model: nat)
    requires events != [] && CameIn(events[..|events| - 1], id, deadline, model)
    ensures CameIn(events, id, deadline, model)
  {
    var before := events[..|events| - 1];
    var k :| 0 <= k < |before| && before[k] == Enqueue(id, deadline, model);
    assert events[k] == before[k];
  }

  // A plan's queries came in for its model, the first one with the plan's deadline.
  ghost predicate PlanCameIn(events: seq<Event>, plan: BatchPlan) {
    && plan.ids != [] && Increasing(plan.ids)
    && CameIn(events, plan.ids[0], plan.earliestDeadline, plan.model)
    && forall i {:trigger plan.ids[i]} | 0 <= i < |plan.ids| :: CameInOnce(events, plan.ids[i], plan.model)
  }

  ghost predicate CameInOnce(events: seq<Event>, id: nat, model: nat) {
    exists d {:trigger CameIn(events, id, d, model)} :: CameIn(events, id, d, model)
  }

  lemma PlanCameBefore(events: seq<Event>, plan: BatchPlan)
    requires events != [] && PlanCameIn(events[..|events| - 1], plan)
    ensures PlanCameIn(events, plan)
  {
    var before := events[..|events| - 1];
    hide CameIn, Increasing;
    CameBefore(events, plan.ids[0], plan.earliestDeadline, plan.model);
    forall i | 0 <= i < |plan.ids| ensures CameInOnce(events, plan.ids[i], plan.model) {
      assert CameInOnce(before, plan.ids[i], plan.model);
      var d :| CameIn(before, plan.ids[i], d, plan.model);
      CameBefore(events, plan.ids[i], d, plan.model);
    }
  }

  ghost predicate QueriesCameIn(events: seq<Event>, queries: Queries) {
    forall id {:trigger queries[id]} | id in queries :: CameIn(events, id, queries[id].deadline, queries[id].model)
  }

  ghost predicate SentCameIn(events: seq<Event>, sent: seq<BatchPlan>) {
    forall i {:trigger sent[i]} | 0 <= i < |sent| :: PlanCameIn(events, sent[i])
  }

  // What is pending or sent has come in.
  ghost predicate AllCameIn(events: seq<Event>, s: State) {
    QueriesCameIn(events, s.queries) && SentCameIn(events, s.sent)
  }

  lemma AllCameBefore(events: seq<Event>, s: State)
    requires events != [] && AllCameIn(events[..|events| - 1], s)
    ensures AllCameIn(events, s)
  {
    var before := events[..|events| - 1];
    hide CameIn, PlanCameIn;
    forall id | id in s.queries ensures CameIn(events, id, s.queries[id].deadline, s.queries[id].model) {
      CameBefore(events, id, s.queries[id].deadline, s.queries[id].model);
    }
    forall i | 0 <= i < |s.sent| ensures PlanCameIn(events, s.sent[i]) {
      PlanCameBefore(events, s.sent[i]);
    }
  }

  lemma FewerCameIn(events: seq<Event>, queries: Queries, fewer: Queries)
    requires QueriesCameIn(events, queries)
    requires forall id {:trigger id in fewer} | id in fewer :: id in queries && fewer[id] == queries[id]
    ensures QueriesCameIn(events, fewer)
  {
    hide CameIn;
  }

  lemma EnqueueCameIn(events: seq<Event>, s: State, id: nat, info: Info)
    requires AllCameIn(events, s) && CameIn(events, id, info.deadline, info.model)
    ensures AllCameIn(events, Enqueued(s, id, info))
  {
    hide CameIn, PlanCameIn;
  }

  lemma SendCameIn(events: seq<Event>, s: State, profiles: Profiles, b: nat, s': State)
    requires AllCameIn(events, s) && Sound(s, profiles) && Planned(s.backends, b) && PlanSent(s, b, s')
    ensures AllCameIn(events, s')
  {
    var plan := PlanOf(s.backends, b);
    CurrentIsGood(s, profiles, b);
    hide Sound, CameIn, InTime;
    forall i | 0 <= i < |plan.ids| ensures CameInOnce(events, plan.ids[i], plan.model) {
      assert plan.ids[i] in plan.ids;
      assert CameIn(events, plan.ids[i], s.queries[plan.ids[i]].deadline, plan.model);
    }
    assert s.queries[plan.ids[0]].model == plan.model by { assert plan.ids[0] in plan.ids; }
    assert PlanCameIn(events, plan);
    hide PlanCameIn, Increasing;
    FewerCameIn(events, s.queries, s'.queries);
  }

  lemma StepCameIn(events: seq<Event>, s: State, profiles: Profiles)
    requires events != [] && AllCameIn(events[..|events| - 1], s) && Sound(s, profiles) && AllNonNegative(profiles)
    requires Regular(s.waiting.Keys, s.backends.Keys, events[|events| - 1])
    requires Step(s, profiles, events[|events| - 1]).Some?
    ensures AllCameIn(events, Step(s, profiles, events[|events| - 1]).value)
  {
    hide Sound, AllNonNegative, Rescheduled, Finalized, Lists, CurrentIds, AllCameIn, IdSet;
    AllCameBefore(events, s);
    var e := events[|events| - 1];
    match e
    case Enqueue(id, deadline, model) =>
      assert CameIn(events, id, deadline, model);
      EnqueueCameIn(events, s, id, Info(deadline, model));
    case Reschedule(env) =>
      RescheduleSound(s, profiles, env);
      RescheduledCameIn(events, s, Rescheduled(s, profiles, env).value, env.now);
    case Timer(b, planId) =>
      FinalizeSound(s, profiles, b, planId);
      if Planned(s.backends, b) && PlanOf(s.backends, b).planId == planId {
        SendCameIn(events, s, profiles, b, Finalized(s, b, planId).value);
      }
  }

  lemma RescheduledCameIn(events: seq<Event>, s: State, s': State, now: int)
    requires AllCameIn(events, s) && s'.sent == s.sent
    requires s'.queries == s.queries - (set id | id in s.queries && s.queries[id].deadline <= now)
    ensures AllCameIn(events, s')
  {
    hide CameIn, PlanCameIn;
    FewerCameIn(events, s.queries, s'.queries);
  }

  /**
   Every plan sent is made of queries that came in for its model, and its deadline is the one its
   first query came in with.
   */
  lemma {:induction false} RunCameIn(models: set<nat>, nodes: set<nat>, profiles: Profiles, events: seq<Event>)
    requires AllNonNegative(profiles) && AllRegular(models, nodes, events)
    requires RunOf(models, nodes, profiles, events).Some?
    ensures AllCameIn(events, RunOf(models, nodes, profiles, events).value)
  {
    hide Sound, AllNonNegative, AllRegular, Step, Regular, SentSafely, SentIds, PlanIds, PlanCameIn, CameIn;
    if events != [] {
      var n := |events| - 1;
      FirstRegular(models, nodes, events);
      RunIsSafe(models, nodes, profiles, events[..n]);
      RunCameIn(models, nodes, profiles, events[..n]);
      StepCameIn(events, RunOf(models, nodes, profiles, events[..n]).value, profiles);
    }
  }

  // For each model, a larger id never comes with an earlier deadline.
  ghost predicate IdsFollowDeadlines(events: seq<Event>) {
    forall j, k {:trigger events[j], events[k]} | 0 <= j < |events| && 0 <= k < |events| ::
      events[j].Enqueue? && events[k].Enqueue? && events[j].model == events[k].model && events[j].id <= events[k].id ==>
        events[j].deadline <= events[k].deadline
  }

  /**
   With a monotone profile, and ids that follow the deadlines, every query of every plan sent is
   done by its own deadline.
   */
  lemma EveryMemberInTime(
    models: set<nat>, nodes: set<nat>, profiles: Profiles, events: seq<Event>, i: nat, k: nat, deadline: int)
    requires AllNonNegative(profiles) && AllRegular(models, nodes, events) && IdsFollowDeadlines(events)
    requires RunOf(models, nodes, profiles, events).Some? && i < |RunOf(models, nodes, profiles, events).value.sent|
    requires var plan := RunOf(models, nodes, profiles, events).value.sent[i];
      && k < |plan.ids| && plan.model in profiles && profiles[plan.model].Monotone()
      && CameIn(events, plan.ids[k], deadline, plan.model)
    ensures RunOf(models, nodes, profiles, events).value.sent[i].finishTime <= deadline
  {
    RunIsSafe(models, nodes, profiles, events);
    RunCameIn(models, nodes, profiles, events);
    var plan := RunOf(models, nodes, profiles, events).value.sent[i];
    hide RunOf, AllNonNegative, AllRegular, Sound, SentIds, PlanIds, Profile.Monotone;
    assert InTime(plan, profiles) && PlanCameIn(events, plan);
    var a :| 0 <= a < |events| && events[a] == Enqueue(plan.ids[0], plan.earliestDeadline, plan.model);
    var c :| 0 <= c < |events| && events[c] == Enqueue(plan.ids[k], deadline, plan.model);
    assert plan.ids[0] <= plan.ids[k];
  }

  // The query is carried by an event for a known model.
  ghost predicate Carried(models: set<nat>, events: seq<Event>, id: nat) {
    exists k {:trigger events[k]} ::
      0 <= k < |events| && events[k].Enqueue? && events[k].id == id && events[k].model in models
  }

  lemma CarriedMore(models: set<nat>, events: seq<Event>, id: nat)
    requires events != []
    ensures var e := events[|events| - 1];
      Carried(models, events, id) <==>
        Carried(models, events[..|events| - 1], id) || (e.Enqueue? && e.id == id && e.model in models)
  {
    var n := |events| - 1;
    var before := events[..n];
    if Carried(models, before, id) {
      var k :| 0 <= k < n && before[k].Enqueue? && before[k].id == id && before[k].model in models;
      assert events[k] == before[k];
    }
    if Carried(models, events, id) {
      var k :| 0 <= k <= n && events[k].Enqueue? && events[k].id == id && events[k].model in models;
      assert k < n ==> before[k] == events[k];
    }
  }

  lemma PendingAccepted(s: State, profiles: Profiles, id: nat)
    requires Sound(s, profiles) && id in s.queries
    ensures id in s.accepted
  {
    SoundIsSafe(s, profiles);
    hide Sound, SentSafely, PlanIds, SentIds;
    assert id in multiset(s.queries.Keys);
    assert id in multiset(s.accepted);
  }

  /** An id is accepted exactly if some event carried it for a known model. */
  lemma {:induction false} AcceptedIff(
    models: set<nat>, nodes: set<nat>, profiles: Profiles, events: seq<Event>, id: nat)
    requires AllNonNegative(profiles) && AllRegular(models, nodes, events)
    requires RunOf(models, nodes, profiles, events).Some?
    ensures id in RunOf(models, nodes, profiles, events).value.accepted <==> Carried(models, events, id)
  {
    hide Sound, AllNonNegative, AllRegular, Regular, SentSafely, SentIds, PlanIds, Carried, Rescheduled, Finalized;
    if events == [] {
      NoneCarried(models, id);
    } else {
      var n := |events| - 1;
      FirstRegular(models, nodes, events);
      RunIsSafe(models, nodes, profiles, events[..n]);
      AcceptedIff(models, nodes, profiles, events[..n], id);
      CarriedMore(models, events, id);
      StepAccepts(RunOf(models, nodes, profiles, events[..n]).value, profiles, models, nodes, events[n], id);
    }
  }

  lemma NoneCarried(models: set<nat>, id: nat)
    ensures !Carried(models, [], id)
  {
  }

  lemma StepAccepts(s: State, profiles: Profiles, models: set<nat>, nodes: set<nat>, e: Event, id: nat)
    requires Sound(s, profiles) && AllNonNegative(profiles) && Regular(models, nodes, e)
    requires s.waiting.Keys == models && s.backends.Keys == nodes && Step(s, profiles, e).Some?
    ensures id in Step(s, profiles, e).value.accepted <==>
      id in s.accepted || (e.Enqueue? && e.id == id && e.model in models)
  {
    hide Sound, AllNonNegative, Rescheduled, Finalized, Lists, CurrentIds, IdSet;
    match e
    case Enqueue(x, deadline, model) =>
      if x in s.queries {
        PendingAccepted(s, profiles, x);
      }
    case Reschedule(env) => RescheduleSound(s, profiles, env);
    case Timer(b, planId) => FinalizeSound(s, profiles, b, planId);
  }

  // Every profile covers batches of up to n queries, and one more.
  ghost predicate CoverMore(profiles: Profiles, n: nat) {
    forall m {:trigger profiles[m]} | m in profiles :: profiles[m].Covers(n + 1)
  }

  lemma {:induction false} SkipCovered(p: Profile, dl: Deadlines, exec: int, reserved: BatchSize, k: nat)
    requires k <= |dl| && p.Covers(|dl| + 1)
    ensures Skip(p, dl, exec, reserved, k).At? && k <= Skip(p, dl, exec, reserved, k).n <= |dl|
    decreases |dl| - k
  {
    if k < |dl| {
      SkipCovered(p, dl, exec, reserved, k + 1);
    }
  }

  lemma {:induction false} GrowCovered(p: Profile, dl: Deadlines, exec: int, k: nat, n: nat)
    requires k < |dl| && k + n <= |dl| && p.Covers(|dl| + 1)
    ensures Grow(p, dl, exec, k, n).At? && Grow(p, dl, exec, k, n).n <= |dl|
    decreases |dl| - n
  {
    if k + n < |dl| {
      GrowCovered(p, dl, exec, k, n + 1);
    }
  }

  lemma TrySurvives(
    p: Profile, b: nat, available: int, model: nat, ids: seq<nat>, queries: Queries, now: int, reserved: BatchSize)
    requires p.Covers(|ids| + 1)
    ensures !TryPlan(p, b, available, model, ids, queries, now, reserved).Aborted?
  {
    var dl, exec := DeadlinesOf(ids, queries), EarliestExec(available, now);
    SkipCovered(p, dl, exec, reserved, 0);
    var k := Skip(p, dl, exec, reserved, 0).n;
    if k < |dl| {
      GrowCovered(p, dl, exec, k, if reserved <= |dl| - k then reserved else |dl| - k);
    }
  }

  lemma {:induction false} InOrderLength(s: set<nat>)
    ensures |InOrder(s)| == |s|
    decreases |s|
  {
    if s != {} {
      InOrderLength(s - {Least(s)});
    }
  }

  lemma OfferSurvives(s: State, profiles: Profiles, env: Env, free: set<nat>, b: nat, m: nat)
    requires CoverMore(profiles, |s.queries|)
    ensures !Offer(s, profiles, env, free, b, m).Aborted?
  {
    if b in s.backends && m in profiles {
      var ids := IdsOf(free, s.queries, m);
      InOrderLength(ids);
      Fewer(ids, s.queries.Keys);
      hide TryPlan, InOrder;
      TrySurvives(profiles[m], b, s.backends[b].nextAvailable, m, InOrder(ids), s.queries, env.clock(b, m),
        env.reserved(b, m));
    }
  }

  lemma {:induction false} Fewer(a: set<nat>, b: set<nat>)
    requires a <= b
    ensures |a| <= |b|
  {
    if a != {} {
      var x :| x in a;
      Fewer(a - {x}, b - {x});
    }
  }

  lemma {:induction false} AssignAllSurvives(r: Round, profiles: Profiles, env: Env, nodes: seq<nat>)
    requires CoverMore(profiles, |r.state.queries|)
    ensures AssignAll(r, profiles, env, nodes).Some?
    ensures AssignAll(r, profiles, env, nodes).value.state.queries == r.state.queries
  {
    hide CoverMore, Best;
    if nodes != [] {
      var n := |nodes| - 1;
      AssignAllSurvives(r, profiles, env, nodes[..n]);
      var before := AssignAll(r, profiles, env, nodes[..n]).value;
      BestIsEarliest(before.state, profiles, env, before.free, nodes[n], env.models);
      forall m | m in env.models ensures !Offer(before.state, profiles, env, before.free, nodes[n], m).Aborted? {
        OfferSurvives(before.state, profiles, env, before.free, nodes[n], m);
      }
      hide Offer, EarliestOffer, CurrentId, IdSet;
    }
  }

  lemma RescheduleSurvives(s: State, profiles: Profiles, env: Env)
    requires Sound(s, profiles) && CoverMore(profiles, |s.queries|)
    ensures Rescheduled(s, profiles, env).Some?
  {
    SoundLists(s, profiles);
    hide Sound;
    DropAllKeeps(s, env.models, env.now);
    var s' := DropAll(s, env.models, env.now);
    hide DropAll, InLists, AssignAll;
    Fewer(s'.queries.Keys, s.queries.Keys);
    AssignAllSurvives(Round(s', s'.queries.Keys), profiles, env, ByAvailability(s'.backends, env.nodes));
  }

  // The number of queries that came in.
  ghost function Arrivals(events: seq<Event>): nat {
    if events == [] then 0 else Arrivals(events[..|events| - 1]) + if events[|events| - 1].Enqueue? then 1 else 0
  }

  lemma StepSurvives(s: State, profiles: Profiles, e: Event)
    requires Sound(s, profiles) && AllNonNegative(profiles) && Regular(s.waiting.Keys, s.backends.Keys, e)
    requires CoverMore(profiles, |s.queries|)
    ensures Step(s, profiles, e).Some? &&
      |Step(s, profiles, e).value.queries| <= |s.queries| + if e.Enqueue? then 1 else 0
  {
    hide Sound, AllNonNegative, Rescheduled, Finalized, CoverMore, CurrentIds, IdSet, Lists;
    match e
    case Enqueue(id, deadline, model) =>
      assert s.queries[id := Info(deadline, model)].Keys == s.queries.Keys + {id};
    case Reschedule(env) =>
      RescheduleSurvives(s, profiles, env);
      RescheduleSound(s, profiles, env);
      Fewer(Rescheduled(s, profiles, env).value.queries.Keys, s.queries.Keys);
    case Timer(b, planId) =>
      FinalizeSound(s, profiles, b, planId);
      Fewer(Finalized(s, b, planId).value.queries.Keys, s.queries.Keys);
  }

  lemma CoverFewer(profiles: Profiles, n: nat, m: nat)
    requires CoverMore(profiles, n) && m <= n
    ensures CoverMore(profiles, m)
  {
  }

  /** A run survives if every profile covers as many queries as come in, and one more. */
  lemma {:induction false} RunSurvives(models: set<nat>, nodes: set<nat>, profiles: Profiles, events: seq<Event>)
    requires AllNonNegative(profiles) && AllRegular(models, nodes, events) && CoverMore(profiles, Arrivals(events))
    ensures RunOf(models, nodes, profiles, events).Some?
    ensures |RunOf(models, nodes, profiles, events).value.queries| <= Arrivals(events)
  {
    hide Sound, AllNonNegative, AllRegular, Regular, Step, SentSafely, SentIds, PlanIds, CoverMore;
    if events != [] {
      var n := |events| - 1;
      FirstRegular(models, nodes, events);
      CoverFewer(profiles, Arrivals(events), Arrivals(events[..n]));
      RunSurvives(models, nodes, profiles, events[..n]);
      RunIsSafe(models, nodes, profiles, events[..n]);
      var s := RunOf(models, nodes, profiles, events[..n]).value;
      CoverFewer(profiles, Arrivals(events), |s.queries|);
      StepSurvives(s, profiles, events[n]);
    }
  }
}
