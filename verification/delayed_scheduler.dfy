/** The delayed scheduler itself. */
module DelayedSchedulers {
  import opened Wrappers
  import opened Orderings
  import opened ModelProfiles
  import opened QueryLists
  import opened DelayedPlans
  import opened DelayedStates

  lemma LeastUnique(s: set<nat>, x: nat, y: nat)
    requires IsLeast(s, x) && IsLeast(s, y)
    ensures x == y
  {
  }

  // Iterates an ordered set of ids.
  method Enumerate(s: set<nat>) returns (ids: seq<nat>)
    ensures ids == InOrder(s)
  {
    ids := [];
    var todo := s;
    while todo != {}
      invariant ids + InOrder(todo) == InOrder(s)
      decreases |todo|
    {
      LeastExists(todo);
      var x :| x in todo && forall y {:trigger y in todo} | y in todo :: x <= y;
      LeastUnique(todo, x, Least(todo));
      assert ids + ([x] + InOrder(todo - {x})) == ids + [x] + InOrder(todo - {x});
      ids := ids + [x];
      todo := todo - {x};
    }
    assert ids + [] == ids;
  }

  // The sliding window over the ids, then the plan for what it finds.
  method MakeTry(
    p: Profile, b: nat, available: int, model: nat, ids: seq<nat>, queries: Queries, now: int, reserved: BatchSize)
    returns (r: Try)
    ensures r == TryPlan(p, b, available, model, ids, queries, now, reserved)
  {
    hide Select;
    var dl, exec := DeadlinesOf(ids, queries), EarliestExec(available, now);
    var ok, start, size := SlideWindow(p, dl, exec, reserved);
    if !ok {
      return Aborted;
    }
    SelectIsBest(p, dl, exec, reserved);
    if size == 0 {
      return NoPlan;
    }
    if !p.Covers(size + 1) {
      return Aborted;
    }
    r := Candidate(MakePlan(p, b, model, ids[start..start + size], dl[start], exec));
  }

  class DelayedScheduler {
    const profiles: Profiles
    var queries: Queries
    var waiting: Waiting
    var backends: Backends
    var nextPlanId: nat
    // What has left the scheduler.
    var dropped: seq<nat>
    var sent: seq<BatchPlan>
    ghost var accepted: seq<nat>
    ghost var superseded: set<nat>

    ghost function Value(): State
      reads this
    {
      State(queries, waiting, backends, nextPlanId, accepted, dropped, sent, superseded)
    }

    constructor (profiles: Profiles, models: set<nat>, nodes: set<nat>)
      ensures this.profiles == profiles && Value() == Initial(models, nodes)
    {
      this.profiles := profiles;
      queries, waiting, backends := map[], map m | m in models :: [], map b | b in nodes :: Backend(0, None);
      nextPlanId, dropped, sent, accepted, superseded := 1, [], [], [], {};
    }

    method EnqueueQuery(id: nat, deadline: int, model: nat) returns (status: Status)
      modifies this
      ensures status == EnqueueStatus(old(Value()), id, model)
      ensures Value() == Enqueued(old(Value()), id, Info(deadline, model))
    {
      if id in queries {
        return GlobalIdConflict;
      }
      if model !in waiting {
        return ModelSessionNotLoaded;
      }
      queries := queries[id := Info(deadline, model)];
      waiting := waiting[model := Insert(waiting[model], Query(deadline, id))];
      accepted := accepted + [id];
      status := Ok;
    }

    // Drops the queries of one model whose deadline has passed.
    method DropTimeoutsOf(m: nat, now: int)
      requires m in waiting
      modifies this
      ensures Value() == DropTimedOut(old(Value()), m, now)
    {
      while waiting[m] != [] && waiting[m][0].deadline <= now
        invariant m in waiting && DropTimedOut(Value(), m, now) == DropTimedOut(old(Value()), m, now)
        decreases |waiting[m]|
      {
        var id := waiting[m][0].id;
        dropped := dropped + [id];
        queries := queries - {id};
        waiting := waiting[m := waiting[m][1..]];
      }
    }

    method DropTimeoutQueries(models: seq<nat>, now: int)
      modifies this
      ensures Value() == DropAll(old(Value()), models, now)
    {
      hide DropTimedOut;
      for i := 0 to |models|
        invariant Value() == DropAll(old(Value()), models[..i], now)
      {
        assert models[..i + 1][..i] == models[..i];
        if models[i] in waiting {
          DropTimeoutsOf(models[i], now);
        }
      }
      assert models[..|models|] == models;
    }

    // One model session tried on a backend.
    method TryScheduleModelSessionOnBackend(b: nat, m: nat, free: set<nat>, env: Env) returns (r: Try)
      ensures r == Offer(Value(), profiles, env, free, b, m)
    {
      hide TryPlan;
      if b !in backends || IdsOf(free, queries, m) == {} || m !in profiles {
        return NoPlan;
      }
      var ids := Enumerate(IdsOf(free, queries, m));
      r := MakeTry(profiles[m], b, backends[b].nextAvailable, m, ids, queries, env.clock(b, m), env.reserved(b, m));
    }

    // The plan with the earliest start among all model sessions that can use the backend.
    method BestPlan(b: nat, free: set<nat>, env: Env) returns (r: Choice)
      ensures r == Best(Value(), profiles, env, free, b, env.models)
    {
      hide Offer;
      var models, best: Option<BatchPlan> := env.models, None;
      for i := 0 to |models|
        invariant Best(Value(), profiles, env, free, b, models[..i]) == Chosen(best)
      {
        assert models[..i + 1][..i] == models[..i];
        var o := TryScheduleModelSessionOnBackend(b, models[i], free, env);
        if o.Aborted? {
          BestDies(Value(), profiles, env, free, b, models, i + 1);
          return Died;
        }
        if o.Candidate? && (best == None || o.plan.execTime < best.value.execTime) {
          best := Some(o.plan);
        }
      }
      assert models[..|models|] == models;
      r := Chosen(best);
    }

    // Backend b gets the plan, or none.
    method SetNextPlan(b: nat, best: Option<BatchPlan>, free: set<nat>) returns (free': set<nat>)
      requires b in backends
      modifies this
      ensures Round(Value(), free') == Assigned(Round(old(Value()), free), b, best)
    {
      superseded := superseded + CurrentId(backends, b);
      if best == None {
        backends := SetPlan(backends, b, None);
        free' := free;
      } else {
        var plan := best.value.(planId := nextPlanId);
        backends := SetPlan(backends, b, Some(plan));
        nextPlanId := nextPlanId + 1;
        free' := free - set id | id in plan.ids;
      }
    }

    // Every backend, the earliest available first, gets a new plan or none.
    method WorkFullSchedule(env: Env) returns (ok: bool)
      modifies this
      ensures Rescheduled(old(Value()), profiles, env) == if ok then Some(Value()) else None
    {
      hide Best, DropAll, Assigned;
      DropTimeoutQueries(env.models, env.now);
      ghost var start := Round(Value(), queries.Keys);
      var free, nodes := queries.Keys, ByAvailability(backends, env.nodes);
      for i := 0 to |nodes|
        invariant AssignAll(start, profiles, env, nodes[..i]) == Some(Round(Value(), free))
      {
        assert nodes[..i + 1][..i] == nodes[..i];
        var c := BestPlan(nodes[i], free, env);
        if c.Died? {
          AssignDies(start, profiles, env, nodes, i + 1);
          return false;
        }
        if nodes[i] in backends {
          free := SetNextPlan(nodes[i], c.best, free);
        }
      }
      assert nodes[..|nodes|] == nodes;
      ok := true;
    }

    // The planned queries are taken out of both structures.
    method TakeQueries(model: nat, ids: seq<nat>) returns (ok: bool)
      modifies this
      ensures TakeAll(old(Value()), model, ids) == if ok then Some(Value()) else None
    {
      hide Erase;
      for i := 0 to |ids|
        invariant TakeAll(old(Value()), model, ids[..i]) == Some(Value())
      {
        assert ids[..i + 1][..i] == ids[..i];
        if ids[i] !in queries || model !in waiting {
          TakeDies(old(Value()), model, ids, i + 1);
          return false;
        }
        waiting := waiting[model := Erase(waiting[model], Query(queries[ids[i]].deadline, ids[i]))];
        queries := queries - {ids[i]};
      }
      assert ids[..|ids|] == ids;
      ok := true;
    }

    method WorkFinalizePlan(b: nat, planId: nat) returns (ok: bool)
      modifies this
      ensures Finalized(old(Value()), b, planId) == if ok then Some(Value()) else None
    {
      hide TakeAll;
      if b !in backends || backends[b].nextPlan == None || backends[b].nextPlan.value.planId != planId {
        return true;
      }
      var plan := backends[b].nextPlan.value;
      if plan.model !in waiting {
        return true;
      }
      if backends[b].nextAvailable > plan.execTime {
        return false;
      }
      backends := backends[b := Backend(plan.finishTime, None)];
      sent := sent + [plan];
      ok := TakeQueries(plan.model, plan.ids);
    }

    method Handle(e: Event) returns (ok: bool)
      modifies this
      ensures Step(old(Value()), profiles, e) == if ok then Some(Value()) else None
    {
      hide Rescheduled, Finalized;
      match e
      case Enqueue(id, deadline, model) =>
        var status := EnqueueQuery(id, deadline, model);
        ok := true;
      case Reschedule(env) => ok := WorkFullSchedule(env);
      case Timer(b, planId) => ok := WorkFinalizePlan(b, planId);
    }
  }

  lemma {:induction false} BestDies(
    s: State, profiles: Profiles, env: Env, free: set<nat>, b: nat, models: seq<nat>, i: nat)
    requires i <= |models| && Best(s, profiles, env, free, b, models[..i]).Died?
    ensures Best(s, profiles, env, free, b, models).Died?
    decreases |models| - i
  {
    hide Offer;
    if i < |models| {
      assert models[..i + 1][..i] == models[..i];
      BestDies(s, profiles, env, free, b, models, i + 1);
    } else {
      assert models[..i] == models;
    }
  }

  lemma {:induction false} AssignDies(r: Round, profiles: Profiles, env: Env, nodes: seq<nat>, i: nat)
    requires i <= |nodes| && AssignAll(r, profiles, env, nodes[..i]) == None
    ensures AssignAll(r, profiles, env, nodes) == None
    decreases |nodes| - i
  {
    hide Best, Assigned;
    if i < |nodes| {
      assert nodes[..i + 1][..i] == nodes[..i];
      AssignDies(r, profiles, env, nodes, i + 1);
    } else {
      assert nodes[..i] == nodes;
    }
  }

  lemma {:induction false} TakeDies(s: State, model: nat, ids: seq<nat>, i: nat)
    requires i <= |ids| && TakeAll(s, model, ids[..i]) == None
    ensures TakeAll(s, model, ids) == None
    decreases |ids| - i
  {
    hide Erase;
    if i < |ids| {
      assert ids[..i + 1][..i] == ids[..i];
      TakeDies(s, model, ids, i + 1);
    } else {
      assert ids[..i] == ids;
    }
  }

  lemma {:induction false} RunDies(models: set<nat>, nodes: set<nat>, profiles: Profiles, events: seq<Event>, i: nat)
    requires i <= |events| && RunOf(models, nodes, profiles, events[..i]) == None
    ensures RunOf(models, nodes, profiles, events) == None
    decreases |events| - i
  {
    hide Step;
    if i < |events| {
      assert events[..i + 1][..i] == events[..i];
      RunDies(models, nodes, profiles, events, i + 1);
    } else {
      assert events[..i] == events;
    }
  }

  /** Runs a scheduler of some models and backends through some events. */
  method Run(profiles: Profiles, models: set<nat>, nodes: set<nat>, events: seq<Event>)
    returns (ok: bool, pending: Queries, dropped: seq<nat>, sent: seq<BatchPlan>)
    ensures ok <==> RunOf(models, nodes, profiles, events).Some?
    ensures ok ==>
      var s := RunOf(models, nodes, profiles, events).value;
      pending == s.queries && dropped == s.dropped && sent == s.sent
  {
    hide Step;
    var t := new DelayedScheduler(profiles, models, nodes);
    for n := 0 to |events|
      invariant fresh(t) && t.profiles == profiles && RunOf(models, nodes, profiles, events[..n]) == Some(t.Value())
    {
      assert events[..n + 1][..n] == events[..n];
      ok := t.Handle(events[n]);
      if !ok {
        RunDies(models, nodes, profiles, events, n + 1);
        return false, map[], [], [];
      }
    }
    assert events[..|events|] == events;
    ok, pending, dropped, sent := true, t.queries, t.dropped, t.sent;
  }
}
