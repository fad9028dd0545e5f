/** The delayed scheduler as a state machine: enqueue, full reschedule, and finalize by timer. */
module DelayedStates {
  import opened Wrappers
  import opened Orderings
  import opened ModelProfiles
  import opened QueryLists
  import opened BatchPolicy
  import opened DelayedPlans

  // What is known about a pending query besides its global id.
  datatype Info = Info(deadline: int, model: nat)

  datatype BatchPlan = BatchPlan(
    planId: nat, backend: nat, model: nat,
    sendTime: int, execTime: int, finishTime: int, earliestDeadline: int, ids: seq<nat>)

  datatype Backend = Backend(nextAvailable: int, nextPlan: Option<BatchPlan>)

  type Queries = map<nat, Info>
  type Waiting = map<nat, seq<Query>>
  type Backends = map<nat, Backend>
  type Profiles = map<nat, Profile>

  /**
   The scheduler: pending queries, also by model session in the order of their deadlines, and the
   backends; then what has come in and gone out: ids accepted and dropped, plans sent and replaced.
   */
  datatype State = State(
    queries: Queries, waiting: Waiting, backends: Backends, nextPlanId: nat,
    accepted: seq<nat>, dropped: seq<nat>, sent: seq<BatchPlan>, superseded: set<nat>)

  /**
   What the outside world supplies during a reschedule: the clock at its start and whenever a model
   is tried on a backend, the batch size estimates, and the orders the hash tables are in.
   */
  datatype Env = Env(
    now: int, clock: (nat, nat) -> int, reserved: (nat, nat) -> BatchSize, models: seq<nat>, nodes: seq<nat>)

  // An estimate is never zero.
  type BatchSize = n: nat | n >= 1 witness 1

  ghost function IdSet(ids: seq<nat>): set<nat> {
    set id | id in ids
  }

  // The least of some ids.
  ghost predicate IsLeast(s: set<nat>, x: nat) {
    x in s && forall y {:trigger y in s} | y in s :: x <= y
  }

  lemma {:induction false} LeastExists(s: set<nat>)
    requires s != {}
    ensures exists x :: IsLeast(s, x)
    decreases |s|
  {
    var x :| x in s;
    if s == {x} {
      assert IsLeast(s, x);
    } else {
      LeastExists(s - {x});
      var z :| IsLeast(s - {x}, z);
      assert IsLeast(s, if x <= z then x else z) by {
        assert forall y | y in s :: y == x || y in s - {x};
      }
    }
  }

  ghost function Least(s: set<nat>): (x: nat)
    requires s != {}
    ensures IsLeast(s, x)
  {
    LeastExists(s);
    var x :| IsLeast(s, x);
    x
  }

  // An ordered set of ids, smallest first.
  ghost function InOrder(s: set<nat>): seq<nat>
    decreases |s|
  {
    if s == {} then [] else [Least(s)] + InOrder(s - {Least(s)})
  }

  // The free ids of one model.
  function IdsOf(free: set<nat>, queries: Queries, m: nat): set<nat> {
    set id | id in free && id in queries && queries[id].model == m
  }

  function DeadlinesOf(ids: seq<nat>, queries: Queries): (dl: Deadlines)
    ensures |dl| == |ids|
    ensures forall i {:trigger dl[i]} | 0 <= i < |ids| && ids[i] in queries :: dl[i] == queries[ids[i]].deadline
  {
    seq(|ids|, i requires 0 <= i < |ids| => if ids[i] in queries then queries[ids[i]].deadline else 0)
  }

  // The times of a plan for a batch whose first deadline is `first`.
  function MakePlan(p: Profile, b: nat, model: nat, ids: seq<nat>, first: int, exec: int): BatchPlan
    requires p.Covers(|ids|) && p.Covers(|ids| + 1)
  {
    var execTime := ExecTime(p, first, exec, |ids|);
    BatchPlan(0, b, model, execTime - CTRL_PLANE_NS - DATA_PLANE_NS, execTime, Finish(p, execTime, |ids|), first, ids)
  }

  // The earliest start of a batch: when the backend is free and the plan has reached it.
  function EarliestExec(available: int, now: int): int {
    var received := now + CTRL_PLANE_NS + DATA_PLANE_NS;
    if available >= received then available else received
  }

  // A batch size outside the profile ends the process.
  datatype Try = Aborted | NoPlan | Candidate(plan: BatchPlan)

  /** A plan over some of the given queries of one model. */
  function TryPlan(
    p: Profile, b: nat, available: int, model: nat, ids: seq<nat>, queries: Queries, now: int, reserved: BatchSize): Try
  {
    var dl, exec := DeadlinesOf(ids, queries), EarliestExec(available, now);
    match Select(p, dl, exec, reserved)
    case Uncovered => Aborted
    case Segment(k, n) =>
      SelectIsBest(p, dl, exec, reserved);
      if n == 0 then NoPlan
      else if !p.Covers(n + 1) then Aborted
      else Candidate(MakePlan(p, b, model, ids[k..k + n], dl[k], exec))
  }

  // What one model session can make of a backend.
  ghost function Offer(s: State, profiles: Profiles, env: Env, free: set<nat>, b: nat, m: nat): Try {
    if b !in s.backends || IdsOf(free, s.queries, m) == {} || m !in profiles then NoPlan
    else
      TryPlan(profiles[m], b, s.backends[b].nextAvailable, m, InOrder(IdsOf(free, s.queries, m)), s.queries,
        env.clock(b, m), env.reserved(b, m))
  }

  datatype Choice = Died | Chosen(best: Option<BatchPlan>)

  /** The plan with the earliest start among those of all model sessions, the first of equals. */
  ghost function Best(s: State, profiles: Profiles, env: Env, free: set<nat>, b: nat, models: seq<nat>): Choice {
    if models == [] then Chosen(None)
    else
      var n := |models| - 1;
      match Best(s, profiles, env, free, b, models[..n])
      case Died => Died
      case Chosen(best) =>
        match Offer(s, profiles, env, free, b, models[n])
        case Aborted => Died
        case NoPlan => Chosen(best)
        case Candidate(plan) =>
          Chosen(if best == None || plan.execTime < best.value.execTime then Some(plan) else best)
  }

  // A reschedule in progress: the ids that no new plan uses yet.
  datatype Round = Round(state: State, free: set<nat>)

  function SetPlan(backends: Backends, b: nat, plan: Option<BatchPlan>): Backends
    requires b in backends
  {
    backends[b := backends[b].(nextPlan := plan)]
  }

  // The id of b's current plan, if any.
  ghost function CurrentId(backends: Backends, b: nat): set<nat> {
    if b in backends && backends[b].nextPlan.Some? then {backends[b].nextPlan.value.planId} else {}
  }

  // A backend gets a new plan or none; its old one is superseded.
  ghost function Assigned(r: Round, b: nat, best: Option<BatchPlan>): Round
    requires b in r.state.backends
  {
    var s := r.state.(superseded := r.state.superseded + CurrentId(r.state.backends, b));
    match best
    case None => r.(state := s.(backends := SetPlan(s.backends, b, None)))
    case Some(p) =>
      var plan := p.(planId := s.nextPlanId);
      Round(s.(backends := SetPlan(s.backends, b, Some(plan)), nextPlanId := s.nextPlanId + 1),
        r.free - IdSet(plan.ids))
  }

  ghost function AssignAll(r: Round, profiles: Profiles, env: Env, nodes: seq<nat>): Option<Round> {
    if nodes == [] then Some(r)
    else
      var n := |nodes| - 1;
      match AssignAll(r, profiles, env, nodes[..n])
      case None => None
      case Some(before) =>
        match Best(before.state, profiles, env, before.free, nodes[n], env.models)
        case Died => None
        case Chosen(best) => if nodes[n] in before.state.backends then Some(Assigned(before, nodes[n], best)) else
          Some(before)
  }

  // The backends, the earliest available first.
  function ByAvailability(backends: Backends, nodes: seq<nat>): seq<nat> {
    SortDown(Listed(nodes, backends.Keys), map b | b in backends :: -(backends[b].nextAvailable as real))
  }

  // The most urgent query of a model session is dropped.
  function DropFirst(s: State, m: nat): State
    requires m in s.waiting && s.waiting[m] != []
  {
    var id := s.waiting[m][0].id;
    s.(queries := s.queries - {id}, waiting := s.waiting[m := s.waiting[m][1..]], dropped := s.dropped + [id])
  }

  // The queries of a model session whose deadlines have passed are dropped, earliest first.
  function DropTimedOut(s: State, m: nat, now: int): State
    requires m in s.waiting
    decreases |s.waiting[m]|
  {
    if s.waiting[m] == [] || s.waiting[m][0].deadline > now then s else DropTimedOut(DropFirst(s, m), m, now)
  }

  function DropAll(s: State, models: seq<nat>, now: int): State {
    if models == [] then s
    else
      var before := DropAll(s, models[..|models| - 1], now);
      var m := models[|models| - 1];
      if m in before.waiting then DropTimedOut(before, m, now) else before
  }

  /** Drops what has timed out and plans every backend afresh, the earliest available first. */
  ghost function Rescheduled(s: State, profiles: Profiles, env: Env): Option<State> {
    var s' := DropAll(s, env.models, env.now);
    match AssignAll(Round(s', s'.queries.Keys), profiles, env, ByAvailability(s'.backends, env.nodes))
    case None => None
    case Some(r) => Some(r.state)
  }

  datatype Status = Ok | GlobalIdConflict | ModelSessionNotLoaded

  function EnqueueStatus(s: State, id: nat, model: nat): Status {
    if id in s.queries then GlobalIdConflict else if model !in s.waiting then ModelSessionNotLoaded else Ok
  }

  /** A query joins the pending ones, unless its id is taken or its model unknown. */
  function Enqueued(s: State, id: nat, info: Info): State {
    if EnqueueStatus(s, id, info.model) != Ok then s
    else
      s.(queries := s.queries[id := info], accepted := s.accepted + [id],
         waiting := s.waiting[info.model := Insert(s.waiting[info.model], Query(info.deadline, id))])
  }

  // A list without one of its queries.
  function Erase(list: seq<Query>, q: Query): seq<Query> {
    if list == [] then [] else if list[0] == q then list[1..] else [list[0]] + Erase(list[1..], q)
  }

  // Takes planned queries out of both structures; every one must still be pending.
  function TakeAll(s: State, model: nat, ids: seq<nat>): Option<State> {
    if ids == [] then Some(s)
    else
      var n := |ids| - 1;
      match TakeAll(s, model, ids[..n])
      case None => None
      case Some(t) =>
        if ids[n] !in t.queries || model !in t.waiting then None
        else
          var q := Query(t.queries[ids[n]].deadline, ids[n]);
          Some(t.(queries := t.queries - {ids[n]}, waiting := t.waiting[model := Erase(t.waiting[model], q)]))
  }

  /** A timer fires for plan `planId` of backend b: only the backend's current plan is sent. */
  function Finalized(s: State, b: nat, planId: nat): Option<State> {
    if b !in s.backends || s.backends[b].nextPlan == None || s.backends[b].nextPlan.value.planId != planId then Some(s)
    else
      var plan := s.backends[b].nextPlan.value;
      if plan.model !in s.waiting then Some(s)
      else if s.backends[b].nextAvailable > plan.execTime then None
      else TakeAll(s.(backends := s.backends[b := Backend(plan.finishTime, None)], sent := s.sent + [plan]),
                   plan.model, plan.ids)
  }

  datatype Event = Enqueue(id: nat, deadline: int, model: nat) | Reschedule(env: Env) | Timer(backend: nat, planId: nat)

  ghost function Step(s: State, profiles: Profiles, e: Event): Option<State> {
    match e
    case Enqueue(id, deadline, model) => Some(Enqueued(s, id, Info(deadline, model)))
    case Reschedule(env) => Rescheduled(s, profiles, env)
    case Timer(b, planId) => Finalized(s, b, planId)
  }

  function Initial(models: set<nat>, nodes: set<nat>): State {
    State(map[], map m | m in models :: [], map b | b in nodes :: Backend(0, None), 1, [], [], [], {})
  }

  /** The scheduler after some events, or None if the process has ended. */
  ghost function RunOf(models: set<nat>, nodes: set<nat>, profiles: Profiles, events: seq<Event>): Option<State> {
    if events == [] then Some(Initial(models, nodes))
    else
      match RunOf(models, nodes, profiles, events[..|events| - 1])
      case None => None
      case Some(s) => Step(s, profiles, events[|events| - 1])
  }
}
