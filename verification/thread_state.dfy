/** The model thread as a state machine: it feeds the batching policy and turns granted GPUs into batch plans. */
module ThreadStates {
  import opened Wrappers
  import opened ModelProfiles
  import opened QueryLists
  import opened BatchPolicy

  // Latencies of the control, data and response paths, in nanoseconds.
  datatype Config = Config(ctrl: int, data: int, resp: int)

  // NoCandidate is the candidate that never becomes ready.
  datatype Candidate = NoCandidate | Candidate(execAt: int, invalidAfter: int)

  datatype Plan = Plan(id: nat, gpu: nat, queries: seq<Query>, execAt: int, finishAt: int)

  datatype Grant = Grant(gpu: nat, planId: nat, freeAt: int)

  datatype Status = Ok | ServiceUnavailable | ModelSessionNotLoaded

  // A batch size target is never zero.
  type Target = n: nat | n >= 1 witness 1

  const BACKEND_EXECUTION_DELAY_NS := 2_000_000
  const NS_PER_MS := 1_000_000

  /** What does not change: latencies, the objective in milliseconds, the model's number and its profile. */
  datatype Setup = Setup(config: Config, slaMs: nat, modelIndex: nat, profile: Profile) {
    // The latest time a result may leave the backend.
    function Deadline(recvNs: int): int {
      recvNs + slaMs * NS_PER_MS - config.resp - BACKEND_EXECUTION_DELAY_NS
    }

    // The earliest start of a plan sent now.
    function Earliest(now: int): int {
      now + config.data + config.ctrl
    }
  }

  /**
   The thread: the policy's window and last time, the candidate, the timers; then all that has come
   in and gone out.
   */
  datatype Thread = Thread(
    w: Window, lastExec: int, candidate: Candidate, target: nat, stopped: bool,
    dropTimer: Option<int>, invalidateTimer: Option<int>,
    accepted: seq<Query>, reported: seq<Query>, sent: seq<Plan>)

  const IDLE := Thread(Window([], [], []), 0, NoCandidate, 0, false, None, None, [], [], [])

  // One truncation of the summed latencies.
  function ExecElapse(p: Profile, n: nat): int
    requires p.Covers(n)
  {
    Nanos(p.pre.Total() + p.post.Total() + p.Forward(n))
  }

  // When the inputs should run: at once if the target is reached, otherwise as late as one more query would allow.
  function ExecAt(p: Profile, inputs: seq<Query>, target: nat, earliest: int): int
    requires inputs != [] && p.Covers(|inputs| + 1)
  {
    var frontrun := inputs[0].deadline - ExecElapse(p, |inputs| + 1);
    if |inputs| >= target then earliest else if earliest >= frontrun then earliest else frontrun
  }

  // The candidate and the timers for the current inputs; a batch size outside the profile ends the process.
  function WithCandidate(s: Setup, t: Thread, earliest: int): Option<Thread> {
    var inputs, n := t.w.inputs, |t.w.inputs|;
    if inputs == [] then Some(t.(candidate := NoCandidate, dropTimer := None, invalidateTimer := None))
    else if !s.profile.Covers(n + 1) then None
    else
      var invalidAfter := inputs[0].deadline - ExecElapse(s.profile, n);
      Some(t.(
        candidate := Candidate(ExecAt(s.profile, inputs, t.target, earliest), invalidAfter),
        dropTimer := Some(inputs[0].deadline),
        invalidateTimer := Some(invalidAfter - s.config.data - s.config.ctrl)))
  }

  // The dropped queries are reported.
  function WithReports(t: Thread): Thread {
    t.(w := t.w.(drops := []), reported := t.reported + t.w.drops)
  }

  /** Runs the policy, which refuses to go back in time, renews the candidate and the timers, and reports the drops. */
  function Updated(s: Setup, t: Thread, now: int, target: Target): Option<Thread> {
    var earliest := s.Earliest(now);
    if t.lastExec > earliest then None
    else
      match Expanded(s.profile, earliest, target, t.w)
      case Done(w) => (
        match WithCandidate(s, t.(w := w, lastExec := earliest, target := target), earliest)
        case None => None
        case Some(t') => Some(WithReports(t')))
      case _ => None
  }

  lemma UpdatedReady(s: Setup, t: Thread, now: int, target: Target)
    ensures Updated(s, t, now, target).Some? && Updated(s, t, now, target).value.w.inputs != [] ==>
      var t' := Updated(s, t, now, target).value;
      t'.candidate.Candidate? && s.profile.Covers(|t'.w.inputs|)
  {
    hide Expanded, ExecElapse, ExecAt;
  }

  function EnqueueStatus(s: Setup, t: Thread, index: nat): Status {
    if t.stopped then ServiceUnavailable else if index != s.modelIndex then ModelSessionNotLoaded else Ok
  }

  // A query joins those waiting.
  function WithQuery(t: Thread, q: Query): Thread {
    t.(w := t.w.(queries := Insert(t.w.queries, q)), accepted := t.accepted + [q])
  }

  /** A query for this model is accepted with its deadline. */
  function Enqueued(s: Setup, t: Thread, index: nat, q: Query, now: int, target: Target): Option<Thread> {
    if EnqueueStatus(s, t, index) != Ok then Some(t) else Updated(s, WithQuery(t, q), now, target)
  }

  /** Either timer fires. */
  function TimerFired(s: Setup, t: Thread, now: int, target: Target): Option<Thread> {
    if t.stopped || t.w.inputs == [] then Some(t) else Updated(s, t, now, target)
  }

  // The inputs leave as a plan.
  function WithPlan(s: Setup, t: Thread, cmd: Grant): Thread
    requires t.candidate.Candidate? && s.profile.Covers(|t.w.inputs|)
  {
    var finishAt := t.candidate.execAt + ExecElapse(s.profile, |t.w.inputs|);
    var plan := Plan(cmd.planId, cmd.gpu, t.w.inputs, t.candidate.execAt, finishAt);
    t.(w := t.w.(inputs := []), sent := t.sent + [plan])
  }

  datatype Granted = Granted(thread: Thread, freeAt: int)

  /**
   A granted GPU: the candidate is renewed, its inputs go out as one plan, and the candidate is
   renewed again; the answer is when the GPU is free. A GPU that is not free by the candidate's
   time ends the process.
   */
  function GpuGranted(s: Setup, t: Thread, cmd: Grant, now: int, target: Target, later: int, laterTarget: Target)
    : Option<Granted>
  {
    match Updated(s, t, now, target)
    case None => None
    case Some(t') =>
      if t'.candidate.Candidate? && t'.candidate.execAt < cmd.freeAt then None
      else if t'.w.inputs == [] then Some(Granted(t', now))
      else
        UpdatedReady(s, t, now, target);
        var out := WithPlan(s, t', cmd);
        match Updated(s, out, later, laterTarget)
        case None => None
        case Some(t'') => Some(Granted(t'', out.sent[|t'.sent|].finishAt))
  }

  datatype Event =
    | Arrive(index: nat, id: nat, recvNs: int, now: int, target: Target)
    | Timer(now: int, target: Target)
    | Grants(cmd: Grant, now: int, target: Target, later: int, laterTarget: Target)
    | StopThread

  /** One event; a thread that has been stopped no longer looks at grants. */
  function Handled(s: Setup, t: Thread, e: Event): Option<Thread> {
    match e
    case Arrive(index, id, recv, now, target) => Enqueued(s, t, index, Query(s.Deadline(recv), id), now, target)
    case Timer(now, target) => TimerFired(s, t, now, target)
    case Grants(cmd, now, target, later, laterTarget) => (
      if t.stopped then Some(t)
      else
        match GpuGranted(s, t, cmd, now, target, later, laterTarget)
        case None => None
        case Some(g) => Some(g.thread))
    case StopThread => Some(t.(stopped := true, dropTimer := None))
  }

  /** The thread after some events, or None if the process has ended. */
  function RunOf(s: Setup, events: seq<Event>): Option<Thread> {
    if events == [] then Some(IDLE)
    else
      match RunOf(s, events[..|events| - 1])
      case None => None
      case Some(t) => Handled(s, t, events[|events| - 1])
  }

  lemma TruncOfSum(x: real, y: real, z: real)
    ensures Trunc(x + y + z) <= Trunc(x) + Trunc(y) + Trunc(z) + 2
  {
  }

  /** The policy truncates three latencies separately; the plan truncates their sum: at most 2 ns more. */
  lemma ElapseSlack(p: Profile, n: nat)
    requires p.Covers(n)
    ensures ExecElapse(p, n) <= Nanos(p.Forward(n)) + ProcElapse(p) + 2
  {
    hide Trunc;
    TruncOfSum(p.pre.Total() * 1000.0, p.post.Total() * 1000.0, p.Forward(n) * 1000.0);
  }

  /** And 2 ns are reached. */
  lemma ElapseSlackReached()
    ensures var e := Entry(0.0019, 0.0);
      var p := Profile([e, e], e, e);
      ExecElapse(p, 1) == Nanos(p.Forward(1)) + ProcElapse(p) + 2
  {
  }

  // The policy lets a batch of n start at exec for a query with this deadline.
  ghost predicate PolicyAllows(p: Profile, n: nat, exec: int, deadline: int) {
    p.Covers(n) && Finish(p, exec, n) <= deadline
  }

  /**
   Every batch of n that the policy lets start finishes in time by the plan's own
   estimate exactly when truncating the sum gives no more than the separate
   truncations.
   */
  lemma NoSlackIff(p: Profile, n: nat)
    requires p.Covers(n)
    ensures (forall exec, deadline | PolicyAllows(p, n, exec, deadline) :: exec + ExecElapse(p, n) <= deadline)
      <==> ExecElapse(p, n) <= Nanos(p.Forward(n)) + ProcElapse(p)
  {
    assert PolicyAllows(p, n, 0, Finish(p, 0, n));
  }

  lemma ElapseMonotone(p: Profile, n: nat)
    requires p.Monotone() && p.Covers(n) && p.Covers(n + 1)
    ensures ExecElapse(p, n) <= ExecElapse(p, n + 1)
  {
    assert p.Forward(n) <= p.Forward(n + 1);
  }

  ghost function SentQueries(plans: seq<Plan>): multiset<Query> {
    if plans == [] then multiset{} else SentQueries(plans[..|plans| - 1]) + multiset(plans[|plans| - 1].queries)
  }

  // No member of the plan is more than 2 ns late by the plan's own estimate.
  ghost predicate PlanSafe(plan: Plan) {
    plan.queries != [] && forall q {:trigger q in plan.queries} | q in plan.queries :: plan.finishAt <= q.deadline + 2
  }

  ghost predicate AllSafe(plans: seq<Plan>) {
    forall i {:trigger plans[i]} | 0 <= i < |plans| :: PlanSafe(plans[i])
  }

  // The candidate promises that the current inputs can run at its time.
  ghost predicate CandidateFits(p: Profile, inputs: seq<Query>, c: Candidate) {
    if inputs == [] then c == NoCandidate else
      c.Candidate? && p.Covers(|inputs|) && c.execAt + ExecElapse(p, |inputs|) <= inputs[0].deadline + 2
  }

  /** Whether it runs at once or waits, the batch is at most 2 ns late. */
  lemma ExecAtInTime(p: Profile, w: Window, target: nat, earliest: int)
    requires p.Monotone() && w.inputs != [] && p.Covers(|w.inputs| + 1) && HeadFits(p, earliest, w)
    ensures ExecAt(p, w.inputs, target, earliest) + ExecElapse(p, |w.inputs|) <= w.inputs[0].deadline + 2
    ensures earliest <= ExecAt(p, w.inputs, target, earliest)
  {
    ElapseSlack(p, |w.inputs|);
    ElapseMonotone(p, |w.inputs|);
    hide ExecElapse;
  }

  /** Since the head has the earliest deadline, what holds for it holds for every member of the plan. */
  lemma InputsMakeSafePlan(p: Profile, c: Candidate, plan: Plan)
    requires Ascending(plan.queries) && plan.queries != [] && CandidateFits(p, plan.queries, c)
    requires plan.finishAt == c.execAt + ExecElapse(p, |plan.queries|)
    ensures PlanSafe(plan)
  {
    hide ExecElapse;
    forall q | q in plan.queries ensures plan.finishAt <= q.deadline + 2 {
      var k :| 0 <= k < |plan.queries| && plan.queries[k] == q;
      assert k > 0 ==> Before(plan.queries[0], plan.queries[k]);
    }
  }

  // Every accepted query is waiting, an input, dropped but not reported yet, reported, or sent: once.
  ghost predicate Accounted(accepted: seq<Query>, w: Window, reported: seq<Query>, sent: seq<Plan>) {
    multiset(accepted) == Pool(w) + multiset(reported) + SentQueries(sent)
  }

  /** Accepting a query loses nothing exactly if its key is not waiting already; ids are issued once, so it never is. */
  lemma AcceptKeepsIff(t: Thread, q: Query)
    requires Accounted(t.accepted, t.w, t.reported, t.sent) && Ascending(t.w.queries)
    ensures var t' := WithQuery(t, q);
      Accounted(t'.accepted, t'.w, t'.reported, t'.sent) <==> q !in t.w.queries
  {
    hide SentQueries;
    if q in t.w.queries {
      InsertTwice(t.w.queries, q);
      assert multiset(t.accepted + [q])[q] == multiset(t.accepted)[q] + 1;
    } else {
      InsertNew(t.w.queries, q);
    }
  }

  /** The policy loses nothing in moving a query to the inputs exactly if its key is not among them. */
  lemma MoveKeepsIff(w: Window)
    requires Ascending(w.queries) && Ascending(w.inputs) && w.queries != []
    ensures Pool(Moved(w)) == Pool(w) <==> w.queries[0] !in w.inputs
  {
    var q := w.queries[0];
    HeadTail(w.queries);
    if q in w.inputs {
      InsertTwice(w.inputs, q);
      assert Pool(w)[q] == Pool(Moved(w))[q] + 1;
    } else {
      InsertNew(w.inputs, q);
    }
  }

  /** What holds of the thread between events: nothing is lost, and no plan sent is late by more than 2 ns. */
  ghost predicate Balanced(s: Setup, t: Thread) {
    && Good(t.w) && t.w.drops == [] && CandidateFits(s.profile, t.w.inputs, t.candidate)
    && Accounted(t.accepted, t.w, t.reported, t.sent) && AllSafe(t.sent)
  }

  // The same before the candidate has been renewed.
  ghost predicate Sorted(t: Thread) {
    Good(t.w) && Accounted(t.accepted, t.w, t.reported, t.sent) && AllSafe(t.sent)
  }

  lemma CandidateIs(s: Setup, t: Thread, earliest: int)
    requires s.profile.Monotone() && HeadFits(s.profile, earliest, t.w) && WithCandidate(s, t, earliest).Some?
    ensures var t' := WithCandidate(s, t, earliest).value;
      && CandidateFits(s.profile, t'.w.inputs, t'.candidate)
      && (t'.candidate.Candidate? ==> earliest <= t'.candidate.execAt)
      && t' == t.(candidate := t'.candidate, dropTimer := t'.dropTimer, invalidateTimer := t'.invalidateTimer)
  {
    if t.w.inputs != [] {
      ExecAtInTime(s.profile, t.w, t.target, earliest);
    }
    hide ExecElapse, ExecAt, Profile.Monotone;
  }

  lemma ReportKeeps(t: Thread)
    requires Accounted(t.accepted, t.w, t.reported, t.sent)
    ensures var t' := WithReports(t); Accounted(t'.accepted, t'.w, t'.reported, t'.sent)
  {
    hide SentQueries;
  }

  /** An update leaves the candidate fitting and not before the earliest time, and every drop reported. */
  lemma UpdatedBalanced(s: Setup, t: Thread, now: int, target: Target)
    requires s.profile.Monotone() && Sorted(t)
    ensures Updated(s, t, now, target).Some? ==>
      var t' := Updated(s, t, now, target).value;
      && Balanced(s, t') && (t'.candidate.Candidate? ==> s.Earliest(now) <= t'.candidate.execAt)
      && t'.accepted == t.accepted && t'.sent == t.sent && t'.stopped == t.stopped && t'.lastExec == s.Earliest(now)
  {
    var earliest := s.Earliest(now);
    PolicySafe(s.profile, earliest, target, t.w);
    var r := Expanded(s.profile, earliest, target, t.w);
    hide Expanded, Settled, AllSafe, SentQueries, Profile.Monotone, HeadFits;
    if t.lastExec <= earliest && r.Done? {
      var t1 := t.(w := r.w, lastExec := earliest, target := target);
      hide Pool, Good, CandidateFits;
      var c := WithCandidate(s, t1, earliest);
      if c.Some? {
        CandidateIs(s, t1, earliest);
        hide WithCandidate;
        ReportKeeps(c.value);
        GoodReported(c.value.w);
      }
    }
  }

  lemma GoodReported(w: Window)
    requires Good(w)
    ensures Good(w.(drops := []))
  {
  }

  // A new key joins the waiting queries.
  lemma AcceptSorted(t: Thread, q: Query)
    requires Sorted(t) && q !in t.w.queries && q !in t.w.inputs
    ensures Sorted(WithQuery(t, q))
  {
    hide AllSafe, SentQueries;
    AcceptKeepsIff(t, q);
    hide Accounted;
    InsertAscending(t.w.queries, q);
    forall x ensures !(x in Insert(t.w.queries, q) && x in t.w.inputs) {
      InsertMembers(t.w.queries, q, x);
    }
  }

  /** The plan takes all the inputs with it, and is safe. */
  lemma PlanSorted(s: Setup, t: Thread, cmd: Grant)
    requires Balanced(s, t) && t.w.inputs != []
    ensures t.candidate.Candidate? && s.profile.Covers(|t.w.inputs|) && Sorted(WithPlan(s, t, cmd))
  {
    var t' := WithPlan(s, t, cmd);
    var plan := t'.sent[|t.sent|];
    InputsMakeSafePlan(s.profile, t.candidate, plan);
    hide ExecElapse, PlanSafe;
    assert t'.sent[..|t.sent|] == t.sent;
  }

  lemma BalancedSorted(s: Setup, t: Thread)
    requires Balanced(s, t)
    ensures Sorted(t)
  {
  }

  /** A grant sends at most one plan: the granted one, not before the GPU is free, with the answer its end. */
  lemma GrantBalanced(s: Setup, t: Thread, cmd: Grant, now: int, target: Target, later: int, laterTarget: Target)
    requires s.profile.Monotone() && Balanced(s, t)
    ensures GpuGranted(s, t, cmd, now, target, later, laterTarget).Some? ==>
      var g := GpuGranted(s, t, cmd, now, target, later, laterTarget).value;
      && Balanced(s, g.thread) && g.thread.accepted == t.accepted && g.thread.stopped == t.stopped
      && (g.thread.sent == t.sent || (|g.thread.sent| == |t.sent| + 1 && g.thread.sent[..|t.sent|] == t.sent))
      && (g.thread.sent != t.sent ==>
            var plan := g.thread.sent[|t.sent|];
            plan.id == cmd.planId && plan.gpu == cmd.gpu && plan.execAt >= cmd.freeAt && g.freeAt == plan.finishAt)
  {
    hide Updated, Profile.Monotone;
    BalancedSorted(s, t);
    UpdatedBalanced(s, t, now, target);
    var r := Updated(s, t, now, target);
    if r.Some? && r.value.w.inputs != [] {
      PlanSorted(s, r.value, cmd);
      hide Balanced, Sorted, ExecElapse;
      UpdatedBalanced(s, WithPlan(s, r.value, cmd), later, laterTarget);
    }
    hide Balanced, Sorted;
  }

  // The query of an arrival.
  function Arrived(s: Setup, e: Event): Query
    requires e.Arrive?
  {
    Query(s.Deadline(e.recvNs), e.id)
  }

  // What a thread accepts with an event.
  function AcceptedBy(s: Setup, e: Event, stopped: bool): seq<Query> {
    if e.Arrive? && e.index == s.modelIndex && !stopped then [Arrived(s, e)] else []
  }

  lemma StoppedBalanced(s: Setup, t: Thread)
    requires Balanced(s, t)
    ensures Balanced(s, t.(stopped := true, dropTimer := None))
  {
  }

  /** Between any two events the thread is balanced, provided no key that is still waiting comes again. */
  lemma HandledBalanced(s: Setup, t: Thread, e: Event)
    requires s.profile.Monotone() && Balanced(s, t)
    requires e.Arrive? ==> Arrived(s, e) !in t.w.queries && Arrived(s, e) !in t.w.inputs
    ensures Handled(s, t, e).Some? ==>
      var t' := Handled(s, t, e).value;
      && Balanced(s, t') && t'.accepted == t.accepted + AcceptedBy(s, e, t.stopped)
      && (t'.stopped <==> t.stopped || e.StopThread?)
  {
    hide Updated, GpuGranted, Profile.Monotone, Sorted, Balanced;
    BalancedSorted(s, t);
    StoppedBalanced(s, t);
    match e
    case Arrive(index, id, recv, now, target) =>
      AcceptSorted(t, Arrived(s, e));
      UpdatedBalanced(s, WithQuery(t, Arrived(s, e)), now, target);
    case Timer(now, target) => UpdatedBalanced(s, t, now, target);
    case Grants(cmd, now, target, later, laterTarget) =>
      GrantBalanced(s, t, cmd, now, target, later, laterTarget);
    case StopThread =>
  }
}
