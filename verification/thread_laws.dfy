/** What a model thread does at each event, said outright, and what follows for whole runs. */
module ThreadLaws {
  import opened Wrappers
  import opened ModelProfiles
  import opened QueryLists
  import opened BatchPolicy
  import opened PolicyLaws
  import opened ThreadStates
  import opened ThreadRuns

  // A batch of n started at t ends by the deadline.
  predicate Meets(p: Profile, n: nat, t: int, deadline: int) {
    p.Covers(n) && t + Nanos(p.pre.Total() + p.post.Total() + p.Forward(n)) <= deadline
  }

  // One of n started at t leaves no time before the deadline.
  predicate Exhausts(p: Profile, n: nat, t: int, deadline: int) {
    p.Covers(n) && t + Nanos(p.pre.Total() + p.post.Total() + p.Forward(n)) >= deadline
  }

  /**
   When the inputs start: at once if the target is reached; if not, at the first time at which
   one more query would use up all the time to the first deadline.
   */
  ghost predicate StartsAt(p: Profile, inputs: seq<Query>, target: nat, earliest: int, t: int) {
    && inputs != [] && p.Covers(|inputs| + 1)
    && if |inputs| >= target then t == earliest
       else
         && earliest <= t && Exhausts(p, |inputs| + 1, t, inputs[0].deadline)
         && forall u {:trigger Exhausts(p, |inputs| + 1, u, inputs[0].deadline)} ::
              earliest <= u && Exhausts(p, |inputs| + 1, u, inputs[0].deadline) ==> t <= u
  }

  // The candidate is invalid after the last time at which the inputs can start.
  ghost predicate LastStart(p: Profile, inputs: seq<Query>, t: int) {
    && inputs != []
    && forall u {:trigger Meets(p, |inputs|, u, inputs[0].deadline)} ::
         Meets(p, |inputs|, u, inputs[0].deadline) <==> u <= t
  }

  /**
   The candidate and the timers for some inputs. One timer fires at the first deadline, the other when a
   plan sent then would arrive at the last time at which the inputs can start.
   */
  ghost predicate Announced(s: Setup, inputs: seq<Query>, target: nat, earliest: int, t: Thread) {
    if inputs == [] then t.candidate == NoCandidate && t.dropTimer == None && t.invalidateTimer == None
    else
      && t.candidate.Candidate? && StartsAt(s.profile, inputs, target, earliest, t.candidate.execAt)
      && LastStart(s.profile, inputs, t.candidate.invalidAfter)
      && t.dropTimer == Some(inputs[0].deadline) && t.invalidateTimer.Some?
      && t.invalidateTimer.value + s.config.data + s.config.ctrl == t.candidate.invalidAfter
  }

  // The policy takes one window to another.
  ghost predicate Batched(p: Profile, exec: int, target: nat, w: Window, r: Window) {
    exists mid {:trigger Trimmed(p, exec, w, mid)} :: Trimmed(p, exec, w, mid) && Filled(p, exec, target, mid, r)
  }

  /** An update at the time now: the policy has run for the earliest start, its drops are reported. */
  ghost predicate Renewed(s: Setup, t: Thread, now: int, target: nat, t': Thread) {
    var earliest := now + s.config.data + s.config.ctrl;
    && t.lastExec <= earliest && t.reported <= t'.reported && t'.w.drops == []
    && Batched(s.profile, earliest, target, t.w, t'.w.(drops := t'.reported[|t.reported|..]))
    && Announced(s, t'.w.inputs, target, earliest, t')
    && t' == t.(w := t'.w, lastExec := earliest, target := target, candidate := t'.candidate,
         dropTimer := t'.dropTimer, invalidateTimer := t'.invalidateTimer, reported := t'.reported)
  }

  lemma StartsAtIff(p: Profile, inputs: seq<Query>, target: nat, earliest: int, t: int)
    requires inputs != [] && p.Covers(|inputs| + 1)
    ensures StartsAt(p, inputs, target, earliest, t) <==> t == ExecAt(p, inputs, target, earliest)
  {
    var r := ExecAt(p, inputs, target, earliest);
    if |inputs| < target {
      assert Exhausts(p, |inputs| + 1, r, inputs[0].deadline);
    }
  }

  lemma LastStartIff(p: Profile, inputs: seq<Query>, t: int)
    requires inputs != [] && p.Covers(|inputs|)
    ensures LastStart(p, inputs, t) <==> t == inputs[0].deadline - ExecElapse(p, |inputs|)
  {
    var r := inputs[0].deadline - ExecElapse(p, |inputs|);
    assert Meets(p, |inputs|, r, inputs[0].deadline) && !Meets(p, |inputs|, r + 1, inputs[0].deadline);
    if LastStart(p, inputs, t) {
      assert r <= t && !(r + 1 <= t);
    }
  }

  lemma AnnouncedIff(s: Setup, t: Thread, earliest: int, t': Thread)
    requires t.w.inputs != [] ==> s.profile.Covers(|t.w.inputs|)
    ensures WithCandidate(s, t, earliest) == Some(t') <==>
      && Announced(s, t.w.inputs, t.target, earliest, t')
      && t' == t.(candidate := t'.candidate, dropTimer := t'.dropTimer, invalidateTimer := t'.invalidateTimer)
  {
    var p, inputs := s.profile, t.w.inputs;
    if inputs != [] && p.Covers(|inputs| + 1) && t'.candidate.Candidate? {
      StartsAtIff(p, inputs, t.target, earliest, t'.candidate.execAt);
      LastStartIff(p, inputs, t'.candidate.invalidAfter);
      hide StartsAt, LastStart, ExecAt, ExecElapse;
    }
  }

  lemma BatchedIff(p: Profile, exec: int, target: Target, w: Window, r: Window)
    requires Good(w)
    ensures Expanded(p, exec, target, w) == Done(r) <==> Batched(p, exec, target, w, r)
    ensures Batched(p, exec, target, w, r) && r.inputs != [] ==> p.Covers(|r.inputs|)
  {
    PolicyIff(p, exec, target, w, r);
    PolicySafe(p, exec, target, w);
    hide Trimmed, Filled, Expanded;
  }

  lemma UpdatedRenews(s: Setup, t: Thread, now: int, target: Target)
    requires Good(t.w) && t.w.drops == [] && Updated(s, t, now, target).Some?
    ensures Renewed(s, t, now, target, Updated(s, t, now, target).value)
  {
    hide Expanded, Batched, Announced, WithCandidate, Good;
    var earliest := s.Earliest(now);
    var r := Expanded(s.profile, earliest, target, t.w).w;
    BatchedIff(s.profile, earliest, target, t.w, r);
    var t1 := t.(w := r, lastExec := earliest, target := target);
    var t2 := WithCandidate(s, t1, earliest).value;
    AnnouncedIff(s, t1, earliest, t2);
    var t' := WithReports(t2);
    AnnouncedSame(s, r.inputs, target, earliest, t2, t');
    assert t'.reported[|t.reported|..] == r.drops;
    assert t'.w.(drops := r.drops) == r;
  }

  lemma RenewedUpdates(s: Setup, t: Thread, now: int, target: Target, t': Thread)
    requires Good(t.w) && t.w.drops == [] && Renewed(s, t, now, target, t')
    ensures Updated(s, t, now, target) == Some(t')
  {
    hide Expanded, Batched, Announced, WithCandidate, Good;
    var earliest := s.Earliest(now);
    var r := t'.w.(drops := t'.reported[|t.reported|..]);
    BatchedIff(s.profile, earliest, target, t.w, r);
    var t1 := t.(w := r, lastExec := earliest, target := target);
    var t2 := t'.(w := r, reported := t.reported);
    AnnouncedSame(s, r.inputs, target, earliest, t2, t');
    AnnouncedIff(s, t1, earliest, t2);
    assert t.reported + r.drops == t'.reported;
  }

  /** An update ends in t' if and only if that is the renewed thread. */
  lemma UpdatedIff(s: Setup, t: Thread, now: int, target: Target, t': Thread)
    requires Good(t.w) && t.w.drops == []
    ensures Updated(s, t, now, target) == Some(t') <==> Renewed(s, t, now, target, t')
  {
    hide Updated, Renewed;
    if Updated(s, t, now, target).Some? {
      UpdatedRenews(s, t, now, target);
    }
    if Renewed(s, t, now, target, t') {
      RenewedUpdates(s, t, now, target, t');
    }
  }

  lemma AnnouncedSame(s: Setup, inputs: seq<Query>, target: nat, earliest: int, t: Thread, t': Thread)
    requires t.candidate == t'.candidate && t.dropTimer == t'.dropTimer && t.invalidateTimer == t'.invalidateTimer
    ensures Announced(s, inputs, target, earliest, t) <==> Announced(s, inputs, target, earliest, t')
  {
  }

  // The query of an arrival: it must leave the backend early enough for the answer to be in time.
  ghost predicate Asks(s: Setup, e: Event, q: Query) {
    && e.Arrive? && q.id == e.id
    && q.deadline + s.config.resp + BACKEND_EXECUTION_DELAY_NS == e.recvNs + s.slaMs * NS_PER_MS
  }

  // A new query has its place among those waiting.
  ghost predicate Admits(t: Thread, q: Query, t': Thread) {
    && t' == t.(w := t.w.(queries := t'.w.queries), accepted := t.accepted + [q])
    && Ascending(t'.w.queries) && multiset(t'.w.queries) == multiset(t.w.queries) + multiset{q}
  }

  // The inputs have left as the granted plan.
  ghost predicate Leaves(s: Setup, t: Thread, cmd: Grant, plan: Plan, t': Thread) {
    && t.candidate.Candidate? && s.profile.Covers(|t.w.inputs|)
    && plan.id == cmd.planId && plan.gpu == cmd.gpu && plan.queries == t.w.inputs && plan.execAt == t.candidate.execAt
    && plan.finishAt == plan.execAt +
         Nanos(s.profile.pre.Total() + s.profile.post.Total() + s.profile.Forward(|plan.queries|))
    && t' == t.(w := t.w.(inputs := []), sent := t.sent + [plan])
  }

  /**
   A grant: renewed first, the thread gives up its inputs as a plan for the GPU, if it has any, and is
   renewed again. The GPU is free when the plan is done, or now.
   */
  ghost predicate Grants(s: Setup, t: Thread, e: Event, mid: Thread, g: Granted) {
    && e.Grants? && Renewed(s, t, e.now, e.target, mid)
    && (mid.candidate.Candidate? ==> e.cmd.freeAt <= mid.candidate.execAt)
    && if mid.w.inputs == [] then g == Granted(mid, e.now)
       else
         exists plan, out {:trigger Leaves(s, mid, e.cmd, plan, out)} ::
           Leaves(s, mid, e.cmd, plan, out) && Renewed(s, out, e.later, e.laterTarget, g.thread) &&
           g.freeAt == plan.finishAt
  }

  // An arrival for this model.
  ghost predicate Arrives(s: Setup, t: Thread, e: Event, q: Query, t': Thread) {
    && Asks(s, e, q)
    && exists mid {:trigger Admits(t, q, mid)} :: Admits(t, q, mid) && Renewed(s, mid, e.now, e.target, t')
  }

  /** What an event does. */
  ghost predicate Follows(s: Setup, t: Thread, e: Event, t': Thread) {
    match e
    case Arrive(index, _, _, _, _) =>
      if t.stopped || index != s.modelIndex then t' == t
      else exists q {:trigger Arrives(s, t, e, q, t')} :: Arrives(s, t, e, q, t')
    case Timer(now, target) =>
      if t.stopped || t.w.inputs == [] then t' == t else Renewed(s, t, now, target, t')
    case Grants(_, _, _, _, _) =>
      if t.stopped then t' == t
      else exists mid, g {:trigger Grants(s, t, e, mid, g)} :: Grants(s, t, e, mid, g) && g.thread == t'
    case StopThread => t' == t.(stopped := true, dropTimer := None)
  }

  lemma AdmitsIff(t: Thread, q: Query, t': Thread)
    requires Ascending(t.w.queries) && q !in t.w.queries
    ensures Admits(t, q, t') <==> t' == WithQuery(t, q)
  {
    InsertAscending(t.w.queries, q);
    InsertNew(t.w.queries, q);
    if Admits(t, q, t') {
      AscendingUnique(t'.w.queries, Insert(t.w.queries, q));
    }
    hide Ascending, Insert;
  }

  lemma ArriveIff(s: Setup, t: Thread, e: Event, t': Thread)
    requires Good(t.w) && t.w.drops == [] && e.Arrive? && !t.stopped && e.index == s.modelIndex
    requires Arrived(s, e) !in t.w.queries && Arrived(s, e) !in t.w.inputs
    ensures Handled(s, t, e) == Some(t') <==> Follows(s, t, e, t')
  {
    var q := Arrived(s, e);
    var t1 := WithQuery(t, q);
    AdmitsIff(t, q, t1);
    GoodAdmitted(t, q);
    UpdatedIff(s, t1, e.now, e.target, t');
    hide Updated, Renewed, Good, WithQuery;
    assert Asks(s, e, q);
    if Handled(s, t, e) == Some(t') {
      assert Arrives(s, t, e, q, t');
    }
    if Follows(s, t, e, t') {
      var r :| Arrives(s, t, e, r, t');
      assert r == q;
      var mid :| Admits(t, q, mid) && Renewed(s, mid, e.now, e.target, t');
      GoodAscends(t.w);
      AdmitsIff(t, q, mid);
    }
  }

  lemma GoodAscends(w: Window)
    requires Good(w)
    ensures Ascending(w.queries)
  {
  }

  lemma GoodAdmitted(t: Thread, q: Query)
    requires Good(t.w) && q !in t.w.queries && q !in t.w.inputs
    ensures Good(WithQuery(t, q).w)
  {
    InsertAscending(t.w.queries, q);
    forall x ensures !(x in Insert(t.w.queries, q) && x in t.w.inputs) {
      InsertMembers(t.w.queries, q, x);
    }
  }

  lemma UpdatedGood(s: Setup, t: Thread, now: int, target: Target)
    requires Good(t.w) && Updated(s, t, now, target).Some?
    ensures var t' := Updated(s, t, now, target).value;
      Good(t'.w) && t'.w.drops == [] && t'.sent == t.sent && t'.stopped == t.stopped
  {
    PolicySafe(s.profile, s.Earliest(now), target, t.w);
    hide Expanded, Pool, Settled, ExecAt, ExecElapse;
  }

  lemma LeavesIff(s: Setup, t: Thread, cmd: Grant, plan: Plan, t': Thread)
    requires t.candidate.Candidate? && s.profile.Covers(|t.w.inputs|)
    ensures Leaves(s, t, cmd, plan, t') <==> t' == WithPlan(s, t, cmd) && plan == WithPlan(s, t, cmd).sent[|t.sent|]
  {
  }

  lemma GrantIff(s: Setup, t: Thread, e: Event, g: Granted)
    requires Good(t.w) && t.w.drops == [] && e.Grants?
    ensures GpuGranted(s, t, e.cmd, e.now, e.target, e.later, e.laterTarget) == Some(g) <==>
      exists mid {:trigger Grants(s, t, e, mid, g)} :: Grants(s, t, e, mid, g)
  {
    var r := Updated(s, t, e.now, e.target);
    if r.None? {
      forall mid ensures !Grants(s, t, e, mid, g) {
        UpdatedIff(s, t, e.now, e.target, mid);
      }
    } else {
      forall mid ensures Renewed(s, t, e.now, e.target, mid) <==> mid == r.value {
        UpdatedIff(s, t, e.now, e.target, mid);
      }
      UpdatedGood(s, t, e.now, e.target);
      UpdatedReady(s, t, e.now, e.target);
      hide Updated, Renewed, Good;
      GrantedIff(s, t, e, r.value, g);
      if Grants(s, t, e, r.value, g) {
        assert exists mid {:trigger Grants(s, t, e, mid, g)} :: Grants(s, t, e, mid, g);
      }
    }
  }

  lemma GrantedIff(s: Setup, t: Thread, e: Event, mid: Thread, g: Granted)
    requires e.Grants? && Updated(s, t, e.now, e.target) == Some(mid) && Renewed(s, t, e.now, e.target, mid)
    requires Good(mid.w) && mid.w.drops == []
    requires mid.w.inputs != [] ==> mid.candidate.Candidate? && s.profile.Covers(|mid.w.inputs|)
    ensures GpuGranted(s, t, e.cmd, e.now, e.target, e.later, e.laterTarget) == Some(g) <==> Grants(s, t, e, mid, g)
  {
    hide Updated, Renewed;
    if mid.w.inputs != [] && !(mid.candidate.execAt < e.cmd.freeAt) {
      var out := WithPlan(s, mid, e.cmd);
      var plan := out.sent[|mid.sent|];
      assert Good(out.w);
      UpdatedIff(s, out, e.later, e.laterTarget, g.thread);
      hide Good, WithPlan, Leaves;
      forall p, o ensures Leaves(s, mid, e.cmd, p, o) <==> o == out && p == plan {
        LeavesIff(s, mid, e.cmd, p, o);
      }
      assert Leaves(s, mid, e.cmd, plan, out);
      assert GpuGranted(s, t, e.cmd, e.now, e.target, e.later, e.laterTarget) == Some(g) <==>
        Renewed(s, out, e.later, e.laterTarget, g.thread) && g.freeAt == plan.finishAt;
    }
  }

  /**
   Every event does what it should: the thread goes on as t' if and only if that follows, and the
   process ends if and only if nothing does.
   */
  lemma HandledIff(s: Setup, t: Thread, e: Event, t': Thread)
    requires Good(t.w) && t.w.drops == []
    requires e.Arrive? ==> Arrived(s, e) !in t.w.queries && Arrived(s, e) !in t.w.inputs
    ensures Handled(s, t, e) == Some(t') <==> Follows(s, t, e, t')
  {
    match e
    case Arrive(index, _, _, _, _) =>
      hide Updated;
      if !t.stopped && index == s.modelIndex {
        ArriveIff(s, t, e, t');
      }
    case Timer(now, target) =>
      hide Updated, Renewed;
      UpdatedIff(s, t, now, target, t');
    case Grants(cmd, now, target, later, laterTarget) =>
      hide GpuGranted, Grants;
      var r := GpuGranted(s, t, cmd, now, target, later, laterTarget);
      if r.Some? {
        GrantIff(s, t, e, r.value);
      }
      forall mid, g | Grants(s, t, e, mid, g) ensures r == Some(g) {
        GrantIff(s, t, e, g);
      }
    case StopThread =>
  }

  // The times at which an event updates the candidate.
  predicate UpdatesAt(e: Event, now: int) {
    match e
    case Arrive(_, _, _, at, _) => now == at
    case Timer(at, _) => now == at
    case Grants(_, at, _, later, _) => now == at || now == later
    case StopThread => false
  }

  // At some update of the event q was too late for a batch of at most m.
  ghost predicate LateIn(s: Setup, e: Event, m: nat, q: Query) {
    exists now, n: nat {:trigger LateAt(s, now, n, q)} :: UpdatesAt(e, now) && n <= m && LateAt(s, now, n, q)
  }

  // Too late for a batch of n that is announced at now.
  predicate LateAt(s: Setup, now: int, n: nat, q: Query) {
    TooLate(s.profile, now + s.config.data + s.config.ctrl, n, q)
  }

  ghost predicate ReportsLate(s: Setup, e: Event, m: nat, before: seq<Query>, after: seq<Query>) {
    before <= after && forall i {:trigger after[i]} | |before| <= i < |after| :: LateIn(s, e, m, after[i])
  }

  lemma UpdatedReportsLate(s: Setup, t: Thread, now: int, target: Target, e: Event, m: nat)
    requires Good(t.w) && t.w.drops == [] && Updated(s, t, now, target).Some? && UpdatesAt(e, now)
    requires |t.w.inputs| + |t.w.queries| <= m
    ensures ReportsLate(s, e, m, t.reported, Updated(s, t, now, target).value.reported)
  {
    var earliest := s.Earliest(now);
    var r, t' := Expanded(s.profile, earliest, target, t.w).w, Updated(s, t, now, target).value;
    hide Expanded, Good, WithCandidate, TooLate, UpdatesAt;
    forall i | |t.reported| <= i < |t'.reported| ensures LateIn(s, e, m, t'.reported[i]) {
      PolicyDropsLate(s.profile, earliest, target, t.w, i - |t.reported|);
      WithCandidateKeeps(s, t.(w := r, lastExec := earliest, target := target), earliest);
      assert t'.reported[i] == r.drops[i - |t.reported|];
      var n: nat :| n <= m && TooLate(s.profile, earliest, n, t'.reported[i]);
      assert LateAt(s, now, n, t'.reported[i]);
    }
    WithCandidateKeeps(s, t.(w := r, lastExec := earliest, target := target), earliest);
  }

  lemma WithCandidateKeeps(s: Setup, t: Thread, earliest: int)
    requires WithCandidate(s, t, earliest).Some?
    ensures var t' := WithCandidate(s, t, earliest).value; t'.w == t.w && t'.reported == t.reported
  {
    hide ExecAt, ExecElapse;
  }

  lemma ReportsTrans(s: Setup, e: Event, m: nat, a: seq<Query>, b: seq<Query>, c: seq<Query>)
    requires ReportsLate(s, e, m, a, b) && ReportsLate(s, e, m, b, c)
    ensures ReportsLate(s, e, m, a, c)
  {
    hide LateIn;
  }

  // Those that wait have been accepted.
  lemma WaitingCount(s: Setup, t: Thread)
    requires Sorted(t)
    ensures |t.w.inputs| + |t.w.queries| <= |t.accepted|
  {
    PoolSize(t.w);
    hide AllSafe, Good, Pool, SentQueries;
    assert |multiset(t.accepted)| == |t.accepted|;
    assert |Pool(t.w) + multiset(t.reported) + SentQueries(t.sent)| >= |Pool(t.w)|;
  }

  lemma SortedGood(t: Thread)
    requires Sorted(t)
    ensures Good(t.w)
  {
  }

  lemma BalancedGood(s: Setup, t: Thread)
    requires Balanced(s, t)
    ensures Good(t.w) && t.w.drops == []
  {
  }

  lemma HandledReportsLate(s: Setup, t: Thread, e: Event)
    requires s.profile.Monotone() && Balanced(s, t) && Handled(s, t, e).Some?
    requires e.Arrive? ==> Arrived(s, e) !in t.w.queries && Arrived(s, e) !in t.w.inputs
    ensures var t' := Handled(s, t, e).value; ReportsLate(s, e, |t'.accepted|, t.reported, t'.reported)
  {
    hide Updated, Balanced, Sorted, ReportsLate, Good;
    HandledBalanced(s, t, e);
    BalancedSorted(s, t);
    BalancedGood(s, t);
    WaitingCount(s, t);
    NoReports(s, e, |t.accepted|, t.reported);
    match e
    case Arrive(index, _, _, now, target) =>
      var t1 := WithQuery(t, Arrived(s, e));
      AcceptSorted(t, Arrived(s, e));
      SortedGood(t1);
      WaitingCount(s, t1);
      if !t.stopped && index == s.modelIndex {
        UpdatedBalanced(s, t1, now, target);
        UpdatedReportsLate(s, t1, now, target, e, |t1.accepted|);
      }
    case Timer(now, target) =>
      if !t.stopped && t.w.inputs != [] {
        UpdatedReportsLate(s, t, now, target, e, |t.accepted|);
      }
    case Grants(_, _, _, _, _) =>
      if !t.stopped {
        GrantReportsLate(s, t, e);
      }
    case StopThread =>
  }

  lemma NoReports(s: Setup, e: Event, m: nat, reported: seq<Query>)
    ensures ReportsLate(s, e, m, reported, reported)
  {
  }

  lemma GrantReportsLate(s: Setup, t: Thread, e: Event)
    requires s.profile.Monotone() && Balanced(s, t) && e.Grants?
    requires GpuGranted(s, t, e.cmd, e.now, e.target, e.later, e.laterTarget).Some?
    ensures var g := GpuGranted(s, t, e.cmd, e.now, e.target, e.later, e.laterTarget).value;
      ReportsLate(s, e, |t.accepted|, t.reported, g.thread.reported)
  {
    hide Updated, Balanced, Sorted, ReportsLate, Good;
    BalancedSorted(s, t);
    BalancedGood(s, t);
    WaitingCount(s, t);
    UpdatedReportsLate(s, t, e.now, e.target, e, |t.accepted|);
    UpdatedBalanced(s, t, e.now, e.target);
    var mid := Updated(s, t, e.now, e.target).value;
    if mid.w.inputs != [] {
      PlanSorted(s, mid, e.cmd);
      var out := WithPlan(s, mid, e.cmd);
      BalancedGood(s, mid);
      SortedGood(out);
      WaitingCount(s, out);
      hide ExecElapse;
      UpdatedReportsLate(s, out, e.later, e.laterTarget, e, |t.accepted|);
      ReportsTrans(s, e, |t.accepted|, t.reported, mid.reported,
        Updated(s, out, e.later, e.laterTarget).value.reported);
    }
  }

  // Where a new query is.
  lemma NewIn(before: seq<Query>, after: seq<Query>, q: Query) returns (i: nat)
    requires before <= after && q in after && q !in before
    ensures |before| <= i < |after| && after[i] == q
  {
    assert after == before + after[|before|..];
    i :| |before| <= i < |after| && after[i] == q;
  }

  // In the run up to event k, q was reported because it was late then.
  ghost predicate ReportedAt(s: Setup, events: seq<Event>, k: nat, q: Query)
    requires k < |events|
  {
    LateIn(s, events[k], |AcceptedOf(s, events[..k + 1])|, q)
  }

  /**
   Every run: each query reported as dropped was too late, at some update, for a batch of no more
   than had come in by then.
   */
  lemma {:induction false} RunReportsLate(s: Setup, events: seq<Event>, q: Query)
    requires s.profile.Monotone() && DistinctIds(events) && RunOf(s, events).Some?
    requires q in RunOf(s, events).value.reported
    ensures exists k {:trigger ReportedAt(s, events, k, q)} :: 0 <= k < |events| && ReportedAt(s, events, k, q)
  {
    hide Profile.Monotone, DistinctIds, Handled, Balanced, LateIn, AllSafe;
    var n := |events| - 1;
    var before := events[..n];
    var t, t' := RunOf(s, before).value, RunOf(s, events).value;
    FirstDistinct(events);
    RunBalanced(s, before);
    RunBalanced(s, events);
    if q in t.reported {
      RunReportsLate(s, before, q);
      var k :| 0 <= k < n && ReportedAt(s, before, k, q);
      assert before[..k + 1] == events[..k + 1] && before[k] == events[k];
      assert ReportedAt(s, events, k, q);
    } else {
      if events[n].Arrive? {
        ArrivalIsNew(s, events);
        WaitingIsAccepted(s, t, Arrived(s, events[n]));
      }
      HandledReportsLate(s, t, events[n]);
      var i := NewIn(t.reported, t'.reported, q);
      assert events[..n + 1] == events;
      assert ReportedAt(s, events, n, q);
    }
  }

  // The plan is the one that event e granted, and starts and ends when it should.
  ghost predicate GrantedBy(s: Setup, e: Event, plan: Plan) {
    && e.Grants? && plan.id == e.cmd.planId && plan.gpu == e.cmd.gpu && e.cmd.freeAt <= plan.execAt
    && StartsAt(s.profile, plan.queries, e.target, e.now + s.config.data + s.config.ctrl, plan.execAt)
    && s.profile.Covers(|plan.queries|)
    && plan.finishAt == plan.execAt +
         Nanos(s.profile.pre.Total() + s.profile.post.Total() + s.profile.Forward(|plan.queries|))
  }

  lemma HandledSends(s: Setup, t: Thread, e: Event)
    requires Good(t.w) && t.w.drops == [] && Handled(s, t, e).Some?
    requires e.Arrive? ==> Arrived(s, e) !in t.w.queries && Arrived(s, e) !in t.w.inputs
    ensures var t' := Handled(s, t, e).value;
      || t'.sent == t.sent
      || (|t'.sent| == |t.sent| + 1 && t'.sent[..|t.sent|] == t.sent && GrantedBy(s, e, t'.sent[|t.sent|]))
  {
    hide Handled, Good, StartsAt, LastStart, Batched, Admits;
    var t' := Handled(s, t, e).value;
    HandledIff(s, t, e, t');
    if e.Arrive? && !t.stopped && e.index == s.modelIndex {
      var q :| Arrives(s, t, e, q, t');
      AdmitsSame(s, t, e, q, t');
    }
    if e.Grants? && !t.stopped {
      var mid, g :| Grants(s, t, e, mid, g) && g.thread == t';
      if mid.w.inputs != [] {
        var plan, out :| Leaves(s, mid, e.cmd, plan, out) && Renewed(s, out, e.later, e.laterTarget, t');
      }
    }
  }

  lemma AdmitsSame(s: Setup, t: Thread, e: Event, q: Query, t': Thread)
    requires Arrives(s, t, e, q, t')
    ensures t'.sent == t.sent
  {
    hide Batched, Announced;
  }

  ghost predicate SentAt(s: Setup, events: seq<Event>, k: nat, plan: Plan)
    requires k < |events|
  {
    GrantedBy(s, events[k], plan)
  }

  /**
   Every run: each plan sent was granted by some event. It starts at the earliest time a plan sent then
   can if the target is reached, and otherwise when one more query would use up the time to the
   first deadline; and never before its GPU is free.
   */
  lemma {:induction false} RunPlansGranted(s: Setup, events: seq<Event>, i: nat)
    requires s.profile.Monotone() && DistinctIds(events) && RunOf(s, events).Some?
    requires i < |RunOf(s, events).value.sent|
    ensures exists k {:trigger SentAt(s, events, k, RunOf(s, events).value.sent[i])} ::
      0 <= k < |events| && SentAt(s, events, k, RunOf(s, events).value.sent[i])
  {
    hide Profile.Monotone, DistinctIds, Handled, Balanced, GrantedBy, AllSafe, Good;
    var n := |events| - 1;
    var before := events[..n];
    var t, t' := RunOf(s, before).value, RunOf(s, events).value;
    FirstDistinct(events);
    RunBalanced(s, before);
    BalancedGood(s, t);
    if events[n].Arrive? {
      ArrivalIsNew(s, events);
      WaitingIsAccepted(s, t, Arrived(s, events[n]));
    }
    HandledSends(s, t, events[n]);
    if i < |t.sent| {
      assert t'.sent[i] == t.sent[i];
      RunPlansGranted(s, before, i);
      var k :| 0 <= k < n && SentAt(s, before, k, t.sent[i]);
      assert SentAt(s, events, k, t'.sent[i]);
    } else {
      assert SentAt(s, events, n, t'.sent[i]);
    }
  }

  // The answer to the arrival at event k, if its plan is done at finishAt, is in time but for 2 ns.
  ghost predicate AnsweredInTime(s: Setup, e: Event, q: Query, finishAt: int) {
    && Asks(s, e, q) && e.index == s.modelIndex
    && finishAt + BACKEND_EXECUTION_DELAY_NS + s.config.resp <= e.recvNs + s.slaMs * NS_PER_MS + 2
  }

  lemma {:induction false} SentIsAccepted(plans: seq<Plan>, i: nat, q: Query)
    requires i < |plans| && q in plans[i].queries
    ensures q in SentQueries(plans)
  {
    var n := |plans| - 1;
    if i < n {
      SentIsAccepted(plans[..n], i, q);
    }
  }

  lemma {:induction false} AcceptedAsks(s: Setup, events: seq<Event>, q: Query)
    requires q in AcceptedOf(s, events)
    ensures exists k {:trigger events[k]} ::
      0 <= k < |events| && Asks(s, events[k], q) && events[k].index == s.modelIndex
  {
    var n := |events| - 1;
    if q in AcceptedOf(s, events[..n]) {
      AcceptedAsks(s, events[..n], q);
      var k :| 0 <= k < n && Asks(s, events[..n][k], q) && events[..n][k].index == s.modelIndex;
      assert events[k] == events[..n][k];
    } else {
      assert Asks(s, events[n], q);
    }
  }

  /** End to end: every query that is sent came in with some event, and its answer is at most 2 ns late. */
  lemma RunMeetsObjective(s: Setup, events: seq<Event>, i: nat, q: Query)
    requires s.profile.Monotone() && DistinctIds(events) && RunOf(s, events).Some?
    requires i < |RunOf(s, events).value.sent| && q in RunOf(s, events).value.sent[i].queries
    ensures exists k {:trigger events[k]} ::
      0 <= k < |events| && AnsweredInTime(s, events[k], q, RunOf(s, events).value.sent[i].finishAt)
  {
    var t := RunOf(s, events).value;
    RunBalanced(s, events);
    assert PlanSafe(t.sent[i]);
    SentIsAccepted(t.sent, i, q);
    hide RunOf, AcceptedOf, SentQueries, Pool, Good, CandidateFits, AllSafe;
    assert q in multiset(t.accepted);
    AcceptedAsks(s, events, q);
  }
}
