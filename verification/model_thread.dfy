/** The model thread itself. */
module ModelThreads {
  import opened Wrappers
  import opened ModelProfiles
  import opened QueryLists
  import opened BatchPolicy
  import opened ThreadStates

  class ModelThread {
    const setup: Setup
    const policy: IncrementalBatchPolicy
    var candidate: Candidate
    var target: nat
    var stopped: bool
    // When the two timers that revisit the candidate are due.
    var dropTimer: Option<int>
    var invalidateTimer: Option<int>
    // What has been sent out.
    var reported: seq<Query>
    var sent: seq<Plan>
    ghost var accepted: seq<Query>

    ghost predicate Valid()
      reads this
    {
      policy.profile == setup.profile
    }

    ghost function Value(): Thread
      reads this, policy
    {
      Thread(policy.Value(), policy.lastExecTime, candidate, target, stopped, dropTimer, invalidateTimer,
        accepted, reported, sent)
    }

    constructor (s: Setup)
      ensures Valid() && fresh(policy) && setup == s && Value() == IDLE
    {
      setup := s;
      policy := new IncrementalBatchPolicy(s.profile);
      candidate, target, stopped := NoCandidate, 0, false;
      dropTimer, invalidateTimer := None, None;
      reported, sent, accepted := [], [], [];
    }

    // The candidate and the timers for the current inputs. False: the process ends.
    method SetCandidate(earliest: int) returns (ok: bool)
      requires Valid()
      modifies this`candidate, this`dropTimer, this`invalidateTimer
      ensures WithCandidate(setup, old(Value()), earliest) == if ok then Some(Value()) else None
    {
      if policy.inputs == [] {
        candidate, dropTimer, invalidateTimer := NoCandidate, None, None;
        return true;
      }
      var n := |policy.inputs|;
      if !setup.profile.Covers(n + 1) {
        return false;
      }
      hide ExecElapse, ExecAt;
      var deadline := policy.inputs[0].deadline;
      var invalidAfter := deadline - ExecElapse(setup.profile, n);
      candidate := Candidate(ExecAt(setup.profile, policy.inputs, target, earliest), invalidAfter);
      dropTimer := Some(deadline);
      invalidateTimer := Some(invalidAfter - setup.config.data - setup.config.ctrl);
      return true;
    }

    method SendDroppedQueries()
      modifies this`reported, policy`drops
      ensures Value() == WithReports(old(Value()))
    {
      var drops := policy.PopDrops();
      reported := reported + drops;
    }

    method UpdateCandidate(now: int, newTarget: Target) returns (ok: bool)
      requires Valid()
      modifies this`candidate, this`target, this`dropTimer, this`invalidateTimer, this`reported, policy
      ensures Valid() && Updated(setup, old(Value()), now, newTarget) == if ok then Some(Value()) else None
    {
      hide Expanded, WithCandidate;
      var earliest := setup.Earliest(now);
      target := newTarget;
      ok := policy.Update(earliest, newTarget);
      if ok {
        ok := SetCandidate(earliest);
        if ok {
          SendDroppedQueries();
        }
      }
    }

    method EnqueueQuery(index: nat, id: nat, recvNs: int, now: int, newTarget: Target)
      returns (ok: bool, status: Status)
      requires Valid()
      modifies this, policy
      ensures Valid() && status == EnqueueStatus(setup, old(Value()), index)
      ensures Enqueued(setup, old(Value()), index, Query(setup.Deadline(recvNs), id), now, newTarget) ==
        if ok then Some(Value()) else None
    {
      hide Updated;
      if stopped {
        return true, ServiceUnavailable;
      }
      if index != setup.modelIndex {
        return true, ModelSessionNotLoaded;
      }
      var q := Query(setup.Deadline(recvNs), id);
      policy.queries := Insert(policy.queries, q);
      accepted := accepted + [q];
      ok := UpdateCandidate(now, newTarget);
      status := Ok;
    }

    method OnDropTimer(now: int, newTarget: Target) returns (ok: bool)
      requires Valid()
      modifies this, policy
      ensures Valid() && TimerFired(setup, old(Value()), now, newTarget) == if ok then Some(Value()) else None
    {
      hide Updated;
      if stopped || policy.inputs == [] {
        return true;
      }
      ok := UpdateCandidate(now, newTarget);
    }

    // The inputs leave as a plan.
    method SendPlan(cmd: Grant) returns (finishAt: int)
      requires Valid() && candidate.Candidate? && setup.profile.Covers(|policy.inputs|)
      modifies this`sent, policy`inputs
      ensures Valid() && Value() == WithPlan(setup, old(Value()), cmd)
      ensures |sent| == |old(sent)| + 1 && sent[|old(sent)|].finishAt == finishAt
    {
      hide ExecElapse;
      var inputs := policy.PopInputs();
      finishAt := candidate.execAt + ExecElapse(setup.profile, |inputs|);
      sent := sent + [Plan(cmd.planId, cmd.gpu, inputs, candidate.execAt, finishAt)];
    }

    method DoGrantedGpu(cmd: Grant, now: int, newTarget: Target, later: int, laterTarget: Target)
      returns (ok: bool, freeAt: int)
      requires Valid()
      modifies this, policy
      ensures Valid()
      ensures GpuGranted(setup, old(Value()), cmd, now, newTarget, later, laterTarget) ==
        if ok then Some(Granted(Value(), freeAt)) else None
    {
      hide Updated, WithPlan;
      freeAt := now;
      UpdatedReady(setup, Value(), now, newTarget);
      ok := UpdateCandidate(now, newTarget);
      if !ok {
        return;
      }
      if candidate.Candidate? && candidate.execAt < cmd.freeAt {
        return false, freeAt;
      }
      if policy.inputs == [] {
        return;
      }
      freeAt := SendPlan(cmd);
      ok := UpdateCandidate(later, laterTarget);
    }

    method Stop()
      requires Valid()
      modifies this`stopped, this`dropTimer
      ensures Valid() && Value() == old(Value()).(stopped := true, dropTimer := None)
    {
      stopped, dropTimer := true, None;
    }

    method Handle(e: Event) returns (ok: bool)
      requires Valid()
      modifies this, policy
      ensures Valid() && Handled(setup, old(Value()), e) == if ok then Some(Value()) else None
    {
      hide Enqueued, TimerFired, GpuGranted;
      ok := true;
      match e
      case Arrive(index, id, recv, now, newTarget) =>
        var status;
        ok, status := EnqueueQuery(index, id, recv, now, newTarget);
      case Timer(now, newTarget) => ok := OnDropTimer(now, newTarget);
      case Grants(cmd, now, newTarget, later, laterTarget) =>
        if !stopped {
          var freeAt;
          ok, freeAt := DoGrantedGpu(cmd, now, newTarget, later, laterTarget);
        }
      case StopThread => Stop();
    }
  }

  lemma {:induction false} RunEnds(s: Setup, events: seq<Event>, i: nat)
    requires i <= |events| && RunOf(s, events[..i]) == None
    ensures RunOf(s, events) == None
    decreases |events| - i
  {
    hide Handled;
    if i < |events| {
      assert events[..i + 1][..i] == events[..i];
      RunEnds(s, events, i + 1);
    } else {
      assert events[..i] == events;
    }
  }

  /** Runs a thread through some events. */
  method Run(s: Setup, events: seq<Event>)
    returns (ok: bool, waiting: seq<Query>, inputs: seq<Query>, reported: seq<Query>, plans: seq<Plan>)
    ensures ok <==> RunOf(s, events).Some?
    ensures ok ==>
      var t := RunOf(s, events).value;
      waiting == t.w.queries && inputs == t.w.inputs && reported == t.reported && plans == t.sent
  {
    hide Handled;
    var t := new ModelThread(s);
    for n := 0 to |events|
      invariant fresh(t) && fresh(t.policy) && t.Valid() && t.setup == s && RunOf(s, events[..n]) == Some(t.Value())
    {
      assert events[..n + 1][..n] == events[..n];
      ok := t.Handle(events[n]);
      if !ok {
        RunEnds(s, events, n + 1);
        return false, [], [], [], [];
      }
    }
    assert events[..|events|] == events;
    ok, waiting, inputs, reported, plans := true, t.policy.queries, t.policy.inputs, t.reported, t.sent;
  }
}
