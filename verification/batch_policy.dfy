/** The expanded-window batching policy. */
module BatchPolicy {
  import opened ModelProfiles
  import opened QueryLists

  datatype Window = Window(queries: seq<Query>, inputs: seq<Query>, drops: seq<Query>)

  // Fatal: a batch size outside the profile was looked up. CheckFailed: the final sanity check aborted.
  datatype Outcome = Fatal | CheckFailed | Done(w: Window)

  function ProcElapse(p: Profile): int {
    Nanos(p.pre.Total()) + Nanos(p.post.Total())
  }

  // When a batch of n started at exec is done.
  function Finish(p: Profile, exec: int, n: nat): int
    requires p.Covers(n)
  {
    exec + Nanos(p.Forward(n)) + ProcElapse(p)
  }

  // Phase 1 drops leading inputs until the first one can finish with the rest.
  function DropLate(p: Profile, exec: int, w: Window): (r: Outcome)
    ensures !r.CheckFailed?
    decreases |w.inputs|
  {
    if w.inputs == [] then Done(w)
    else if !p.Covers(|w.inputs|) then Fatal
    else if w.inputs[0].deadline >= Finish(p, exec, |w.inputs|) then Done(w)
    else DropLate(p, exec, HeadDropped(w))
  }

  datatype Step = Abort | Stop | Next(w: Window)

  function Min(a: int, b: int): int {
    if a <= b then a else b
  }

  // The first query joins the inputs.
  function Moved(w: Window): Window
    requires w.queries != []
  {
    Window(w.queries[1..], Insert(w.inputs, w.queries[0]), w.drops)
  }

  // The head of the inputs is dropped.
  function HeadDropped(w: Window): Window
    requires w.inputs != []
  {
    Window(w.queries, w.inputs[1..], w.drops + [w.inputs[0]])
  }

  // One round of phase 2: the first query joins the inputs, and the head may have to go.
  function FillStep(p: Profile, exec: int, target: nat, w: Window): (s: Step)
    requires w.queries != [] && target >= 1
    ensures s.Next? ==> s.w.queries == w.queries[1..]
  {
    if |w.inputs| < target then
      var bs := Min(target, |w.inputs| + |w.queries|);
      if !p.Covers(bs) then Abort
      else if Moved(w).inputs[0].deadline < Finish(p, exec, bs) then Next(HeadDropped(Moved(w)))
      else Next(Moved(w))
    else if !p.Covers(|w.inputs| + 1) then Abort
    else if Finish(p, exec, |w.inputs| + 1) < Min(w.inputs[0].deadline, w.queries[0].deadline) then Next(Moved(w))
    else Stop
  }

  function Fill(p: Profile, exec: int, target: nat, w: Window): (r: Outcome)
    requires target >= 1
    ensures !r.CheckFailed?
    decreases |w.queries|
  {
    if w.queries == [] then Done(w) else
      match FillStep(p, exec, target, w)
      case Abort => Fatal
      case Stop => Done(w)
      case Next(w') => Fill(p, exec, target, w')
  }

  // The head of the inputs can finish in a batch of all inputs.
  predicate HeadFits(p: Profile, exec: int, w: Window) {
    w.inputs == [] || (p.Covers(|w.inputs|) && w.inputs[0].deadline >= Finish(p, exec, |w.inputs|))
  }

  // The whole policy.
  function Expanded(p: Profile, exec: int, target: nat, w: Window): Outcome
    requires target >= 1
  {
    match DropLate(p, exec, w)
    case Fatal => Fatal
    case CheckFailed => CheckFailed
    case Done(w1) =>
      match Fill(p, exec, target, w1)
      case Fatal => Fatal
      case CheckFailed => CheckFailed
      case Done(w2) =>
        if w2.inputs != [] && !p.Covers(|w2.inputs|) then Fatal
        else if HeadFits(p, exec, w2) then Done(w2) else CheckFailed
  }

  // Both lists are ordered sets and share no key.
  ghost predicate Good(w: Window) {
    Ascending(w.queries) && Ascending(w.inputs) && Disjoint(w.queries, w.inputs)
  }

  ghost function Pool(w: Window): multiset<Query> {
    multiset(w.queries) + multiset(w.inputs) + multiset(w.drops)
  }

  lemma HeadTail(s: seq<Query>)
    requires s != [] && Ascending(s)
    ensures s == [s[0]] + s[1..] && multiset(s) == multiset{s[0]} + multiset(s[1..])
    ensures Ascending(s[1..]) && s[0] !in s[1..]
    ensures AllBefore([s[0]], s[1..])
  {
  }

  // Input j cannot finish in a batch with all inputs after it.
  ghost predicate LateAt(p: Profile, exec: int, inputs: seq<Query>, j: nat) {
    j < |inputs| && p.Covers(|inputs| - j) && inputs[j].deadline < Finish(p, exec, |inputs| - j)
  }

  // Phase 1 in closed form: the shortest prefix whose removal lets the next input finish with the rest.
  lemma {:induction false} DropLateIsPrefix(p: Profile, exec: int, w: Window) returns (k: nat)
    requires DropLate(p, exec, w).Done?
    ensures k <= |w.inputs|
    ensures DropLate(p, exec, w).w == Window(w.queries, w.inputs[k..], w.drops + w.inputs[..k])
    ensures HeadFits(p, exec, DropLate(p, exec, w).w)
    ensures forall j: nat | j < k :: LateAt(p, exec, w.inputs, j)
    decreases |w.inputs|
  {
    if w.inputs == [] || w.inputs[0].deadline >= Finish(p, exec, |w.inputs|) {
      k := 0;
      assert w.inputs[0..] == w.inputs && w.drops + w.inputs[..0] == w.drops;
    } else {
      var w' := HeadDropped(w);
      var k' := DropLateIsPrefix(p, exec, w');
      k := k' + 1;
      assert w'.inputs[k'..] == w.inputs[k..];
      assert w'.drops + w'.inputs[..k'] == w.drops + w.inputs[..k];
      forall j: nat | j < k ensures LateAt(p, exec, w.inputs, j) {
        assert j > 0 ==> LateAt(p, exec, w'.inputs, j - 1);
      }
    }
  }

  lemma SplitPool(s: seq<Query>, k: nat)
    requires k <= |s|
    ensures multiset(s) == multiset(s[..k]) + multiset(s[k..])
  {
    assert s == s[..k] + s[k..];
  }

  lemma DropLateKeeps(p: Profile, exec: int, w: Window)
    requires Good(w) && DropLate(p, exec, w).Done?
    ensures Good(DropLate(p, exec, w).w) && Pool(DropLate(p, exec, w).w) == Pool(w)
  {
    var k := DropLateIsPrefix(p, exec, w);
    SplitPool(w.inputs, k);
    SplitPool(w.drops + w.inputs[..k], |w.drops|);
    assert Disjoint(w.queries, w.inputs[k..]);
  }

  // Moving the first query over keeps both lists in order and apart.
  lemma MovedGood(w: Window)
    requires Good(w) && w.queries != []
    ensures Good(Moved(w))
    ensures |Moved(w).inputs| == |w.inputs| + 1
    ensures Moved(w).inputs[0] == if w.inputs == [] || Before(w.queries[0], w.inputs[0]) then w.queries[0] else
      w.inputs[0]
  {
    var q := w.queries[0];
    HeadTail(w.queries);
    assert q in w.queries;
    InsertAscending(w.inputs, q);
    InsertNew(w.inputs, q);
    forall x ensures !(x in w.queries[1..] && x in Insert(w.inputs, q)) {
      InsertMembers(w.inputs, q, x);
    }
  }

  lemma MovedPool(w: Window)
    requires Good(w) && w.queries != []
    ensures Pool(Moved(w)) == Pool(w)
  {
    HeadTail(w.queries);
    assert w.queries[0] in w.queries;
    InsertNew(w.inputs, w.queries[0]);
  }

  lemma HeadDroppedKeeps(w: Window)
    requires Good(w) && w.inputs != []
    ensures Good(HeadDropped(w)) && Pool(HeadDropped(w)) == Pool(w)
  {
    HeadTail(w.inputs);
    forall x ensures !(x in w.queries && x in w.inputs[1..]) {
      assert x in w.inputs[1..] ==> x in w.inputs;
    }
  }

  // A round only moves queries: none is lost or duplicated.
  lemma StepKeeps(p: Profile, exec: int, target: nat, w: Window)
    requires Good(w) && w.queries != [] && target >= 1 && FillStep(p, exec, target, w).Next?
    ensures Good(FillStep(p, exec, target, w).w) && Pool(FillStep(p, exec, target, w).w) == Pool(w)
  {
    var w1, w' := Moved(w), FillStep(p, exec, target, w).w;
    assert w' == w1 || w' == HeadDropped(w1);
    assert Good(w1) by {
      MovedGood(w);
    }
    assert Pool(w1) == Pool(w) by {
      MovedPool(w);
    }
    HeadDroppedKeeps(w1);
  }

  // The head can finish in a batch as large as the remaining queries allow, up to the target, and stays the head.
  ghost predicate Committed(p: Profile, exec: int, target: nat, w: Window) {
    && 0 < |w.inputs| <= target
    && p.Covers(Min(target, |w.inputs| + |w.queries|))
    && w.inputs[0].deadline >= Finish(p, exec, Min(target, |w.inputs| + |w.queries|))
    && AllBefore(w.inputs[..1], w.queries)
  }

  /**
   Once an input has been kept, the batch size aimed at stays the same and so does
   the head. Before that, a drop leaves a later head with the same batch size.
   */
  lemma StepFits(p: Profile, exec: int, target: nat, w: Window)
    requires Good(w) && w.queries != [] && target >= 1 && FillStep(p, exec, target, w).Next?
    requires HeadFits(p, exec, w) || Committed(p, exec, target, w)
    ensures var w' := FillStep(p, exec, target, w).w;
      HeadFits(p, exec, w') || Committed(p, exec, target, w')
  {
    MovedGood(w);
    HeadTail(w.queries);
    var q, inputs, w' := w.queries[0], Moved(w).inputs, FillStep(p, exec, target, w).w;
    HeadTail(inputs);
    if |w.inputs| < target {
      if w' == Moved(w) {
        assert inputs[..1] == [inputs[0]];
        forall y | y in w.queries[1..] ensures Before(inputs[0], y) {
          assert Before(q, y);
        }
        assert Committed(p, exec, target, w');
      } else if w.inputs != [] {
        assert w.inputs[0] in w.inputs[..1] && q in w.queries;
        if Before(q, w.inputs[0]) {
          assert inputs == [q] + w.inputs;
        } else {
          assert Before(inputs[0], inputs[1]);
        }
        assert HeadFits(p, exec, w');
      }
    }
  }

  // What a round drops comes before everything it keeps.
  lemma StepDropsFirst(p: Profile, exec: int, target: nat, w: Window)
    requires Good(w) && w.queries != [] && target >= 1 && FillStep(p, exec, target, w).Next?
    ensures var w' := FillStep(p, exec, target, w).w;
      || w'.drops == w.drops
      || exists d :: w'.drops == w.drops + [d] && AllBefore([d], w'.inputs) && AllBefore([d], w'.queries)
  {
    MovedGood(w);
    HeadTail(w.queries);
    var q, inputs := w.queries[0], Insert(w.inputs, w.queries[0]);
    HeadTail(inputs);
    var w' := FillStep(p, exec, target, w).w;
    if w'.drops != w.drops {
      assert AllBefore([inputs[0]], w'.queries) by {
        forall y | y in w'.queries ensures Before(inputs[0], y) {
          assert Before(q, y);
        }
      }
      assert w'.drops == w.drops + [inputs[0]] && AllBefore([inputs[0]], w'.inputs);
    }
  }

  lemma {:induction false} FillKeeps(p: Profile, exec: int, target: nat, w: Window)
    requires Good(w) && target >= 1 && Fill(p, exec, target, w).Done?
    ensures Good(Fill(p, exec, target, w).w) && Pool(Fill(p, exec, target, w).w) == Pool(w)
    decreases |w.queries|
  {
    if w.queries != [] && FillStep(p, exec, target, w).Next? {
      StepKeeps(p, exec, target, w);
      FillKeeps(p, exec, target, FillStep(p, exec, target, w).w);
    }
  }

  lemma {:induction false} FillFits(p: Profile, exec: int, target: nat, w: Window)
    requires Good(w) && target >= 1 && Fill(p, exec, target, w).Done?
    requires HeadFits(p, exec, w) || Committed(p, exec, target, w)
    ensures HeadFits(p, exec, Fill(p, exec, target, w).w)
    decreases |w.queries|
  {
    if w.queries != [] && FillStep(p, exec, target, w).Next? {
      StepKeeps(p, exec, target, w);
      StepFits(p, exec, target, w);
      FillFits(p, exec, target, FillStep(p, exec, target, w).w);
    }
  }

  // Phase 2 has nothing left to do.
  ghost predicate Settled(p: Profile, exec: int, target: nat, w: Window) {
    || w.queries == []
    || (|w.inputs| >= target && w.inputs != [] && p.Covers(|w.inputs| + 1) &&
        Finish(p, exec, |w.inputs| + 1) >= Min(w.inputs[0].deadline, w.queries[0].deadline))
  }

  /** Greedy-maximal: phase 2 ends without queries, or with at least the target and no room for one more. */
  lemma {:induction false} FillSettles(p: Profile, exec: int, target: nat, w: Window)
    requires target >= 1 && Fill(p, exec, target, w).Done?
    ensures Settled(p, exec, target, Fill(p, exec, target, w).w)
    decreases |w.queries|
  {
    if w.queries != [] && FillStep(p, exec, target, w).Next? {
      FillSettles(p, exec, target, FillStep(p, exec, target, w).w);
    }
  }

  // Nothing new appears: what is kept was there before.
  lemma {:induction false} FillShrinks(p: Profile, exec: int, target: nat, w: Window, x: Query)
    requires Good(w) && target >= 1 && Fill(p, exec, target, w).Done?
    requires x in Fill(p, exec, target, w).w.inputs || x in Fill(p, exec, target, w).w.queries
    ensures x in w.inputs || x in w.queries
    decreases |w.queries|
  {
    if w.queries != [] && FillStep(p, exec, target, w).Next? {
      StepKeeps(p, exec, target, w);
      FillShrinks(p, exec, target, FillStep(p, exec, target, w).w, x);
      InsertMembers(w.inputs, w.queries[0], x);
    }
  }

  /** Every query that phase 2 drops comes before every query that is kept, as an input or as a query. */
  lemma {:induction false} FillDropsFirst(p: Profile, exec: int, target: nat, w: Window, i: nat, y: Query)
    requires Good(w) && target >= 1 && Fill(p, exec, target, w).Done?
    requires |w.drops| <= i < |Fill(p, exec, target, w).w.drops|
    requires y in Fill(p, exec, target, w).w.inputs || y in Fill(p, exec, target, w).w.queries
    ensures Before(Fill(p, exec, target, w).w.drops[i], y)
    decreases |w.queries|
  {
    if w.queries != [] && FillStep(p, exec, target, w).Next? {
      StepKeeps(p, exec, target, w);
      StepDropsFirst(p, exec, target, w);
      var w' := FillStep(p, exec, target, w).w;
      if |w'.drops| <= i {
        FillDropsFirst(p, exec, target, w', i, y);
      } else {
        FillShrinks(p, exec, target, w', y);
        FillDropsPrefix(p, exec, target, w');
        var d :| w'.drops == w.drops + [d] && AllBefore([d], w'.inputs) && AllBefore([d], w'.queries);
        assert d in [d] && Fill(p, exec, target, w').w.drops[i] == w'.drops[i] == d;
      }
    }
  }

  lemma {:induction false} FillDropsPrefix(p: Profile, exec: int, target: nat, w: Window)
    requires target >= 1 && Fill(p, exec, target, w).Done?
    ensures w.drops <= Fill(p, exec, target, w).w.drops
    decreases |w.queries|
  {
    if w.queries != [] && FillStep(p, exec, target, w).Next? {
      FillDropsPrefix(p, exec, target, FillStep(p, exec, target, w).w);
    }
  }

  /**
   Whatever the profile, the policy conserves queries, keeps both lists in order
   and apart, never fails its sanity check and leaves the head of the inputs able
   to finish in a batch of all of them.
   */
  lemma PolicySafe(p: Profile, exec: int, target: nat, w: Window)
    requires Good(w) && target >= 1
    ensures !Expanded(p, exec, target, w).CheckFailed?
    ensures Expanded(p, exec, target, w).Done? ==>
      var w' := Expanded(p, exec, target, w).w;
      Good(w') && Pool(w') == Pool(w) && HeadFits(p, exec, w') && Settled(p, exec, target, w')
  {
    if DropLate(p, exec, w).Done? {
      DropLateKeeps(p, exec, w);
      var k := DropLateIsPrefix(p, exec, w);
      var w1 := DropLate(p, exec, w).w;
      if Fill(p, exec, target, w1).Done? {
        FillKeeps(p, exec, target, w1);
        FillFits(p, exec, target, w1);
        FillSettles(p, exec, target, w1);
      }
    }
  }

  /** Running the policy a second time with the same arguments changes nothing. */
  lemma PolicyIdempotent(p: Profile, exec: int, target: nat, w: Window)
    requires Good(w) && target >= 1 && Expanded(p, exec, target, w).Done?
    ensures var w' := Expanded(p, exec, target, w).w;
      Expanded(p, exec, target, w') == Done(w')
  {
    PolicySafe(p, exec, target, w);
  }

  /** A profile that covers all waiting queries in one batch never ends the process. */
  lemma CoveredNeverFatal(p: Profile, exec: int, target: nat, w: Window)
    requires Good(w) && target >= 1 && |w.inputs| + |w.queries| < |p.forward|
    ensures !Expanded(p, exec, target, w).Fatal?
  {
    CoveredDropLate(p, exec, w);
    var k := DropLateIsPrefix(p, exec, w);
    DropLateKeeps(p, exec, w);
    CoveredFill(p, exec, target, DropLate(p, exec, w).w);
    PolicySafe(p, exec, target, w);
  }

  lemma {:induction false} CoveredDropLate(p: Profile, exec: int, w: Window)
    requires |w.inputs| < |p.forward| || w.inputs == []
    ensures DropLate(p, exec, w).Done?
    decreases |w.inputs|
  {
    if w.inputs != [] && w.inputs[0].deadline < Finish(p, exec, |w.inputs|) {
      CoveredDropLate(p, exec, HeadDropped(w));
    }
  }

  lemma {:induction false} CoveredFill(p: Profile, exec: int, target: nat, w: Window)
    requires Good(w) && target >= 1 && |w.inputs| + |w.queries| < |p.forward|
    ensures Fill(p, exec, target, w).Done? && |Fill(p, exec, target, w).w.inputs| < |p.forward|
    decreases |w.queries|
  {
    if w.queries != [] {
      MovedGood(w);
      if FillStep(p, exec, target, w).Next? {
        StepKeeps(p, exec, target, w);
        CoveredFill(p, exec, target, FillStep(p, exec, target, w).w);
      }
    }
  }

  class IncrementalBatchPolicy {
    // The unprocessed queries, shared with the owner of the policy.
    var queries: seq<Query>
    var inputs: seq<Query>
    var drops: seq<Query>
    const profile: Profile
    var lastExecTime: int

    constructor (profile: Profile)
      ensures this.profile == profile && Value() == Window([], [], []) && lastExecTime == 0
    {
      this.profile := profile;
      queries, inputs, drops, lastExecTime := [], [], [], 0;
    }

    function Value(): Window
      reads this
    {
      Window(queries, inputs, drops)
    }

    // Drops existing inputs that time out. False: the process ends.
    method DropLateInputs(exec: int) returns (ok: bool)
      modifies this`inputs, this`drops
      ensures ok <==> DropLate(profile, exec, old(Value())).Done?
      ensures ok ==> DropLate(profile, exec, old(Value())) == Done(Value())
    {
      while inputs != []
        invariant DropLate(profile, exec, Value()) == DropLate(profile, exec, old(Value()))
        decreases |inputs|
      {
        if !profile.Covers(|inputs|) {
          return false;
        }
        if inputs[0].deadline >= Finish(profile, exec, |inputs|) {
          return true;
        }
        drops := drops + [inputs[0]];
        inputs := inputs[1..];
      }
      return true;
    }

    // The sliding window, with the free lunch beyond the target. False: the process ends.
    method FillInputs(exec: int, target: nat) returns (ok: bool)
      requires target >= 1
      modifies this`queries, this`inputs, this`drops
      ensures ok <==> Fill(profile, exec, target, old(Value())).Done?
      ensures ok ==> Fill(profile, exec, target, old(Value())) == Done(Value())
    {
      hide Finish, Insert;
      while queries != []
        invariant Fill(profile, exec, target, Value()) == Fill(profile, exec, target, old(Value()))
        decreases |queries|
      {
        ghost var w := Value();
        if |inputs| < target {
          var bs := Min(target, |inputs| + |queries|);
          inputs, queries := Insert(inputs, queries[0]), queries[1..];
          if !profile.Covers(bs) {
            return false;
          }
          if inputs[0].deadline < Finish(profile, exec, bs) {
            drops := drops + [inputs[0]];
            inputs := inputs[1..];
          }
          assert FillStep(profile, exec, target, w) == Next(Value());
        } else {
          var deadline := Min(inputs[0].deadline, queries[0].deadline);
          if !profile.Covers(|inputs| + 1) {
            return false;
          }
          if Finish(profile, exec, |inputs| + 1) < deadline {
            inputs, queries := Insert(inputs, queries[0]), queries[1..];
            assert FillStep(profile, exec, target, w) == Next(Value());
          } else {
            return true;
          }
        }
      }
      return true;
    }

    // GetBatchByExpandedWindow. False: the process ends.
    method GetBatch(exec: int, target: nat) returns (ok: bool)
      requires target >= 1
      modifies this`queries, this`inputs, this`drops
      ensures ok <==> Expanded(profile, exec, target, old(Value())).Done?
      ensures ok ==> Expanded(profile, exec, target, old(Value())) == Done(Value())
    {
      ok := DropLateInputs(exec);
      if !ok {
        return;
      }
      ok := FillInputs(exec, target);
      if !ok || inputs == [] {
        return;
      }
      ok := profile.Covers(|inputs|) && inputs[0].deadline >= Finish(profile, exec, |inputs|);
    }

    /** Refuses to go back in time, then runs the policy. */
    method Update(exec: int, target: nat) returns (ok: bool)
      requires target >= 1
      modifies this
      ensures ok <==> old(lastExecTime) <= exec && Expanded(profile, exec, target, old(Value())).Done?
      ensures ok ==> Expanded(profile, exec, target, old(Value())) == Done(Value()) && lastExecTime == exec
    {
      if lastExecTime > exec {
        return false;
      }
      lastExecTime := exec;
      ok := GetBatch(exec, target);
    }

    method PopInputs() returns (r: seq<Query>)
      modifies this`inputs
      ensures r == old(inputs) && Value() == old(Value()).(inputs := [])
    {
      r := inputs;
      inputs := [];
    }

    method PopDrops() returns (r: seq<Query>)
      modifies this`drops
      ensures r == old(drops) && Value() == old(Value()).(drops := [])
    {
      r := drops;
      drops := [];
    }
  }
}
