/** A request's variables and query results, and which blocks they let run. */
module RequestFlow {
  import opened Wrappers

  datatype Name = Name(text: string)

  type QueryId = nat
  type BlockId = int

  // A query's answer, by a number.
  type Answer = nat

  /** A variable: the queries it waits for, and the answers it has. */
  datatype Variable = Variable(name: Name, pending: set<QueryId>, answers: map<QueryId, Answer>) {
    predicate Ready() {
      pending == {}
    }
  }

  function WithAnswer(v: Variable, q: QueryId, a: Answer): Variable {
    v.(pending := v.pending - {q}, answers := v.answers[q := a])
  }

  // Inserting does not replace.
  function Emplace<K(==), V>(m: map<K, V>, k: K, v: V): map<K, V> {
    if k in m then m else m[k := v]
  }

  /** The variables present, those waiting for answers, who waits for a query, and answers nobody waits for yet. */
  datatype Core = Core(
    vars: map<Name, Variable>, waiting: map<Name, Variable>, asker: map<QueryId, Name>, dangling: map<QueryId, Answer>)

  // A variable goes where it belongs.
  function Placed(c: Core, v: Variable): Core {
    if v.Ready() then c.(vars := Emplace(c.vars, v.name, v)) else c.(waiting := Emplace(c.waiting, v.name, v))
  }

  // The answers to qs.
  ghost function Picked(qs: set<QueryId>, arrived: map<QueryId, Answer>): map<QueryId, Answer> {
    arrived - (arrived.Keys - qs)
  }

  // v with all the answers to its queries among arrived.
  ghost function Filled(v: Variable, arrived: map<QueryId, Answer>): Variable {
    Variable(v.name, v.pending - arrived.Keys, v.answers + Picked(v.pending, arrived))
  }

  // The queries in qs are asked for by n.
  ghost function Asking(qs: set<QueryId>, n: Name): (m: map<QueryId, Name>)
    ensures m.Keys == qs && forall q {:trigger m[q]} | q in qs :: m[q] == n
  {
    Table(qs, q => n)
  }

  /** One variable returned by a block. */
  ghost function Registered(c: Core, v: Variable): Core {
    var w := Filled(v, c.dangling);
    Placed(
      c.(asker := Asking(w.pending, v.name) + c.asker,
         dangling := c.dangling - v.pending), w)
  }

  /** One query result; None: one of the two lookups of whoever asked fails. */
  function Delivered(c: Core, q: QueryId, a: Answer): Option<Core> {
    if q !in c.asker then Some(c.(dangling := Emplace(c.dangling, q, a)))
    else
      var n := c.asker[q];
      var d := c.(asker := c.asker - {q});
      if n !in c.waiting || q !in c.waiting[n].pending then None
      else
        var w := WithAnswer(c.waiting[n], q, a);
        Some(if w.Ready() then Placed(d.(waiting := d.waiting - {n}), w) else d.(waiting := d.waiting[n := w]))
  }

  /** All the variables that a block returns. */
  ghost function RegisteredAll(c: Core, vs: seq<Variable>): Core {
    if vs == [] then c else Registered(RegisteredAll(c, vs[..|vs| - 1]), vs[|vs| - 1])
  }

  /** Everything that has happened to a request: variables returned, who first asked what, and results arrived. */
  datatype Past = Past(returned: map<Name, Variable>, askers: map<QueryId, Name>, arrived: map<QueryId, Answer>)

  ghost predicate Consistent(h: Past) {
    && (forall n {:trigger n in h.returned} | n in h.returned ::
      h.returned[n].name == n && h.returned[n].answers.Keys !! h.returned[n].pending)
    && (forall q {:trigger q in h.askers} | q in h.askers ::
      h.askers[q] in h.returned && q in h.returned[h.askers[q]].pending)
    && (forall n, q {:trigger q in h.returned[n].pending} | n in h.returned && q in h.returned[n].pending ::
      q in h.askers && h.askers[q] == n)
  }

  // The variables with the answers they have, and which of them have all.
  ghost function AllFilled(returned: map<Name, Variable>, arrived: map<QueryId, Answer>): (m: map<Name, Variable>)
    ensures m.Keys == returned.Keys && forall n {:trigger m[n]} | n in returned :: m[n] == Filled(returned[n], arrived)
  {
    Table(returned.Keys, n => if n in returned then Filled(returned[n], arrived) else Variable(n, {}, map[]))
  }

  ghost function ReadyOnes(returned: map<Name, Variable>, arrived: map<QueryId, Answer>): set<Name> {
    set n | n in returned && Filled(returned[n], arrived).Ready()
  }

  // Variables that have all their answers, and those that do not.
  ghost function Complete(returned: map<Name, Variable>, arrived: map<QueryId, Answer>): map<Name, Variable> {
    AllFilled(returned, arrived) - (returned.Keys - ReadyOnes(returned, arrived))
  }

  ghost function Incomplete(returned: map<Name, Variable>, arrived: map<QueryId, Answer>): map<Name, Variable> {
    AllFilled(returned, arrived) - ReadyOnes(returned, arrived)
  }

  // Queries still to be answered, and answers not asked for yet.
  ghost function Open(askers: map<QueryId, Name>, arrived: map<QueryId, Answer>): map<QueryId, Name> {
    askers - arrived.Keys
  }

  ghost function Early(askers: map<QueryId, Name>, arrived: map<QueryId, Answer>): map<QueryId, Answer> {
    arrived - askers.Keys
  }

  /** The state depends on what has been returned and what has arrived, not on the order. */
  ghost function CoreOf(h: Past): Core {
    Core(Complete(h.returned, h.arrived), Incomplete(h.returned, h.arrived), Open(h.askers, h.arrived),
      Early(h.askers, h.arrived))
  }

  // v is new to the request: neither its name nor its queries have been seen in another variable.
  ghost predicate IsNew(h: Past, v: Variable) {
    v.name !in h.returned && v.pending !! h.askers.Keys && v.answers.Keys !! v.pending
  }

  ghost function PastReturned(h: Past, v: Variable): Past {
    h.(returned := h.returned[v.name := v], askers := Asking(v.pending, v.name) + h.askers)
  }

  ghost function PastArrived(h: Past, q: QueryId, a: Answer): Past {
    h.(arrived := h.arrived[q := a])
  }

  lemma ReturnKeepsConsistent(h: Past, v: Variable)
    requires Consistent(h) && IsNew(h, v)
    ensures Consistent(PastReturned(h, v))
  {
  }

  lemma EarlyFills(v: Variable, askers: map<QueryId, Name>, arrived: map<QueryId, Answer>)
    requires v.pending !! askers.Keys
    ensures Filled(v, Early(askers, arrived)) == Filled(v, arrived)
  {
    var d := Early(askers, arrived);
    assert v.pending - d.Keys == v.pending - arrived.Keys;
    assert Picked(v.pending, d) == Picked(v.pending, arrived);
  }

  lemma OpenAfterReturn(askers: map<QueryId, Name>, arrived: map<QueryId, Answer>, qs: set<QueryId>, n: Name)
    requires qs !! askers.Keys
    ensures Asking(qs - arrived.Keys, n) + Open(askers, arrived) == Open(Asking(qs, n) + askers, arrived)
  {
  }

  lemma EarlyAfterReturn(askers: map<QueryId, Name>, arrived: map<QueryId, Answer>, qs: set<QueryId>, n: Name)
    ensures Early(askers, arrived) - qs == Early(Asking(qs, n) + askers, arrived)
  {
  }

  lemma FilledAfterReturn(returned: map<Name, Variable>, arrived: map<QueryId, Answer>, v: Variable)
    requires v.name !in returned
    ensures var w := Filled(v, arrived);
      && AllFilled(returned[v.name := v], arrived) == AllFilled(returned, arrived)[v.name := w]
      && ReadyOnes(returned[v.name := v], arrived) == ReadyOnes(returned, arrived) + if w.Ready() then {v.name} else {}
    ensures AllFilled(returned, arrived).Keys == returned.Keys && ReadyOnes(returned, arrived) <= returned.Keys
  {
    hide Filled, AllFilled;
  }

  lemma VariablesAfterReturn(returned: map<Name, Variable>, arrived: map<QueryId, Answer>, v: Variable)
    requires v.name !in returned
    ensures var w := Filled(v, arrived);
      && Complete(returned[v.name := v], arrived) ==
        (if w.Ready() then Complete(returned, arrived)[v.name := w] else Complete(returned, arrived))
      && Incomplete(returned[v.name := v], arrived) ==
        (if w.Ready() then Incomplete(returned, arrived) else Incomplete(returned, arrived)[v.name := w])
  {
    hide Filled, AllFilled, ReadyOnes;
    FilledAfterReturn(returned, arrived, v);
    var all, ready, w := AllFilled(returned, arrived), ReadyOnes(returned, arrived), Filled(v, arrived);
    assert returned[v.name := v].Keys == returned.Keys + {v.name};
    OneMoreApart(all, ready, v.name, w, w.Ready());
  }

  // A new entry goes to the chosen ones or to the others.
  lemma OneMoreApart(all: map<Name, Variable>, ready: set<Name>, n: Name, w: Variable, chosen: bool)
    requires n !in all && ready <= all.Keys
    ensures var ready' := ready + if chosen then {n} else {};
      && all[n := w] - (all.Keys + {n} - ready') ==
        (if chosen then (all - (all.Keys - ready))[n := w] else all - (all.Keys - ready))
      && all[n := w] - ready' == if chosen then all - ready else (all - ready)[n := w]
  {
  }

  /** Returning a variable: the new state is the one its past calls for. */
  lemma RegisteredIs(h: Past, v: Variable)
    requires Consistent(h) && IsNew(h, v)
    ensures Registered(CoreOf(h), v) == CoreOf(PastReturned(h, v))
  {
    EarlyFills(v, h.askers, h.arrived);
    OpenAfterReturn(h.askers, h.arrived, v.pending, v.name);
    EarlyAfterReturn(h.askers, h.arrived, v.pending, v.name);
    VariablesAfterReturn(h.returned, h.arrived, v);
    var w := Filled(v, h.arrived);
    assert w.name == v.name && w.pending == v.pending - h.arrived.Keys;
    assert v.name !in Complete(h.returned, h.arrived) && v.name !in Incomplete(h.returned, h.arrived);
    hide Filled, Open, Early, Asking, Complete, Incomplete, Consistent;
  }

  lemma ArrivedFilled(v: Variable, arrived: map<QueryId, Answer>, q: QueryId, a: Answer)
    requires q !in arrived && v.answers.Keys !! v.pending
    ensures q !in v.pending ==> Filled(v, arrived[q := a]) == Filled(v, arrived)
    ensures q in v.pending ==> Filled(v, arrived[q := a]) == WithAnswer(Filled(v, arrived), q, a)
  {
    if q !in v.pending {
      assert v.pending * arrived[q := a].Keys == v.pending * arrived.Keys;
      assert v.pending - arrived[q := a].Keys == v.pending - arrived.Keys;
    } else {
      assert v.pending * arrived[q := a].Keys == v.pending * arrived.Keys + {q};
      assert v.pending - arrived[q := a].Keys == v.pending - arrived.Keys - {q};
    }
  }

  lemma OpenAfterResult(askers: map<QueryId, Name>, arrived: map<QueryId, Answer>, q: QueryId, a: Answer)
    ensures Open(askers, arrived[q := a]) == Open(askers, arrived) - {q}
  {
  }

  lemma EarlyAfterResult(askers: map<QueryId, Name>, arrived: map<QueryId, Answer>, q: QueryId, a: Answer)
    requires q !in arrived
    ensures Early(askers, arrived[q := a]) == if q in askers then Early(askers, arrived) else
      Early(askers, arrived)[q := a]
  {
  }

  // Between two stages of arrival, a hit variable n becomes w and the others stay as they are.
  ghost predicate ChangesOnly(
      returned: map<Name, Variable>, arrived: map<QueryId, Answer>, arrived': map<QueryId, Answer>, hit: bool, n: Name,
      w: Variable) {
    forall m {:trigger Filled(returned[m], arrived')} | m in returned ::
      Filled(returned[m], arrived') == if hit && m == n then w else Filled(returned[m], arrived)
  }

  lemma FilledChanges(
      returned: map<Name, Variable>, arrived: map<QueryId, Answer>, arrived': map<QueryId, Answer>, hit: bool, n: Name,
      w: Variable)
    requires ChangesOnly(returned, arrived, arrived', hit, n, w)
    requires hit ==> n in returned && !Filled(returned[n], arrived).Ready()
    ensures AllFilled(returned, arrived).Keys == returned.Keys
    ensures AllFilled(returned, arrived') ==
      if hit then AllFilled(returned, arrived)[n := w] else AllFilled(returned, arrived)
  {
    hide Filled, AllFilled;
    forall m | m in returned ensures Filled(returned[m], arrived') == if hit && m == n then w else
      Filled(returned[m], arrived) {
    }
    hide ChangesOnly;
  }

  lemma ReadyChanges(
      returned: map<Name, Variable>, arrived: map<QueryId, Answer>, arrived': map<QueryId, Answer>, hit: bool, n: Name,
      w: Variable)
    requires ChangesOnly(returned, arrived, arrived', hit, n, w)
    requires hit ==> n in returned && !Filled(returned[n], arrived).Ready()
    ensures ReadyOnes(returned, arrived) <= returned.Keys
    ensures ReadyOnes(returned, arrived') == ReadyOnes(returned, arrived) + if hit && w.Ready() then {n} else {}
    ensures hit ==> n !in ReadyOnes(returned, arrived)
  {
    hide Filled;
  }

  lemma CompleteChanges(
      returned: map<Name, Variable>, arrived: map<QueryId, Answer>, arrived': map<QueryId, Answer>, hit: bool, n: Name,
      w: Variable)
    requires ChangesOnly(returned, arrived, arrived', hit, n, w)
    requires hit ==> n in returned && !Filled(returned[n], arrived).Ready()
    ensures Complete(returned, arrived') ==
      if hit && w.Ready() then Complete(returned, arrived)[n := w] else Complete(returned, arrived)
  {
    hide Filled, ChangesOnly, AllFilled, ReadyOnes;
    FilledChanges(returned, arrived, arrived', hit, n, w);
    ReadyChanges(returned, arrived, arrived', hit, n, w);
  }

  lemma IncompleteChanges(
      returned: map<Name, Variable>, arrived: map<QueryId, Answer>, arrived': map<QueryId, Answer>, hit: bool, n: Name,
      w: Variable)
    requires ChangesOnly(returned, arrived, arrived', hit, n, w)
    requires hit ==> n in returned && !Filled(returned[n], arrived).Ready()
    ensures Incomplete(returned, arrived') ==
      if !hit then Incomplete(returned, arrived)
      else if w.Ready() then Incomplete(returned, arrived) - {n} else Incomplete(returned, arrived)[n := w]
  {
    hide Filled, ChangesOnly, AllFilled, ReadyOnes;
    FilledChanges(returned, arrived, arrived', hit, n, w);
    ReadyChanges(returned, arrived, arrived', hit, n, w);
  }

  // A result nobody asked for changes no variable.
  lemma UnaskedChanges(h: Past, q: QueryId, a: Answer, n: Name, w: Variable)
    requires Consistent(h) && q !in h.arrived && q !in h.askers
    ensures ChangesOnly(h.returned, h.arrived, h.arrived[q := a], false, n, w)
  {
    forall m | m in h.returned ensures Filled(h.returned[m], h.arrived[q := a]) == Filled(h.returned[m], h.arrived) {
      ArrivedFilled(h.returned[m], h.arrived, q, a);
    }
    hide Filled;
  }

  // A result asked for changes the variable that asked.
  lemma AskedChanges(h: Past, q: QueryId, a: Answer)
    requires Consistent(h) && q !in h.arrived && q in h.askers
    ensures h.askers[q] in h.returned
    ensures var n := h.askers[q]; var w := Filled(h.returned[n], h.arrived);
      !w.Ready() && w.name == n && q in w.pending &&
        ChangesOnly(h.returned, h.arrived, h.arrived[q := a], true, n, WithAnswer(w, q, a))
  {
    var n := h.askers[q];
    forall m | m in h.returned
      ensures Filled(h.returned[m], h.arrived[q := a]) ==
        if m == n then WithAnswer(Filled(h.returned[m], h.arrived), q, a) else Filled(h.returned[m], h.arrived)
    {
      ArrivedFilled(h.returned[m], h.arrived, q, a);
    }
    assert q in Filled(h.returned[n], h.arrived).pending;
  }

  lemma DeliveredAsked(h: Past, q: QueryId, a: Answer)
    requires Consistent(h) && q !in h.arrived && q in h.askers
    ensures Delivered(CoreOf(h), q, a) == Some(CoreOf(PastArrived(h, q, a)))
  {
    var n := h.askers[q];
    OpenAfterResult(h.askers, h.arrived, q, a);
    EarlyAfterResult(h.askers, h.arrived, q, a);
    AskedChanges(h, q, a);
    var w := WithAnswer(Filled(h.returned[n], h.arrived), q, a);
    hide Filled, ChangesOnly, Consistent;
    CompleteChanges(h.returned, h.arrived, h.arrived[q := a], true, n, w);
    IncompleteChanges(h.returned, h.arrived, h.arrived[q := a], true, n, w);
    assert Open(h.askers, h.arrived)[q] == n;
    assert n !in Complete(h.returned, h.arrived) &&
      Incomplete(h.returned, h.arrived)[n] == Filled(h.returned[n], h.arrived);
    hide Open, Early, Complete, Incomplete;
  }

  lemma DeliveredUnasked(h: Past, q: QueryId, a: Answer)
    requires Consistent(h) && q !in h.arrived && q !in h.askers
    ensures Delivered(CoreOf(h), q, a) == Some(CoreOf(PastArrived(h, q, a)))
  {
    hide Filled, ChangesOnly, Complete, Incomplete;
    var n := Name("");
    var w := Variable(n, {}, map[]);
    OpenAfterResult(h.askers, h.arrived, q, a);
    EarlyAfterResult(h.askers, h.arrived, q, a);
    UnaskedChanges(h, q, a, n, w);
    CompleteChanges(h.returned, h.arrived, h.arrived[q := a], false, n, w);
    IncompleteChanges(h.returned, h.arrived, h.arrived[q := a], false, n, w);
    assert Open(h.askers, h.arrived) - {q} == Open(h.askers, h.arrived);
    assert q !in Early(h.askers, h.arrived);
  }

  /** A result: likewise, whether somebody waits for it or not. */
  lemma DeliveredIs(h: Past, q: QueryId, a: Answer)
    requires Consistent(h) && q !in h.arrived
    ensures Delivered(CoreOf(h), q, a) == Some(CoreOf(PastArrived(h, q, a)))
  {
    hide *;
    if q in h.askers {
      DeliveredAsked(h, q, a);
    } else {
      DeliveredUnasked(h, q, a);
    }
  }

  /** A result and the return of any variable commute. */
  lemma Commute(h: Past, v: Variable, q: QueryId, a: Answer)
    requires Consistent(h) && IsNew(h, v) && q !in h.arrived
    ensures Delivered(CoreOf(h), q, a).Some?
    ensures Some(Registered(Delivered(CoreOf(h), q, a).value, v)) == Delivered(Registered(CoreOf(h), v), q, a)
  {
    hide Registered, Delivered, CoreOf;
    DeliveredIs(h, q, a);
    RegisteredIs(PastArrived(h, q, a), v);
    RegisteredIs(h, v);
    ReturnKeepsConsistent(h, v);
    DeliveredIs(PastReturned(h, v), q, a);
  }
}

/** The request context: it releases a block when the last variable it depends on is there. */
module RequestContexts {
  import opened Wrappers
  import opened RequestFlow

  datatype ExecBlock = ExecBlock(id: BlockId, dependency: set<Name>)

  /** What each block still lacks: its declared dependencies minus the variables present. */
  ghost function Remaining(declared: map<BlockId, set<Name>>, present: set<Name>): map<BlockId, set<Name>> {
    var lacking := set b | b in declared && !(declared[b] <= present);
    Table(lacking, b => if b in declared then declared[b] - present else {})
  }

  /** The blocks released so far: exactly those with all their dependencies, each once. */
  ghost predicate Released(started: seq<BlockId>, declared: map<BlockId, set<Name>>, present: set<Name>) {
    && NoRepeats(started)
    && forall b {:trigger b in started} {:trigger b in declared} ::
      b in started <==> b in declared && declared[b] <= present
  }

  // A variable is struck off all lists.
  ghost function Erased(deps: map<BlockId, set<Name>>, n: Name): map<BlockId, set<Name>> {
    Table(deps.Keys, b => if b in deps then deps[b] - {n} else {})
  }

  // The blocks it was the last one for.
  ghost predicate FreedBy(deps: map<BlockId, set<Name>>, n: Name, freed: seq<BlockId>) {
    NoRepeats(freed) && forall b {:trigger b in freed} {:trigger b in deps} ::
      b in freed <==> b in deps && deps[b] - {n} == {}
  }

  ghost function Elements(s: seq<BlockId>): set<BlockId> {
    set b | b in s
  }

  lemma RemainingNext(declared: map<BlockId, set<Name>>, present: set<Name>, n: Name, freed: seq<BlockId>)
    requires FreedBy(Remaining(declared, present), n, freed)
    ensures Erased(Remaining(declared, present), n) - Elements(freed) == Remaining(declared, present + {n})
  {
    var deps := Remaining(declared, present);
    var l, r := Erased(deps, n) - Elements(freed), Remaining(declared, present + {n});
    forall b | b in declared ensures (b in deps && deps[b] - {n} != {}) <==> !(declared[b] <= present + {n}) {
      if b in deps {
        assert deps[b] - {n} == declared[b] - (present + {n});
      }
    }
    forall b | b in deps ensures deps[b] - {n} == declared[b] - (present + {n}) {
    }
    forall b ensures b in l <==> b in r {
      assert b in freed <==> b in deps && deps[b] - {n} == {};
      assert b in Elements(freed) <==> b in freed;
    }
  }

  lemma ReleasedNext(
      started: seq<BlockId>, declared: map<BlockId, set<Name>>, present: set<Name>, n: Name, freed: seq<BlockId>)
    requires Released(started, declared, present) && FreedBy(Remaining(declared, present), n, freed)
    ensures Released(started + freed, declared, present + {n})
  {
    var deps, all := Remaining(declared, present), started + freed;
    forall b ensures b in all <==> b in declared && declared[b] <= present + {n} {
      if b in deps {
        assert deps[b] - {n} == declared[b] - (present + {n});
      }
      assert b in freed <==> b in deps && deps[b] - {n} == {};
      assert b in started <==> b in declared && declared[b] <= present;
    }
    forall i, j | 0 <= i < j < |all| ensures all[i] != all[j] {
      if i < |started| <= j {
        assert all[i] in started && all[j] in freed;
      }
    }
  }

  // All but the blocks in todo have been treated.
  ghost predicate PartErased(
      deps: map<BlockId, set<Name>>, n: Name, todo: set<BlockId>, deps': map<BlockId, set<Name>>, freed: seq<BlockId>) {
    && deps'.Keys == deps.Keys && todo <= deps.Keys && NoRepeats(freed)
    && (forall b {:trigger deps'[b]} {:trigger deps[b]} | b in deps ::
      deps'[b] == if b in todo then deps[b] else deps[b] - {n})
    && (forall b {:trigger b in freed} {:trigger deps[b]} ::
      b in freed <==> b in deps && b !in todo && deps[b] - {n} == {})
  }

  lemma EraseStep(
      deps: map<BlockId, set<Name>>, n: Name, todo: set<BlockId>, deps': map<BlockId, set<Name>>, freed: seq<BlockId>,
      b: BlockId)
    requires PartErased(deps, n, todo, deps', freed) && b in todo
    ensures b in deps' &&
      PartErased(deps, n, todo - {b}, deps'[b := deps'[b] - {n}], if deps'[b] - {n} == {} then freed + [b] else freed)
  {
    assert b !in freed;
    var freed' := if deps'[b] - {n} == {} then freed + [b] else freed;
    forall c ensures c in freed' <==> c in deps && c !in todo - {b} && deps[c] - {n} == {} {
      assert c in freed <==> c in deps && c !in todo && deps[c] - {n} == {};
    }
  }

  method EraseDependency(deps: map<BlockId, set<Name>>, n: Name)
    returns (deps': map<BlockId, set<Name>>, freed: seq<BlockId>)
    ensures deps' == Erased(deps, n) && FreedBy(deps, n, freed)
  {
    deps', freed := deps, [];
    var todo := deps.Keys;
    while todo != {}
      invariant PartErased(deps, n, todo, deps', freed)
      decreases |todo|
    {
      var b := AnyOf(todo);
      EraseStep(deps, n, todo, deps', freed, b);
      deps' := deps'[b := deps'[b] - {n}];
      if deps'[b] == {} {
        freed := freed + [b];
      }
      todo := todo - {b};
    }
    ErasedAll(deps, n, deps', freed);
  }

  lemma ErasedAll(deps: map<BlockId, set<Name>>, n: Name, deps': map<BlockId, set<Name>>, freed: seq<BlockId>)
    requires PartErased(deps, n, {}, deps', freed)
    ensures deps' == Erased(deps, n) && FreedBy(deps, n, freed)
  {
    forall b | b in deps ensures deps'[b] == deps[b] - {n} {
    }
    forall b ensures b in freed <==> b in deps && deps[b] - {n} == {} {
      if b in deps { assert deps[b] == deps[b]; }
    }
  }

  // The queries in done have been looked at.
  ghost predicate PartTaken(
    v: Variable, asker: map<QueryId, Name>, dangling: map<QueryId, Answer>, done: set<QueryId>,
    w: Variable, asker': map<QueryId, Name>, dangling': map<QueryId, Answer>) {
    && w == Variable(v.name, v.pending - done * dangling.Keys, v.answers + Picked(done, dangling))
    && asker' == Asking(done - dangling.Keys, v.name) + asker
    && dangling' == dangling - done
  }

  lemma TakeStep(
    v: Variable, asker: map<QueryId, Name>, dangling: map<QueryId, Answer>, done: set<QueryId>,
    w: Variable, asker': map<QueryId, Name>, dangling': map<QueryId, Answer>, q: QueryId)
    requires PartTaken(v, asker, dangling, done, w, asker', dangling') && q !in done
    ensures q in dangling' ==>
      PartTaken(v, asker, dangling, done + {q}, WithAnswer(w, q, dangling'[q]), asker', dangling' - {q})
    ensures q !in dangling' ==> PartTaken(v, asker, dangling, done + {q}, w, Emplace(asker', q, v.name), dangling')
  {
    PickStep(done, dangling, q);
    if q in dangling {
      assert (done + {q}) * dangling.Keys == done * dangling.Keys + {q};
      assert (done + {q}) - dangling.Keys == done - dangling.Keys;
      assert v.answers + Picked(done, dangling)[q := dangling[q]] ==
        (v.answers + Picked(done, dangling))[q := dangling[q]];
    } else {
      assert (done + {q}) * dangling.Keys == done * dangling.Keys;
      assert (done + {q}) - dangling.Keys == done - dangling.Keys + {q};
      assert dangling - (done + {q}) == dangling - done;
      AskStep(done - dangling.Keys, asker, q, v.name);
    }
  }

  lemma PickStep(done: set<QueryId>, dangling: map<QueryId, Answer>, q: QueryId)
    ensures Picked(done + {q}, dangling) == if q in dangling then Picked(done, dangling)[q := dangling[q]] else
      Picked(done, dangling)
  {
  }

  lemma AskStep(qs: set<QueryId>, asker: map<QueryId, Name>, q: QueryId, n: Name)
    ensures Asking(qs + {q}, n) + asker == Emplace(Asking(qs, n) + asker, q, n)
  {
  }

  method TakeOne(
    ghost v: Variable, ghost asker: map<QueryId, Name>, ghost dangling: map<QueryId, Answer>, ghost done: set<QueryId>,
    w: Variable, asker': map<QueryId, Name>, dangling': map<QueryId, Answer>, q: QueryId)
    returns (w'': Variable, asker'': map<QueryId, Name>, dangling'': map<QueryId, Answer>)
    requires PartTaken(v, asker, dangling, done, w, asker', dangling') && q !in done && w.name == v.name
    ensures PartTaken(v, asker, dangling, done + {q}, w'', asker'', dangling'') && w''.name == v.name
  {
    TakeStep(v, asker, dangling, done, w, asker', dangling', q);
    hide PartTaken;
    w'', asker'', dangling'' := w, asker', dangling';
    if q in dangling' {
      w'' := WithAnswer(w, q, dangling'[q]);
      dangling'' := dangling' - {q};
    } else {
      asker'' := Emplace(asker', q, w.name);
    }
  }

  // A variable's queries: early answers are taken up, the others are waited for.
  method TakeUp(v: Variable, asker: map<QueryId, Name>, dangling: map<QueryId, Answer>)
    returns (w: Variable, asker': map<QueryId, Name>, dangling': map<QueryId, Answer>)
    ensures w == Filled(v, dangling) && asker' == Asking(w.pending, v.name) + asker && dangling' == dangling - v.pending
  {
    hide PartTaken, Asking, Picked, WithAnswer, Emplace, Filled;
    w, asker', dangling' := v, asker, dangling;
    var todo := v.pending;
    ghost var done := {};
    TakenNone(v, asker, dangling);
    while todo != {}
      invariant done !! todo && done + todo == v.pending && w.name == v.name &&
        PartTaken(v, asker, dangling, done, w, asker', dangling')
      decreases |todo|
    {
      var q := AnyOf(todo);
      w, asker', dangling' := TakeOne(v, asker, dangling, done, w, asker', dangling', q);
      todo, done := todo - {q}, done + {q};
    }
    TakenAll(v, asker, dangling, w, asker', dangling');
  }

  lemma TakenNone(v: Variable, asker: map<QueryId, Name>, dangling: map<QueryId, Answer>)
    ensures PartTaken(v, asker, dangling, {}, v, asker, dangling)
  {
  }

  lemma TakenAll(
    v: Variable, asker: map<QueryId, Name>, dangling: map<QueryId, Answer>,
    w: Variable, asker': map<QueryId, Name>, dangling': map<QueryId, Answer>)
    requires PartTaken(v, asker, dangling, v.pending, w, asker', dangling')
    ensures w == Filled(v, dangling) && asker' == Asking(w.pending, v.name) + asker && dangling' == dangling - v.pending
  {
    assert v.pending - v.pending * dangling.Keys == v.pending - dangling.Keys;
  }

  // The blocks waiting and released agree with the variables present.
  ghost predicate Scheduled(
    declared: map<BlockId, set<Name>>, present: set<Name>, deps: map<BlockId, set<Name>>, pending: set<BlockId>,
    started: seq<BlockId>) {
    deps == Remaining(declared, present) && pending == deps.Keys && Released(started, declared, present)
  }

  // The freed blocks leave the waiting ones and queue up.
  method MoveFreed(deps: map<BlockId, set<Name>>, pending: set<BlockId>, ready: seq<BlockId>, freed: seq<BlockId>)
    returns (deps': map<BlockId, set<Name>>, pending': set<BlockId>, ready': seq<BlockId>)
    ensures deps' == deps - Elements(freed) && pending' == pending - Elements(freed) && ready' == ready + freed
  {
    deps', pending', ready' := deps, pending, ready;
    for i := 0 to |freed|
      invariant deps' == deps - Elements(freed[..i]) && pending' == pending - Elements(freed[..i]) &&
        ready' == ready + freed[..i]
    {
      assert freed[..i + 1] == freed[..i] + [freed[i]];
      assert Elements(freed[..i + 1]) == Elements(freed[..i]) + {freed[i]};
      pending' := pending' - {freed[i]};
      deps' := deps' - {freed[i]};
      ready' := ready' + [freed[i]];
    }
    assert freed[..|freed|] == freed;
  }

  method Release(
    ghost declared: map<BlockId, set<Name>>, ghost present: set<Name>, ghost taken: seq<BlockId>, n: Name,
    deps: map<BlockId, set<Name>>, pending: set<BlockId>, ready: seq<BlockId>)
    returns (deps': map<BlockId, set<Name>>, pending': set<BlockId>, ready': seq<BlockId>)
    requires Scheduled(declared, present, deps, pending, taken + ready)
    ensures Scheduled(declared, present + {n}, deps', pending', taken + ready')
  {
    var freed;
    deps', freed := EraseDependency(deps, n);
    assert deps'.Keys == deps.Keys;
    RemainingNext(declared, present, n, freed);
    ReleasedNext(taken + ready, declared, present, n, freed);
    hide FreedBy, Released, Remaining, Erased, Elements;
    deps', pending', ready' := MoveFreed(deps', pending, ready, freed);
    assert taken + (ready + freed) == taken + ready + freed;
  }

  class RequestContext {
    var initialized: bool
    var readyBlocks: seq<BlockId>
    var pendingBlocks: set<BlockId>
    var blockDeps: map<BlockId, set<Name>>
    var vars: map<Name, Variable>
    var waitingVars: map<Name, Variable>
    var qidVarMap: map<QueryId, Name>
    var danglingResults: map<QueryId, Answer>
    ghost var declared: map<BlockId, set<Name>>
    var taken: seq<BlockId>

    ghost function State(): Core
      reads this
    {
      Core(vars, waitingVars, qidVarMap, danglingResults)
    }

    ghost predicate Valid()
      reads this
    {
      Scheduled(declared, vars.Keys, blockDeps, pendingBlocks, taken + readyBlocks)
    }

    constructor ()
      ensures Valid() && !initialized && declared == map[] && taken == [] && State() == NOTHING
    {
      initialized, readyBlocks, pendingBlocks, blockDeps := false, [], {}, map[];
      vars, waitingVars, qidVarMap, danglingResults := map[], map[], map[], map[];
      declared, taken := map[], [];
    }

    /** Blocks without dependencies are ready at once; a context already set up is a fatal error. */
    method SetExecBlocks(blocks: seq<ExecBlock>) returns (ok: bool)
      requires Valid() && forall i, j {:trigger blocks[i], blocks[j]} | 0 <= i < j < |blocks| ::
        blocks[i].id != blocks[j].id
      requires !initialized ==> declared == map[] && taken == [] && vars == map[]
      modifies `initialized, `readyBlocks, `pendingBlocks, `blockDeps, `declared
      ensures Valid() && ok == !old(initialized)
      ensures ok ==> initialized && declared == DeclaredBy(blocks)
    {
      if initialized {
        return false;
      }
      EmptySchedule(blockDeps, pendingBlocks, readyBlocks);
      hide Scheduled;
      for i := 0 to |blocks|
        invariant vars.Keys == {} && taken == []
        invariant declared == DeclaredBy(blocks[..i]) && Scheduled(declared, {}, blockDeps, pendingBlocks, readyBlocks)
      {
        var b := blocks[i];
        assert blocks[..i + 1][..i] == blocks[..i];
        NotDeclared(blocks, i);
        Declare(declared, blockDeps, pendingBlocks, readyBlocks, b);
        declared := declared[b.id := b.dependency];
        if b.dependency == {} {
          readyBlocks := readyBlocks + [b.id];
        } else {
          pendingBlocks := pendingBlocks + {b.id};
          blockDeps := blockDeps[b.id := b.dependency];
        }
      }
      assert blocks[..|blocks|] == blocks && taken + readyBlocks == readyBlocks;
      initialized := true;
      ok := true;
    }

    method NextReadyBlock() returns (b: Option<BlockId>)
      requires Valid()
      modifies `readyBlocks, `taken
      ensures Valid() && (b == None <==> old(readyBlocks) == [])
      ensures b.Some? ==> taken == old(taken) + [b.value] && [b.value] + readyBlocks == old(readyBlocks)
      ensures b == None ==> taken == old(taken) && readyBlocks == old(readyBlocks)
    {
      hide Scheduled;
      if readyBlocks == [] {
        return None;
      }
      b := Some(readyBlocks[0]);
      taken, readyBlocks := taken + [readyBlocks[0]], readyBlocks[1..];
      assert taken + readyBlocks == old(taken) + old(readyBlocks);
    }

    // A variable is there: the blocks it was the last one for are released.
    method AddReadyVariable(v: Variable)
      requires Scheduled(declared, vars.Keys, blockDeps, pendingBlocks, taken + readyBlocks)
      modifies `vars, `blockDeps, `pendingBlocks, `readyBlocks
      ensures Scheduled(declared, vars.Keys, blockDeps, pendingBlocks, taken + readyBlocks)
      ensures vars == Emplace(old(vars), v.name, v)
    {
      hide Scheduled;
      ghost var present := vars.Keys;
      vars := Emplace(vars, v.name, v);
      assert vars.Keys == present + {v.name};
      blockDeps, pendingBlocks, readyBlocks :=
        Release(declared, present, taken, v.name, blockDeps, pendingBlocks, readyBlocks);
    }

    // A variable goes where it belongs.
    method Place(v: Variable)
      requires Scheduled(declared, vars.Keys, blockDeps, pendingBlocks, taken + readyBlocks)
      modifies `vars, `waitingVars, `blockDeps, `pendingBlocks, `readyBlocks
      ensures Scheduled(declared, vars.Keys, blockDeps, pendingBlocks, taken + readyBlocks)
      ensures State() == Placed(old(State()), v)
    {
      hide Scheduled;
      if v.Ready() {
        AddReadyVariable(v);
      } else {
        waitingVars := Emplace(waitingVars, v.name, v);
      }
    }

    // One of the variables a block returns.
    method AddReturned(v: Variable)
      requires Valid()
      modifies `vars, `waitingVars, `qidVarMap, `danglingResults, `blockDeps, `pendingBlocks, `readyBlocks
      ensures Valid() && State() == Registered(old(State()), v)
    {
      hide Scheduled, Filled, Asking;
      var w;
      w, qidVarMap, danglingResults := TakeUp(v, qidVarMap, danglingResults);
      Place(w);
    }

    /** A block's return values. */
    method AddBlockReturn(vs: seq<Variable>)
      requires Valid()
      modifies `vars, `waitingVars, `qidVarMap, `danglingResults, `blockDeps, `pendingBlocks, `readyBlocks
      ensures Valid() && State() == RegisteredAll(old(State()), vs)
    {
      hide Scheduled, Registered;
      for i := 0 to |vs|
        invariant Valid() && State() == RegisteredAll(old(State()), vs[..i])
      {
        assert vs[..i + 1][..i] == vs[..i];
        AddReturned(vs[i]);
      }
      assert vs[..|vs|] == vs;
    }

    /** A query result, before or after the block return that asks for it. False: a lookup fails. */
    method HandleQueryResult(q: QueryId, a: Answer) returns (ok: bool)
      requires Valid()
      modifies `vars, `waitingVars, `qidVarMap, `danglingResults, `blockDeps, `pendingBlocks, `readyBlocks
      ensures Valid() && Delivered(old(State()), q, a) == if ok then Some(State()) else None
    {
      hide Scheduled, WithAnswer;
      ok := true;
      if q !in qidVarMap {
        danglingResults := Emplace(danglingResults, q, a);
        return;
      }
      var n := qidVarMap[q];
      qidVarMap := qidVarMap - {q};
      if n !in waitingVars || q !in waitingVars[n].pending {
        return false;
      }
      var w := WithAnswer(waitingVars[n], q, a);
      if w.Ready() {
        waitingVars := waitingVars - {n};
        AddReadyVariable(w);
      } else {
        waitingVars := waitingVars[n := w];
      }
    }

    method Handle(e: Event) returns (ok: bool)
      requires Valid()
      modifies `vars, `waitingVars, `qidVarMap, `danglingResults, `blockDeps, `pendingBlocks, `readyBlocks, `taken
      ensures Valid() && Step(old(State()), e) == if ok then Some(State()) else None
    {
      hide Scheduled, Delivered, RegisteredAll;
      ok := true;
      match e
      case Return(vs) => AddBlockReturn(vs);
      case Result(q, a) => ok := HandleQueryResult(q, a);
      case Next => var _ := NextReadyBlock();
    }
  }

  // The declared dependencies of the blocks.
  ghost function DeclaredBy(blocks: seq<ExecBlock>): map<BlockId, set<Name>> {
    if blocks == [] then map[]
    else DeclaredBy(blocks[..|blocks| - 1])[blocks[|blocks| - 1].id := blocks[|blocks| - 1].dependency]
  }

  lemma {:induction false} DeclaredIds(blocks: seq<ExecBlock>, id: BlockId)
    ensures id in DeclaredBy(blocks) <==> exists i {:trigger blocks[i]} :: 0 <= i < |blocks| && blocks[i].id == id
  {
    if blocks != [] {
      var n := |blocks| - 1;
      DeclaredIds(blocks[..n], id);
      if id in DeclaredBy(blocks[..n]) {
        var i :| 0 <= i < n && blocks[..n][i].id == id;
        assert blocks[i].id == id;
      }
      if i :| 0 <= i < |blocks| && blocks[i].id == id {
        assert i < n ==> blocks[..n][i].id == id;
      }
    }
  }

  lemma NotDeclared(blocks: seq<ExecBlock>, i: int)
    requires 0 <= i < |blocks| && forall i, j {:trigger blocks[i], blocks[j]} | 0 <= i < j < |blocks| ::
      blocks[i].id != blocks[j].id
    ensures blocks[i].id !in DeclaredBy(blocks[..i])
  {
    DeclaredIds(blocks[..i], blocks[i].id);
  }

  lemma EmptySchedule(deps: map<BlockId, set<Name>>, pending: set<BlockId>, ready: seq<BlockId>)
    requires Scheduled(map[], {}, deps, pending, [] + ready)
    ensures Scheduled(map[], {}, deps, pending, ready)
  {
    assert [] + ready == ready;
  }

  lemma Declare(
      declared: map<BlockId, set<Name>>, deps: map<BlockId, set<Name>>, pending: set<BlockId>, ready: seq<BlockId>,
      b: ExecBlock)
    requires Scheduled(declared, {}, deps, pending, ready) && b.id !in declared
    ensures var declared' := declared[b.id := b.dependency];
      if b.dependency == {} then Scheduled(declared', {}, deps, pending, ready + [b.id])
      else Scheduled(declared', {}, deps[b.id := b.dependency], pending + {b.id}, ready)
  {
    var declared' := declared[b.id := b.dependency];
    assert b.id !in ready;
    assert b.dependency - {} == b.dependency;
    forall c | c in declared' ensures c != b.id ==> c in declared && declared'[c] == declared[c] {
    }
    if b.dependency == {} {
      assert Remaining(declared', {}) == deps;
    } else {
      assert Remaining(declared', {}) == deps[b.id := b.dependency];
      assert !(b.dependency <= {});
    }
  }

  datatype Event = Return(vs: seq<Variable>) | Result(query: QueryId, answer: Answer) | Next

  const NOTHING := Core(map[], map[], map[], map[])

  ghost function Step(c: Core, e: Event): Option<Core> {
    match e
    case Return(vs) => Some(RegisteredAll(c, vs))
    case Result(q, a) => Delivered(c, q, a)
    case Next => Some(c)
  }

  /** The variables and results after some events; None: a lookup has failed. */
  ghost function FlowOf(events: seq<Event>): Option<Core> {
    if events == [] then Some(NOTHING)
    else
      match FlowOf(events[..|events| - 1])
      case None => None
      case Some(c) => Step(c, events[|events| - 1])
  }

  ghost function PastAll(h: Past, vs: seq<Variable>): Past {
    if vs == [] then h else PastReturned(PastAll(h, vs[..|vs| - 1]), vs[|vs| - 1])
  }

  // A list of variables, each new when its turn comes.
  ghost predicate AllNew(h: Past, vs: seq<Variable>) {
    forall i {:trigger vs[i]} | 0 <= i < |vs| :: IsNew(PastAll(h, vs[..i]), vs[i])
  }

  ghost function PastOf(events: seq<Event>): Past {
    if events == [] then Past(map[], map[], map[])
    else
      var h := PastOf(events[..|events| - 1]);
      match events[|events| - 1]
      case Return(vs) => PastAll(h, vs)
      case Result(q, a) => PastArrived(h, q, a)
      case Next => h
  }

  // Each step is possible after what came before: returned variables are new, and a query is answered once.
  ghost predicate Possible(h: Past, e: Event) {
    match e
    case Return(vs) => AllNew(h, vs)
    case Result(q, _) => q !in h.arrived
    case Next => true
  }

  ghost predicate AllPossible(events: seq<Event>) {
    forall i {:trigger events[i]} | 0 <= i < |events| :: Possible(PastOf(events[..i]), events[i])
  }

  lemma AllNewFirst(h: Past, vs: seq<Variable>)
    requires AllNew(h, vs) && vs != []
    ensures var n := |vs| - 1; AllNew(h, vs[..n]) && IsNew(PastAll(h, vs[..n]), vs[n])
  {
    hide IsNew, PastAll;
    var n := |vs| - 1;
    forall i | 0 <= i < n ensures IsNew(PastAll(h, vs[..n][..i]), vs[..n][i]) {
      assert vs[..n][..i] == vs[..i] && vs[..n][i] == vs[i];
      assert IsNew(PastAll(h, vs[..i]), vs[i]);
    }
  }

  lemma {:induction false} RegisteredAllIs(h: Past, vs: seq<Variable>)
    requires Consistent(h) && AllNew(h, vs)
    ensures Consistent(PastAll(h, vs)) && RegisteredAll(CoreOf(h), vs) == CoreOf(PastAll(h, vs))
  {
    hide Consistent, AllNew, CoreOf, Registered, IsNew;
    if vs != [] {
      var n := |vs| - 1;
      AllNewFirst(h, vs);
      RegisteredAllIs(h, vs[..n]);
      RegisteredIs(PastAll(h, vs[..n]), vs[n]);
      ReturnKeepsConsistent(PastAll(h, vs[..n]), vs[n]);
    }
  }

  lemma ArrivalKeepsConsistent(h: Past, q: QueryId, a: Answer)
    requires Consistent(h)
    ensures Consistent(PastArrived(h, q, a))
  {
  }

  lemma NothingIs()
    ensures Consistent(Past(map[], map[], map[])) && CoreOf(Past(map[], map[], map[])) == NOTHING
  {
  }

  lemma FirstPossible(events: seq<Event>)
    requires AllPossible(events) && events != []
    ensures var n := |events| - 1; AllPossible(events[..n]) && Possible(PastOf(events[..n]), events[n])
  {
    hide Possible, PastOf;
    var n := |events| - 1;
    forall i | 0 <= i < n ensures Possible(PastOf(events[..n][..i]), events[..n][i]) {
      assert events[..n][..i] == events[..i] && events[..n][i] == events[i];
      assert Possible(PastOf(events[..i]), events[i]);
    }
  }

  /** In every possible run no lookup fails, and the state is the one that the past calls for, whatever the order. */
  lemma {:induction false} FlowIsPast(events: seq<Event>)
    requires AllPossible(events)
    ensures FlowOf(events) == Some(CoreOf(PastOf(events))) && Consistent(PastOf(events))
  {
    hide CoreOf, Consistent, AllPossible, RegisteredAll, Delivered, PastAll, PastArrived, AllNew;
    if events == [] {
      NothingIs();
    } else {
      var n := |events| - 1;
      FirstPossible(events);
      FlowIsPast(events[..n]);
      var h := PastOf(events[..n]);
      match events[n]
      case Return(vs) => RegisteredAllIs(h, vs);
      case Result(q, a) =>
        DeliveredIs(h, q, a);
        ArrivalKeepsConsistent(h, q, a);
      case Next =>
    }
  }

  /** The variables returned whose every query has been answered. */
  ghost function Present(h: Past): set<Name> {
    set n | n in h.returned && h.returned[n].pending <= h.arrived.Keys
  }

  /** In every possible run the variables present are those returned whose every query has been answered. */
  lemma PresentIs(events: seq<Event>)
    requires AllPossible(events)
    ensures FlowOf(events).Some? && FlowOf(events).value.vars.Keys == Present(PastOf(events))
  {
    FlowIsPast(events);
    hide FlowOf, PastOf, AllPossible, Consistent;
    var h := PastOf(events);
    forall n | n in h.returned
      ensures Filled(h.returned[n], h.arrived).Ready() <==> h.returned[n].pending <= h.arrived.Keys
    {
      var v := h.returned[n];
      if v.pending - h.arrived.Keys == {} {
        forall q | q in v.pending ensures q in h.arrived {
          assert q in h.arrived.Keys || q in v.pending - h.arrived.Keys;
        }
      }
    }
    hide Filled;
  }

  lemma {:induction false} FlowFails(events: seq<Event>, i: nat)
    requires i <= |events| && FlowOf(events[..i]) == None
    ensures FlowOf(events) == None
    decreases |events| - i
  {
    hide Step;
    if i < |events| {
      assert events[..i + 1][..i] == events[..i];
      FlowFails(events, i + 1);
    } else {
      assert events[..i] == events;
    }
  }

  /**
   Every run: the blocks released, each once, are those whose dependencies are present,
   and the others wait for exactly what is missing.
   */
  method Run(blocks: seq<ExecBlock>, events: seq<Event>)
    returns (ok: bool, released: seq<BlockId>, lacking: map<BlockId, set<Name>>, values: map<Name, Variable>)
    requires forall i, j {:trigger blocks[i], blocks[j]} | 0 <= i < j < |blocks| :: blocks[i].id != blocks[j].id
    ensures ok <==> FlowOf(events).Some?
    ensures ok ==>
      && values == FlowOf(events).value.vars && Released(released, DeclaredBy(blocks), values.Keys)
      && lacking == Remaining(DeclaredBy(blocks), values.Keys)
  {
    hide Released, Remaining, Step;
    var ctx := new RequestContext();
    var _ := ctx.SetExecBlocks(blocks);
    for k := 0 to |events|
      invariant fresh(ctx) && ctx.Valid() && ctx.declared == DeclaredBy(blocks) &&
        FlowOf(events[..k]) == Some(ctx.State())
    {
      assert events[..k + 1][..k] == events[..k];
      ok := ctx.Handle(events[k]);
      if !ok {
        FlowFails(events, k + 1);
        return false, [], map[], map[];
      }
    }
    assert events[..|events|] == events;
    ok, released, lacking, values := true, ctx.taken + ctx.readyBlocks, ctx.blockDeps, ctx.vars;
  }
}
