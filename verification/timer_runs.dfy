/** The blocking executor as a state machine: timers, the callback queue and the timer descriptor. */
module TimerRuns {
  import opened Wrappers
  import opened TimerQueue

  /**
   The timer descriptor as the event loop sees it: when it will expire, whether an
   expiration waits to be reported by epoll, and how many workers have received
   the report without having taken the lock yet.
   */
  datatype Alarm = Alarm(armed: Option<int>, ready: bool, inFlight: nat)

  // Setting the descriptor discards an unreported expiration; the time zero disarms it.
  function SetTimer(alarm: Alarm, timeout: nat): Alarm {
    alarm.(armed := if timeout == 0 then None else Some(timeout), ready := false)
  }

  /** A timer: the callbacks it holds, and when it is due if it waits. */
  datatype Timer = Timer(held: seq<Callback>, due: Option<int>)

  const IDLE := Timer([], None)

  /** Callbacks run and about to run, the timers, and the descriptor. */
  datatype Loop = Loop(executed: seq<Bind>, queued: seq<Bind>, timers: seq<Timer>, alarm: Alarm)

  /** What can happen to the executor: calls on numbered timers, the passing of time, and the workers' steps. */
  datatype Event =
    | Schedule(timer: nat, timeout: int, callback: Callback)
    | Cancel(timer: nat)
    | Move(dst: nat, src: nat)
    | TimePasses(now: int)
    | Report
    | Work(now: int)
    | RunCallback
  {
    // No timeout at or before the epoch, and a clock not before it.
    predicate Gentle() {
      match this
      case Schedule(_, t, _) => t > 0
      case Work(now) => now >= 0
      case _ => true
    }
  }

  // The earliest due time.
  function NextDue(timers: seq<Timer>): Option<int> {
    if timers == [] then None
    else
      var t, before := timers[|timers| - 1].due, NextDue(timers[..|timers| - 1]);
      if t == None || (before.Some? && before.value <= t.value) then before else t
  }

  // A timer that does not wait would be due before all others.
  predicate Leads(timers: seq<Timer>, i: nat, timeout: int)
    requires i < |timers|
  {
    timers[i].due == None && (NextDue(timers) == None || timeout < NextDue(timers).value)
  }

  // A waiting timer only gets another callback.
  function Waits(t: Timer, timeout: int, c: Callback): Timer {
    Timer(t.held + [c], if t.due == None then Some(timeout) else t.due)
  }

  /** A timer is scheduled; a new earliest one sets the descriptor, which must not be to a negative time. */
  function Scheduled(s: Loop, i: nat, timeout: int, c: Callback): Option<Loop>
    requires i < |s.timers|
  {
    var timers := s.timers[i := Waits(s.timers[i], timeout, c)];
    if !Leads(s.timers, i, timeout) then Some(s.(timers := timers))
    else if timeout < 0 then None
    else Some(s.(timers := timers, alarm := SetTimer(s.alarm, timeout)))
  }

  /** All callbacks of a timer are delivered as cancelled. */
  function Cancels(s: Loop, i: nat): Loop
    requires i < |s.timers|
  {
    s.(queued := s.queued + Bound(s.timers[i].held, Cancelled), timers := s.timers[i := IDLE])
  }

  /** The target's callbacks are cancelled, then it takes over what the source had. */
  function Moves(s: Loop, dst: nat, src: nat): Loop
    requires dst < |s.timers| && src < |s.timers|
  {
    if dst == src then s
    else
      var s' := Cancels(s, dst);
      s'.(timers := s'.timers[dst := s.timers[src]][src := IDLE])
  }

  predicate DueBy(t: Timer, now: int) {
    t.due.Some? && t.due.value <= now
  }

  function DueAt(timers: seq<Timer>, i: nat): int {
    if i < |timers| && timers[i].due.Some? then timers[i].due.value else 0
  }

  // Some timers' callbacks, one timer after the other.
  function ReadyOf(timers: seq<Timer>, order: seq<nat>): seq<Bind> {
    if order == [] then []
    else
      var i := order[|order| - 1];
      ReadyOf(timers, order[..|order| - 1]) + if i < |timers| then Bound(timers[i].held, Ok) else []
  }

  // The timers that are due have given up what they held.
  function Emptied(timers: seq<Timer>, now: int): (r: seq<Timer>)
    ensures |r| == |timers|
  {
    seq(|timers|, i requires 0 <= i < |timers| => if DueBy(timers[i], now) then IDLE else timers[i])
  }

  /** The due timers, each once, in the order of their due times. */
  ghost predicate Ripe(timers: seq<Timer>, now: int, order: seq<nat>) {
    && NoRepeats(order)
    && (forall i: nat {:trigger i in order} {:trigger timers[i]} ::
          i in order <==> i < |timers| && DueBy(timers[i], now))
    && (forall j, k {:trigger order[j], order[k]} | 0 <= j < k < |order| ::
          DueAt(timers, order[j]) <= DueAt(timers, order[k]))
  }

  /** A worker handles the timer event: what is due is delivered, and the descriptor is set for what is left. */
  function Worked(s: Loop, now: int, order: seq<nat>): Option<Loop> {
    if s.alarm.inFlight == 0 then Some(s)
    else
      var timers, alarm := Emptied(s.timers, now), s.alarm.(inFlight := s.alarm.inFlight - 1);
      var s' := s.(queued := s.queued + ReadyOf(s.timers, order), timers := timers, alarm := alarm);
      match NextDue(timers)
      case None => Some(s')
      case Some(t) => if t < 0 then None else Some(s'.(alarm := SetTimer(alarm, t)))
  }

  // The armed time passes.
  function Expired(alarm: Alarm, now: int): Alarm {
    if alarm.armed.Some? && alarm.armed.value <= now then alarm.(armed := None, ready := true) else alarm
  }

  // A worker's epoll_wait returns the timer event. It is edge-triggered: reported once.
  function Reported(alarm: Alarm): Alarm {
    if alarm.ready then alarm.(ready := false, inFlight := alarm.inFlight + 1) else alarm
  }

  /** One event; `order` is the order in which due timers leave the heap. None: the process ends. */
  function Step(s: Loop, e: Event, order: seq<nat>): Option<Loop> {
    match e
    case Schedule(i, timeout, c) => if i < |s.timers| then Scheduled(s, i, timeout, c) else Some(s)
    case Cancel(i) => Some(if i < |s.timers| then Cancels(s, i) else s)
    case Move(i, j) => Some(if i < |s.timers| && j < |s.timers| then Moves(s, i, j) else s)
    case TimePasses(now) => Some(s.(alarm := Expired(s.alarm, now)))
    case Report => Some(s.(alarm := Reported(s.alarm)))
    case Work(now) => Worked(s, now, order)
    case RunCallback =>
      Some(if s.queued == [] then s else s.(executed := s.executed + [s.queued[0]], queued := s.queued[1..]))
  }

  function Start(n: nat): Loop {
    Loop([], [], seq(n, _ => IDLE), Alarm(None, false, 0))
  }

  /** The executor of n timers after some events, or None if the process has ended. */
  function RunOf(n: nat, events: seq<Event>, orders: seq<seq<nat>>): Option<Loop>
    requires |events| == |orders|
  {
    if events == [] then Some(Start(n))
    else
      var k := |events| - 1;
      match RunOf(n, events[..k], orders[..k])
      case None => None
      case Some(s) => Step(s, events[k], orders[k])
  }

  // Due timers leave in the order of their due times.
  ghost predicate InTurn(s: Loop, e: Event, order: seq<nat>) {
    e.Work? && s.alarm.inFlight > 0 ==> Ripe(s.timers, e.now, order)
  }

  /** The orders are those of due times; only timers due at the same time may come either way round. */
  ghost predicate AllInTurn(n: nat, events: seq<Event>, orders: seq<seq<nat>>)
    requires |events| == |orders|
  {
    if events == [] then true
    else
      var k := |events| - 1;
      var before := RunOf(n, events[..k], orders[..k]);
      AllInTurn(n, events[..k], orders[..k]) && (before.Some? ==> InTurn(before.value, events[k], orders[k]))
  }

  // A timer holds callbacks exactly while it waits.
  ghost predicate Tidy(s: Loop) {
    forall i {:trigger s.timers[i]} | 0 <= i < |s.timers| :: s.timers[i].held != [] <==> s.timers[i].due.Some?
  }

  lemma StepTidy(s: Loop, e: Event, order: seq<nat>)
    requires Tidy(s)
    ensures Step(s, e, order).Some? ==>
      Tidy(Step(s, e, order).value) && |Step(s, e, order).value.timers| == |s.timers|
  {
    hide NextDue, ReadyOf;
  }

  lemma {:induction false} RunTidy(n: nat, events: seq<Event>, orders: seq<seq<nat>>)
    requires |events| == |orders| && RunOf(n, events, orders).Some?
    ensures Tidy(RunOf(n, events, orders).value) && |RunOf(n, events, orders).value.timers| == n
  {
    hide Step;
    if events != [] {
      var k := |events| - 1;
      RunTidy(n, events[..k], orders[..k]);
      hide Tidy;
      StepTidy(RunOf(n, events[..k], orders[..k]).value, events[k], orders[k]);
    }
  }

  lemma {:induction false} NextDueIs(timers: seq<Timer>)
    ensures NextDue(timers) == None <==> forall i {:trigger timers[i]} | 0 <= i < |timers| :: timers[i].due == None
    ensures NextDue(timers).Some? ==>
      && (exists i {:trigger timers[i]} :: 0 <= i < |timers| && timers[i].due == NextDue(timers))
      && forall i {:trigger timers[i]} | 0 <= i < |timers| && timers[i].due.Some? ::
           NextDue(timers).value <= timers[i].due.value
  {
    if timers != [] {
      var n := |timers| - 1;
      var before := timers[..n];
      NextDueIs(before);
      forall i | 0 <= i < n ensures before[i] == timers[i] {
      }
      if NextDue(before).Some? {
        var i :| 0 <= i < n && before[i].due == NextDue(before);
        assert timers[i] == before[i];
      }
      assert timers[n] == timers[n];
    }
  }

  function Count(s: seq<Callback>, c: Callback): nat {
    multiset(s)[c]
  }

  lemma CountMore(a: seq<Callback>, b: seq<Callback>, c: Callback)
    ensures Count(a + b, c) == Count(a, c) + Count(b, c)
  {
    assert multiset(a + b) == multiset(a) + multiset(b);
  }

  // How often the timers hold a callback.
  function HeldIn(timers: seq<Timer>, c: Callback): nat {
    if timers == [] then 0 else HeldIn(timers[..|timers| - 1], c) + Count(timers[|timers| - 1].held, c)
  }

  lemma {:induction false} HeldAfter(timers: seq<Timer>, i: nat, t: Timer, c: Callback)
    requires i < |timers|
    ensures HeldIn(timers[i := t], c) == HeldIn(timers, c) - Count(timers[i].held, c) + Count(t.held, c)
  {
    hide Count;
    var n := |timers| - 1;
    var timers' := timers[i := t];
    if i < n {
      HeldAfter(timers[..n], i, t, c);
      assert timers'[..n] == timers[..n][i := t] && timers'[n] == timers[n];
    } else {
      assert timers'[..n] == timers[..n];
    }
  }

  // How often some binds have a callback.
  function Bindings(binds: seq<Bind>, c: Callback): nat {
    Count(Callbacks(binds), c)
  }

  lemma BindingsMore(a: seq<Bind>, b: seq<Bind>, c: Callback)
    ensures Bindings(a + b, c) == Bindings(a, c) + Bindings(b, c)
  {
    assert Callbacks(a + b) == Callbacks(a) + Callbacks(b);
    CountMore(Callbacks(a), Callbacks(b), c);
    hide Count;
  }

  lemma BindingsOf(held: seq<Callback>, error: Error, c: Callback)
    ensures Bindings(Bound(held, error), c) == Count(held, c)
  {
  }

  /** How often a callback has been run, is queued, or is held. */
  function Places(s: Loop, c: Callback): nat {
    Bindings(s.executed, c) + Bindings(s.queued, c) + HeldIn(s.timers, c)
  }

  // The timers after those in a list have given up what they held.
  ghost function EmptiedOf(timers: seq<Timer>, order: seq<nat>): (r: seq<Timer>)
    ensures |r| == |timers|
  {
    if order == [] then timers
    else
      var i, before := order[|order| - 1], EmptiedOf(timers, order[..|order| - 1]);
      if i < |timers| then before[i := IDLE] else before
  }

  lemma {:induction false} EmptiedOfIs(timers: seq<Timer>, order: seq<nat>, i: nat)
    requires i < |timers|
    ensures EmptiedOf(timers, order)[i] == if i in order then IDLE else timers[i]
  {
    if order != [] {
      var n := |order| - 1;
      EmptiedOfIs(timers, order[..n], i);
      assert order == order[..n] + [order[n]];
    }
  }

  lemma EmptiedTwice(timers: seq<Timer>, now: int, order: seq<nat>)
    requires Ripe(timers, now, order)
    ensures EmptiedOf(timers, order) == Emptied(timers, now)
  {
    forall i | 0 <= i < |timers| ensures EmptiedOf(timers, order)[i] == Emptied(timers, now)[i] {
      EmptiedOfIs(timers, order, i);
      assert i in order <==> DueBy(timers[i], now);
    }
  }

  lemma {:induction false} ReadyConserves(timers: seq<Timer>, order: seq<nat>, c: Callback)
    requires NoRepeats(order)
    ensures HeldIn(EmptiedOf(timers, order), c) + Bindings(ReadyOf(timers, order), c) == HeldIn(timers, c)
  {
    if order != [] {
      hide Count, HeldIn, Bound;
      var n := |order| - 1;
      var i, before := order[n], order[..n];
      assert NoRepeats(before) && i !in before by { FirstDistinct(order); }
      hide NoRepeats;
      ReadyConserves(timers, before, c);
      if i < |timers| {
        EmptiedOfIs(timers, before, i);
        HeldAfter(EmptiedOf(timers, before), i, IDLE, c);
        BindingsOf(timers[i].held, Ok, c);
        BindingsMore(ReadyOf(timers, before), Bound(timers[i].held, Ok), c);
        NoCount(c);
        hide Bindings;
      } else {
        assert ReadyOf(timers, order) == ReadyOf(timers, before);
      }
    }
  }

  lemma NoCount(c: Callback)
    ensures Count([], c) == 0
  {
  }

  lemma FirstDistinct(order: seq<nat>)
    requires NoRepeats(order) && order != []
    ensures var n := |order| - 1; NoRepeats(order[..n]) && order[n] !in order[..n]
  {
  }

  // What an event hands to the executor.
  function Accepts(e: Event, n: nat): seq<Callback> {
    if e.Schedule? && e.timer < n then [e.callback] else []
  }

  lemma CancelConserves(s: Loop, i: nat, c: Callback)
    requires i < |s.timers|
    ensures Places(Cancels(s, i), c) == Places(s, c)
  {
    HeldAfter(s.timers, i, IDLE, c);
    NoCount(c);
    BindingsOf(s.timers[i].held, Cancelled, c);
    BindingsMore(s.queued, Bound(s.timers[i].held, Cancelled), c);
    hide Count, Bindings, Bound, HeldIn;
  }

  lemma MoveConserves(s: Loop, i: nat, j: nat, c: Callback)
    requires i < |s.timers| && j < |s.timers|
    ensures Places(Moves(s, i, j), c) == Places(s, c)
  {
    hide Count, Bindings, Bound, HeldIn;
    if i != j {
      CancelConserves(s, i, c);
      NoCount(c);
      var timers := Cancels(s, i).timers;
      HeldAfter(timers, i, s.timers[j], c);
      HeldAfter(timers[i := s.timers[j]], j, IDLE, c);
    }
  }

  lemma WorkConserves(s: Loop, now: int, order: seq<nat>, c: Callback)
    requires s.alarm.inFlight > 0 ==> Ripe(s.timers, now, order)
    ensures Worked(s, now, order).Some? ==> Places(Worked(s, now, order).value, c) == Places(s, c)
  {
    if s.alarm.inFlight > 0 {
      ReadyConserves(s.timers, order, c);
      EmptiedTwice(s.timers, now, order);
      BindingsMore(s.queued, ReadyOf(s.timers, order), c);
      hide Bindings, HeldIn, ReadyOf, Emptied, EmptiedOf, NextDue;
    }
  }

  lemma ScheduleConserves(s: Loop, i: nat, timeout: int, x: Callback, c: Callback)
    requires i < |s.timers|
    ensures Scheduled(s, i, timeout, x).Some? ==>
      Places(Scheduled(s, i, timeout, x).value, c) == Places(s, c) + Count([x], c)
  {
    HeldAfter(s.timers, i, Waits(s.timers[i], timeout, x), c);
    CountMore(s.timers[i].held, [x], c);
    hide Count, Bindings, HeldIn, Leads;
  }

  lemma RunConserved(s: Loop, c: Callback)
    requires s.queued != []
    ensures Bindings(s.executed + [s.queued[0]], c) + Bindings(s.queued[1..], c) ==
      Bindings(s.executed, c) + Bindings(s.queued, c)
  {
    BindingsMore(s.executed, [s.queued[0]], c);
    assert s.queued == [s.queued[0]] + s.queued[1..];
    BindingsMore([s.queued[0]], s.queued[1..], c);
    hide Bindings;
  }

  lemma StepConserves(s: Loop, e: Event, order: seq<nat>, c: Callback)
    requires InTurn(s, e, order) && Step(s, e, order).Some?
    ensures Places(Step(s, e, order).value, c) == Places(s, c) + Count(Accepts(e, |s.timers|), c)
  {
    hide HeldIn, Bindings, Scheduled, Cancels, Moves, Worked, Ripe, Count;
    NoCount(c);
    match e
    case Schedule(i, timeout, x) => if i < |s.timers| { ScheduleConserves(s, i, timeout, x, c); }
    case Cancel(i) => if i < |s.timers| { CancelConserves(s, i, c); }
    case Move(i, j) => if i < |s.timers| && j < |s.timers| { MoveConserves(s, i, j, c); }
    case Work(now) => WorkConserves(s, now, order, c);
    case RunCallback => if s.queued != [] { RunConserved(s, c); }
    case _ =>
  }

  // The callbacks scheduled on existing timers.
  function Accepted(n: nat, events: seq<Event>): seq<Callback> {
    if events == [] then [] else Accepted(n, events[..|events| - 1]) + Accepts(events[|events| - 1], n)
  }

  /** Every run: a callback has been run, is queued and is held as often, in all, as it was scheduled. */
  lemma {:induction false} RunConserves(n: nat, events: seq<Event>, orders: seq<seq<nat>>, c: Callback)
    requires |events| == |orders| && AllInTurn(n, events, orders) && RunOf(n, events, orders).Some?
    ensures Places(RunOf(n, events, orders).value, c) == Count(Accepted(n, events), c)
  {
    if events == [] {
      StartIsEmpty(n, c);
    } else {
      hide Step, Places, Accepts, InTurn, Count;
      var k := |events| - 1;
      RunTidy(n, events[..k], orders[..k]);
      hide Tidy;
      RunConserves(n, events[..k], orders[..k], c);
      StepConserves(RunOf(n, events[..k], orders[..k]).value, events[k], orders[k], c);
      CountMore(Accepted(n, events[..k]), Accepts(events[k], n), c);
    }
  }

  lemma {:induction false} StartIsEmpty(n: nat, c: Callback)
    ensures HeldIn(seq(n, _ => IDLE), c) == 0
  {
    if n > 0 {
      StartIsEmpty(n - 1, c);
      assert seq(n, _ => IDLE)[..n - 1] == seq(n - 1, _ => IDLE);
    }
  }

  // No callback is scheduled twice: each is an object of its own.
  ghost predicate OwnCallbacks(events: seq<Event>) {
    forall i, j {:trigger events[i], events[j]} | 0 <= i < j < |events| && events[i].Schedule? && events[j].Schedule? ::
      events[i].callback != events[j].callback
  }

  lemma {:induction false} AcceptedCame(n: nat, events: seq<Event>, c: Callback)
    requires c in Accepted(n, events)
    ensures exists i {:trigger events[i]} :: 0 <= i < |events| && events[i].Schedule? && events[i].callback == c
  {
    var k := |events| - 1;
    if c in Accepted(n, events[..k]) {
      AcceptedCame(n, events[..k], c);
      var i :| 0 <= i < k && events[..k][i].Schedule? && events[..k][i].callback == c;
      assert events[i] == events[..k][i];
    } else {
      assert c in Accepts(events[k], n);
    }
  }

  lemma FirstOwn(events: seq<Event>)
    requires OwnCallbacks(events) && events != []
    ensures OwnCallbacks(events[..|events| - 1])
  {
  }

  // A callback that is about to be scheduled is new.
  lemma ScheduledIsNew(n: nat, events: seq<Event>)
    requires OwnCallbacks(events) && events != [] && events[|events| - 1].Schedule?
    ensures events[|events| - 1].callback !in Accepted(n, events[..|events| - 1])
  {
    var k := |events| - 1;
    if events[k].callback in Accepted(n, events[..k]) {
      AcceptedCame(n, events[..k], events[k].callback);
    }
  }

  lemma {:induction false} AcceptedOnce(n: nat, events: seq<Event>, c: Callback)
    requires OwnCallbacks(events)
    ensures Count(Accepted(n, events), c) <= 1
  {
    if events != [] {
      var k := |events| - 1;
      FirstOwn(events);
      AcceptedOnce(n, events[..k], c);
      if events[k].Schedule? {
        ScheduledIsNew(n, events);
      }
      CountMore(Accepted(n, events[..k]), Accepts(events[k], n), c);
    }
  }

  /** Every run: a scheduled callback is in exactly one place, another one in none. */
  lemma RunOnce(n: nat, events: seq<Event>, orders: seq<seq<nat>>, c: Callback)
    requires |events| == |orders| && AllInTurn(n, events, orders) && RunOf(n, events, orders).Some?
    requires OwnCallbacks(events)
    ensures Places(RunOf(n, events, orders).value, c) == if c in Accepted(n, events) then 1 else 0
  {
    RunConserves(n, events, orders, c);
    AcceptedOnce(n, events, c);
    hide RunOf, Accepted, Places;
  }

  /** The events that the process survives: the descriptor is never set to a negative time. */
  ghost predicate Allowed(s: Loop, e: Event) {
    match e
    case Schedule(i, timeout, _) =>
      i < |s.timers| && s.timers[i].due == None && timeout < 0 ==> DueSooner(s.timers, timeout)
    case Work(now) =>
      s.alarm.inFlight > 0 ==>
        forall i {:trigger s.timers[i]} | 0 <= i < |s.timers| && s.timers[i].due.Some? ::
          !(now < s.timers[i].due.value < 0)
    case _ => true
  }

  // Some timer is due by then.
  ghost predicate DueSooner(timers: seq<Timer>, timeout: int) {
    exists i {:trigger timers[i]} :: 0 <= i < |timers| && DueBy(timers[i], timeout)
  }

  lemma LeadsIff(timers: seq<Timer>, i: nat, timeout: int)
    requires i < |timers|
    ensures Leads(timers, i, timeout) <==> timers[i].due == None && !DueSooner(timers, timeout)
  {
    NextDueIs(timers);
    hide NextDue;
    if NextDue(timers).Some? {
      var j :| 0 <= j < |timers| && timers[j].due == NextDue(timers);
      assert NextDue(timers).value <= timeout ==> DueBy(timers[j], timeout);
    }
  }

  lemma WorkSurvivesIff(s: Loop, now: int, order: seq<nat>)
    ensures Worked(s, now, order).Some? <==> Allowed(s, Work(now))
  {
    if s.alarm.inFlight > 0 {
      var left := Emptied(s.timers, now);
      NextDueIs(left);
      forall i | 0 <= i < |left| ensures left[i] == if DueBy(s.timers[i], now) then IDLE else s.timers[i] {
      }
      hide NextDue, Emptied, ReadyOf;
      if NextDue(left).Some? {
        var i :| 0 <= i < |left| && left[i].due == NextDue(left);
        assert s.timers[i].due == NextDue(left);
      }
    }
  }

  /** A step survives exactly if it is allowed. */
  lemma StepSurvivesIff(s: Loop, e: Event, order: seq<nat>)
    ensures Step(s, e, order).Some? <==> Allowed(s, e)
  {
    hide Leads, Worked, DueSooner;
    if e.Schedule? && e.timer < |s.timers| {
      LeadsIff(s.timers, e.timer, e.timeout);
    } else if e.Work? {
      WorkSurvivesIff(s, e.now, order);
    }
  }

  ghost predicate AllowedAt(n: nat, events: seq<Event>, orders: seq<seq<nat>>, k: nat)
    requires |events| == |orders| && k < |events|
  {
    var s := RunOf(n, events[..k], orders[..k]);
    s.Some? && Allowed(s.value, events[k])
  }

  lemma AllowedEarlier(n: nat, events: seq<Event>, orders: seq<seq<nat>>, k: nat)
    requires |events| == |orders| && k < |events| - 1
    ensures var m := |events| - 1; AllowedAt(n, events, orders, k) <==> AllowedAt(n, events[..m], orders[..m], k)
  {
    hide Allowed;
    var m := |events| - 1;
    assert events[..m][..k] == events[..k] && orders[..m][..k] == orders[..k];
  }

  /** A run survives exactly if each of its events is allowed when it comes. */
  lemma {:induction false} RunSurvivesIff(n: nat, events: seq<Event>, orders: seq<seq<nat>>)
    requires |events| == |orders|
    ensures RunOf(n, events, orders).Some? <==>
      forall k {:trigger AllowedAt(n, events, orders, k)} | 0 <= k < |events| :: AllowedAt(n, events, orders, k)
  {
    if events != [] {
      hide Step, Allowed;
      var m := |events| - 1;
      var a, b := events[..m], orders[..m];
      RunSurvivesIff(n, a, b);
      forall k | 0 <= k < m ensures AllowedAt(n, events, orders, k) <==> AllowedAt(n, a, b, k) {
        AllowedEarlier(n, events, orders, k);
      }
      if RunOf(n, a, b).Some? {
        StepSurvivesIff(RunOf(n, a, b).value, events[m], orders[m]);
        assert AllowedAt(n, events, orders, m) <==> RunOf(n, events, orders).Some?;
        forall k | 0 <= k < m ensures AllowedAt(n, events, orders, k) {
          assert AllowedAt(n, a, b, k);
        }
      } else {
        var k :| 0 <= k < m && !AllowedAt(n, a, b, k);
        assert !AllowedAt(n, events, orders, k);
      }
    }
  }

  /** While a timer waits, the event loop will be woken no later than its due time. */
  ghost predicate Awake(s: Loop) {
    forall i {:trigger s.timers[i]} | 0 <= i < |s.timers| && s.timers[i].due.Some? ::
      Wakes(s.alarm, s.timers[i].due.value)
  }

  predicate Wakes(alarm: Alarm, due: int) {
    alarm.ready || alarm.inFlight > 0 || (alarm.armed.Some? && alarm.armed.value <= due)
  }

  /** The descriptor is set to the time zero, which disarms it, and no worker is about to look. */
  ghost predicate Loses(s: Loop, e: Event) {
    match e
    case Schedule(i, timeout, _) =>
      && i < |s.timers| && s.timers[i].due == None && timeout == 0 && s.alarm.inFlight == 0
      && !DueSooner(s.timers, 0)
    case Work(now) => s.alarm.inFlight == 1 && now < 0 && DueNextAtZero(s.timers, now)
    case _ => false
  }

  // The next timer after now is due at the time zero.
  ghost predicate DueNextAtZero(timers: seq<Timer>, now: int) {
    && (exists i {:trigger timers[i]} :: 0 <= i < |timers| && timers[i].due == Some(0))
    && forall i {:trigger timers[i]} | 0 <= i < |timers| && timers[i].due.Some? ::
         timers[i].due.value <= now || timers[i].due.value >= 0
  }

  lemma ScheduleAwakeIff(s: Loop, i: nat, timeout: int, c: Callback)
    requires Awake(s) && i < |s.timers| && Scheduled(s, i, timeout, c).Some?
    ensures Awake(Scheduled(s, i, timeout, c).value) <==> !Loses(s, Schedule(i, timeout, c))
  {
    LeadsIff(s.timers, i, timeout);
    hide Leads;
    var s' := Scheduled(s, i, timeout, c).value;
    forall j | 0 <= j < |s.timers| && j != i ensures s'.timers[j] == s.timers[j] {
    }
    assert s'.timers[i] == Waits(s.timers[i], timeout, c);
    if Leads(s.timers, i, timeout) {
      forall j | 0 <= j < |s.timers| && s.timers[j].due.Some? ensures timeout < s.timers[j].due.value {
        assert !DueBy(s.timers[j], timeout);
      }
    } else if s.timers[i].due == None {
      var j :| 0 <= j < |s.timers| && DueBy(s.timers[j], timeout);
      assert Wakes(s.alarm, s.timers[j].due.value);
    }
  }

  lemma WorkAwakeIff(s: Loop, now: int, order: seq<nat>)
    requires Awake(s) && Worked(s, now, order).Some?
    ensures Awake(Worked(s, now, order).value) <==> !Loses(s, Work(now))
  {
    if s.alarm.inFlight > 0 {
      var left := Emptied(s.timers, now);
      NextDueIs(left);
      forall i | 0 <= i < |left| ensures left[i] == if DueBy(s.timers[i], now) then IDLE else s.timers[i] {
      }
      hide NextDue, Emptied, ReadyOf;
      var s' := Worked(s, now, order).value;
      assert s'.timers == left;
      if NextDue(left).Some? {
        var i :| 0 <= i < |left| && left[i].due == NextDue(left);
        assert s.timers[i].due == NextDue(left) && now < s.timers[i].due.value;
        LeftAtZero(s.timers, left, now);
        assert Awake(s') <==> Wakes(s'.alarm, NextDue(left).value);
      } else {
        LeftAtZero(s.timers, left, now);
      }
    }
  }

  lemma LeftAtZero(timers: seq<Timer>, left: seq<Timer>, now: int)
    requires |left| == |timers|
    requires forall i {:trigger left[i]} {:trigger timers[i]} | 0 <= i < |left| ::
      left[i] == if DueBy(timers[i], now) then IDLE else timers[i]
    ensures now < 0 && DueNextAtZero(timers, now) <==> NextDue(left) == Some(0)
  {
    NextDueIs(left);
    hide NextDue;
    if NextDue(left) == Some(0) {
      var i :| 0 <= i < |left| && left[i].due == Some(0);
      assert timers[i].due == Some(0);
      forall j | 0 <= j < |timers| && timers[j].due.Some?
        ensures timers[j].due.value <= now || timers[j].due.value >= 0
      {
        assert left[j] == left[j];
      }
    }
    if now < 0 && DueNextAtZero(timers, now) {
      var i :| 0 <= i < |timers| && timers[i].due == Some(0);
      assert left[i].due == Some(0);
      var j :| 0 <= j < |left| && left[j].due == NextDue(left);
      assert timers[j].due == NextDue(left);
    }
  }

  /** A step that survives keeps the wake-up in place exactly if it does not lose it. */
  lemma StepAwakeIff(s: Loop, e: Event, order: seq<nat>)
    requires Awake(s) && Step(s, e, order).Some?
    ensures Awake(Step(s, e, order).value) <==> !Loses(s, e)
  {
    match e
    case Schedule(i, timeout, c) =>
      hide Scheduled, DueSooner;
      if i < |s.timers| {
        ScheduleAwakeIff(s, i, timeout, c);
      }
    case Work(now) =>
      hide Worked, DueNextAtZero;
      WorkAwakeIff(s, now, order);
    case _ =>
  }

  ghost predicate AwakeAt(n: nat, events: seq<Event>, orders: seq<seq<nat>>, k: nat)
    requires |events| == |orders| && k <= |events|
  {
    var s := RunOf(n, events[..k], orders[..k]);
    s.Some? && Awake(s.value)
  }

  ghost predicate LosesAt(n: nat, events: seq<Event>, orders: seq<seq<nat>>, k: nat)
    requires |events| == |orders| && k < |events|
  {
    var s := RunOf(n, events[..k], orders[..k]);
    s.Some? && Loses(s.value, events[k])
  }

  lemma StartIsAwake(n: nat)
    ensures Awake(Start(n))
  {
  }

  /** Every waiting timer is always woken in time if and only if no event of the run loses the wake-up. */
  lemma {:induction false} RunAwakeIff(n: nat, events: seq<Event>, orders: seq<seq<nat>>)
    requires |events| == |orders| && RunOf(n, events, orders).Some?
    ensures (forall k {:trigger AwakeAt(n, events, orders, k)} | 0 <= k <= |events| :: AwakeAt(n, events, orders, k))
      <==> (forall k {:trigger LosesAt(n, events, orders, k)} | 0 <= k < |events| :: !LosesAt(n, events, orders, k))
  {
    hide Step, Awake, Loses;
    assert events[..|events|] == events && orders[..|events|] == orders;
    StartIsAwake(n);
    if events != [] {
      var m := |events| - 1;
      var a, b := events[..m], orders[..m];
      RunAwakeIff(n, a, b);
      forall k | 0 <= k <= m ensures AwakeAt(n, events, orders, k) <==> AwakeAt(n, a, b, k) {
        assert a[..k] == events[..k] && b[..k] == orders[..k];
      }
      forall k | 0 <= k < m ensures LosesAt(n, events, orders, k) <==> LosesAt(n, a, b, k) {
        assert a[..k] == events[..k] && b[..k] == orders[..k];
      }
      var s := RunOf(n, a, b).value;
      assert AwakeAt(n, events, orders, m) <==> Awake(s);
      if Awake(s) {
        StepAwakeIff(s, events[m], orders[m]);
        assert AwakeAt(n, events, orders, m + 1) <==> !LosesAt(n, events, orders, m);
      }
    }
  }

  ghost predicate AllGentle(events: seq<Event>) {
    forall i {:trigger events[i]} | 0 <= i < |events| :: events[i].Gentle()
  }

  lemma StepGentle(s: Loop, e: Event)
    requires e.Gentle()
    ensures Allowed(s, e) && !Loses(s, e)
  {
    hide DueSooner, DueNextAtZero;
  }

  lemma FirstGentle(events: seq<Event>)
    requires AllGentle(events) && events != []
    ensures AllGentle(events[..|events| - 1]) && events[|events| - 1].Gentle()
  {
  }

  /** With timeouts past the epoch and a clock not before it, the process lives and no wake-up is lost. */
  lemma {:induction false} RunGentle(n: nat, events: seq<Event>, orders: seq<seq<nat>>)
    requires |events| == |orders| && AllGentle(events)
    ensures RunOf(n, events, orders).Some? && Awake(RunOf(n, events, orders).value)
  {
    hide Step, Awake, AllGentle, Loses, Allowed;
    if events == [] {
      StartIsAwake(n);
    } else {
      var m := |events| - 1;
      FirstGentle(events);
      RunGentle(n, events[..m], orders[..m]);
      var s := RunOf(n, events[..m], orders[..m]).value;
      StepGentle(s, events[m]);
      StepSurvivesIff(s, events[m], orders[m]);
      StepAwakeIff(s, events[m], orders[m]);
    }
  }

  // All that has been handed over, in order.
  function Delivered(s: Loop): seq<Bind> {
    s.executed + s.queued
  }

  // What an event hands over.
  function Hands(s: Loop, e: Event, order: seq<nat>): seq<Bind> {
    match e
    case Cancel(i) => if i < |s.timers| then Bound(s.timers[i].held, Cancelled) else []
    case Move(i, j) =>
      if i < |s.timers| && j < |s.timers| && i != j then Bound(s.timers[i].held, Cancelled) else []
    case Work(_) => if s.alarm.inFlight > 0 then ReadyOf(s.timers, order) else []
    case _ => []
  }

  /** Callbacks are run in the order they are handed over, and nothing is taken back. */
  lemma StepDelivers(s: Loop, e: Event, order: seq<nat>)
    requires Step(s, e, order).Some?
    ensures Delivered(Step(s, e, order).value) == Delivered(s) + Hands(s, e, order)
  {
    hide NextDue, Emptied, ReadyOf, Bound;
    var s' := Step(s, e, order).value;
    if e.RunCallback? && s.queued != [] {
      assert s.executed + [s.queued[0]] + s.queued[1..] == s.executed + s.queued;
    } else {
      assert s'.executed == s.executed && s'.queued == s.queued + Hands(s, e, order);
    }
  }

  // Timer i has the callback and is due.
  predicate HasDue(timers: seq<Timer>, i: nat, c: Callback, now: int) {
    i < |timers| && c in timers[i].held && DueBy(timers[i], now)
  }

  lemma {:induction false} ReadyIsHeld(timers: seq<Timer>, order: seq<nat>, b: Bind)
    requires b in ReadyOf(timers, order)
    ensures b.error == Ok
    ensures exists i {:trigger i in order} :: i in order && i < |timers| && b.callback in timers[i].held
  {
    var n := |order| - 1;
    var i, before := order[n], order[..n];
    assert order == before + [i];
    if b in ReadyOf(timers, before) {
      ReadyIsHeld(timers, before, b);
      var j :| j in before && j < |timers| && b.callback in timers[j].held;
      assert j in order;
    } else {
      assert b in Bound(timers[i].held, Ok);
      BoundIsOf(timers[i].held, Ok, b);
      assert i in order;
    }
  }

  lemma BoundIsOf(held: seq<Callback>, error: Error, b: Bind)
    ensures b in Bound(held, error) <==> b.error == error && b.callback in held
  {
    var r := Bound(held, error);
    if b in r {
      var k :| 0 <= k < |r| && r[k] == b;
      assert held[k] == Callbacks(r)[k];
    }
    if b.error == error && b.callback in held {
      var k :| 0 <= k < |held| && held[k] == b.callback;
      assert r[k] == b;
    }
  }

  lemma {:induction false} HeldIsReady(timers: seq<Timer>, order: seq<nat>, i: nat, c: Callback)
    requires i in order && i < |timers| && c in timers[i].held
    ensures Bind(c, Ok) in ReadyOf(timers, order)
  {
    var n := |order| - 1;
    assert order == order[..n] + [order[n]];
    if i in order[..n] {
      HeldIsReady(timers, order[..n], i, c);
    } else {
      BoundIsOf(timers[i].held, Ok, Bind(c, Ok));
    }
  }

  ghost predicate SomeDue(timers: seq<Timer>, c: Callback, now: int) {
    exists i {:trigger HasDue(timers, i, c, now)} :: HasDue(timers, i, c, now)
  }

  /** A worker hands over exactly the callbacks of the timers that are due by its clock. */
  lemma WorkHandsDue(s: Loop, now: int, order: seq<nat>, b: Bind)
    requires s.alarm.inFlight > 0 && Ripe(s.timers, now, order)
    ensures b in Hands(s, Work(now), order) <==> b.error == Ok && SomeDue(s.timers, b.callback, now)
  {
    hide ReadyOf;
    if b in ReadyOf(s.timers, order) {
      ReadyIsHeld(s.timers, order, b);
      var i :| i in order && i < |s.timers| && b.callback in s.timers[i].held;
      assert HasDue(s.timers, i, b.callback, now);
    }
    if b.error == Ok && SomeDue(s.timers, b.callback, now) {
      var i :| HasDue(s.timers, i, b.callback, now);
      assert i in order;
      HeldIsReady(s.timers, order, i, b.callback);
      assert b == Bind(b.callback, Ok);
    }
  }

  // A worker finds the callback with a due timer; or the callback's timer is cancelled or moved to.
  ghost predicate Causes(s: Loop, e: Event, b: Bind) {
    match b.error
    case Ok => e.Work? && s.alarm.inFlight > 0 && SomeDue(s.timers, b.callback, e.now)
    case Cancelled =>
      match e
      case Cancel(i) => i < |s.timers| && b.callback in s.timers[i].held
      case Move(i, j) => i < |s.timers| && j < |s.timers| && i != j && b.callback in s.timers[i].held
      case _ => false
  }

  lemma HandsIff(s: Loop, e: Event, order: seq<nat>, b: Bind)
    requires InTurn(s, e, order)
    ensures b in Hands(s, e, order) <==> Causes(s, e, b)
  {
    hide Bound, ReadyOf, SomeDue, Ripe;
    match e
    case Cancel(i) => if i < |s.timers| { BoundIsOf(s.timers[i].held, Cancelled, b); }
    case Move(i, j) =>
      if i < |s.timers| && j < |s.timers| && i != j {
        BoundIsOf(s.timers[i].held, Cancelled, b);
      }
    case Work(now) =>
      if s.alarm.inFlight > 0 {
        WorkHandsDue(s, now, order, b);
      }
    case _ =>
  }

  ghost predicate CausedAt(n: nat, events: seq<Event>, orders: seq<seq<nat>>, k: nat, b: Bind)
    requires |events| == |orders| && k < |events|
  {
    var s := RunOf(n, events[..k], orders[..k]);
    s.Some? && Causes(s.value, events[k], b)
  }

  ghost predicate Caused(n: nat, events: seq<Event>, orders: seq<seq<nat>>, b: Bind)
    requires |events| == |orders|
  {
    exists k {:trigger CausedAt(n, events, orders, k, b)} :: 0 <= k < |events| && CausedAt(n, events, orders, k, b)
  }

  lemma CausedMore(n: nat, events: seq<Event>, orders: seq<seq<nat>>, b: Bind)
    requires |events| == |orders| > 0
    ensures var m := |events| - 1;
      Caused(n, events, orders, b) <==> Caused(n, events[..m], orders[..m], b) || CausedAt(n, events, orders, m, b)
  {
    hide Causes;
    var m := |events| - 1;
    var a, o := events[..m], orders[..m];
    forall k | 0 <= k < m ensures CausedAt(n, events, orders, k, b) <==> CausedAt(n, a, o, k, b) {
      assert a[..k] == events[..k] && o[..k] == orders[..k];
    }
    if Caused(n, a, o, b) {
      var k :| 0 <= k < m && CausedAt(n, a, o, k, b);
      assert CausedAt(n, events, orders, k, b);
    }
    if Caused(n, events, orders, b) && !CausedAt(n, events, orders, m, b) {
      var k :| 0 <= k < |events| && CausedAt(n, events, orders, k, b);
      assert CausedAt(n, a, o, k, b);
    }
  }

  /**
   Every run: a callback has been handed over as good exactly if at some time a worker's clock had
   reached the due time of the timer that held it, and as cancelled exactly if that timer was
   cancelled or moved to.
   */
  lemma {:induction false} RunDeliversIff(n: nat, events: seq<Event>, orders: seq<seq<nat>>, b: Bind)
    requires |events| == |orders| && AllInTurn(n, events, orders) && RunOf(n, events, orders).Some?
    ensures b in Delivered(RunOf(n, events, orders).value) <==> Caused(n, events, orders, b)
  {
    if events != [] {
      hide Step, InTurn, Causes, Caused, Hands, Delivered;
      var m := |events| - 1;
      RunDeliversIff(n, events[..m], orders[..m], b);
      var s := RunOf(n, events[..m], orders[..m]).value;
      StepDelivers(s, events[m], orders[m]);
      HandsIff(s, events[m], orders[m], b);
      CausedMore(n, events, orders, b);
    }
  }

  // The timer's first callback was scheduled for the time it is due.
  ghost predicate DueFrom(events: seq<Event>, t: Timer) {
    t.held != [] ==> t.due.Some? && ScheduledFor(events, t.held[0], t.due.value)
  }

  ghost predicate ScheduledFor(events: seq<Event>, c: Callback, timeout: int) {
    exists k {:trigger events[k]} ::
      0 <= k < |events| && events[k].Schedule? && events[k].callback == c && events[k].timeout == timeout
  }

  ghost predicate AllDueFrom(events: seq<Event>, timers: seq<Timer>) {
    forall i {:trigger timers[i]} | 0 <= i < |timers| :: DueFrom(events, timers[i])
  }

  lemma ScheduledBefore(events: seq<Event>, c: Callback, timeout: int)
    requires events != [] && ScheduledFor(events[..|events| - 1], c, timeout)
    ensures ScheduledFor(events, c, timeout)
  {
    var before := events[..|events| - 1];
    var k :| 0 <= k < |before| && before[k].Schedule? && before[k].callback == c && before[k].timeout == timeout;
    assert events[k] == before[k];
  }

  lemma DueBefore(events: seq<Event>, timers: seq<Timer>)
    requires events != [] && AllDueFrom(events[..|events| - 1], timers)
    ensures AllDueFrom(events, timers)
  {
    hide ScheduledFor;
    forall i | 0 <= i < |timers| ensures DueFrom(events, timers[i]) {
      assert DueFrom(events[..|events| - 1], timers[i]);
      if timers[i].held != [] {
        ScheduledBefore(events, timers[i].held[0], timers[i].due.value);
      }
    }
  }

  lemma StepDueFrom(s: Loop, e: Event, order: seq<nat>, events: seq<Event>)
    requires Tidy(s) && AllDueFrom(events, s.timers) && Step(s, e, order).Some?
    requires e.Schedule? ==> ScheduledFor(events, e.callback, e.timeout)
    ensures AllDueFrom(events, Step(s, e, order).value.timers)
  {
    hide NextDue, ReadyOf, ScheduledFor, Bound;
  }

  /** Every run: a waiting timer is due at the time its first callback was scheduled for. */
  lemma {:induction false} RunDueFrom(n: nat, events: seq<Event>, orders: seq<seq<nat>>)
    requires |events| == |orders| && RunOf(n, events, orders).Some?
    ensures AllDueFrom(events, RunOf(n, events, orders).value.timers)
  {
    if events != [] {
      hide Step, AllDueFrom, Tidy;
      var m := |events| - 1;
      RunTidy(n, events[..m], orders[..m]);
      RunDueFrom(n, events[..m], orders[..m]);
      var s := RunOf(n, events[..m], orders[..m]).value;
      DueBefore(events, s.timers);
      assert events[m].Schedule? ==> ScheduledFor(events, events[m].callback, events[m].timeout);
      StepDueFrom(s, events[m], orders[m], events);
    }
  }

  /**
   A callback handed over as good was never early: some worker's clock had reached the time that the
   first callback of its timer was scheduled for.
   */
  lemma NeverEarly(n: nat, events: seq<Event>, orders: seq<seq<nat>>, c: Callback) returns (k: nat, i: nat)
    requires |events| == |orders| && AllInTurn(n, events, orders) && RunOf(n, events, orders).Some?
    requires Bind(c, Ok) in Delivered(RunOf(n, events, orders).value)
    ensures k < |events| && events[k].Work? && RunOf(n, events[..k], orders[..k]).Some?
    ensures var timers := RunOf(n, events[..k], orders[..k]).value.timers;
      && i < |timers| && c in timers[i].held && timers[i].due.Some? && timers[i].due.value <= events[k].now
      && ScheduledFor(events[..k], timers[i].held[0], timers[i].due.value)
  {
    RunDeliversIff(n, events, orders, Bind(c, Ok));
    hide Delivered, AllInTurn, ScheduledFor;
    k :| 0 <= k < |events| && CausedAt(n, events, orders, k, Bind(c, Ok));
    RunDueFrom(n, events[..k], orders[..k]);
    var s := RunOf(n, events[..k], orders[..k]).value;
    hide RunOf;
    i :| HasDue(s.timers, i, c, events[k].now);
    assert DueFrom(events[..k], s.timers[i]);
  }
}
