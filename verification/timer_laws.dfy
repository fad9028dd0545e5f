/** What each event does to the executor, said outright. */
module TimerLaws {
  import opened Wrappers
  import opened TimerQueue
  import opened TimerRuns

  // Timers other than some are as they were.
  ghost predicate Others(timers: seq<Timer>, timers': seq<Timer>, but: set<nat>) {
    |timers'| == |timers| &&
    forall j: nat {:trigger timers'[j]} | j < |timers| && j !in but :: timers'[j] == timers[j]
  }

  // Nothing waits that is due before the time, or then.
  ghost predicate Foremost(timers: seq<Timer>, time: int) {
    forall j {:trigger timers[j]} | 0 <= j < |timers| && timers[j].due.Some? :: time < timers[j].due.value
  }

  // The descriptor is set: it will expire then, unless that is the time zero, and an unreported expiration is lost.
  ghost predicate Sets(alarm: Alarm, time: int, alarm': Alarm) {
    time >= 0 && alarm' == alarm.(armed := if time == 0 then None else Some(time), ready := false)
  }

  /** A timer gets one more callback. If it waits already that is all; if not it is due then, and may be the next. */
  ghost predicate Schedules(s: Loop, i: nat, timeout: int, c: Callback, s': Loop) {
    && i < |s.timers| && Others(s.timers, s'.timers, {i}) && s'.timers[i].held == s.timers[i].held + [c]
    && s' == s.(timers := s'.timers, alarm := s'.alarm)
    && if s.timers[i].due.Some? then s'.timers[i].due == s.timers[i].due && s'.alarm == s.alarm
       else
         && s'.timers[i].due == Some(timeout)
         && if Foremost(s.timers, timeout) then Sets(s.alarm, timeout, s'.alarm) else s'.alarm == s.alarm
  }

  /** Both timers idle but for what the source had, which the target has now; the target's callbacks are cancelled. */
  ghost predicate TakesOver(s: Loop, i: nat, j: nat, s': Loop) {
    && i < |s.timers| && j < |s.timers| && Others(s.timers, s'.timers, {i, j})
    && s' == s.(timers := s'.timers, queued := s'.queued)
    && if i == j then s' == s
       else
         && s'.timers[i] == s.timers[j] && s'.timers[j] == Timer([], None)
         && CancelledAre(s.queued, s.timers[i].held, s'.queued)
  }

  // The callbacks are queued as cancelled, in their order.
  ghost predicate CancelledAre(queued: seq<Bind>, held: seq<Callback>, queued': seq<Bind>) {
    && |queued'| == |queued| + |held| && queued'[..|queued|] == queued
    && forall k {:trigger held[k]} | 0 <= k < |held| :: queued'[|queued| + k] == Bind(held[k], Cancelled)
  }

  // Due timers have given up what they held, and the others are as they were.
  ghost predicate GaveUp(timers: seq<Timer>, now: int, timers': seq<Timer>) {
    |timers'| == |timers| && forall j {:trigger timers'[j]} {:trigger timers[j]} | 0 <= j < |timers| ::
      timers'[j] == if timers[j].due.Some? && timers[j].due.value <= now then Timer([], None) else timers[j]
  }

  // The next time to wake up, if any.
  ghost predicate Earliest(timers: seq<Timer>, time: int) {
    && (exists j {:trigger timers[j]} :: 0 <= j < |timers| && timers[j].due == Some(time))
    && forall j {:trigger timers[j]} | 0 <= j < |timers| && timers[j].due.Some? :: time <= timers[j].due.value
  }

  ghost predicate NoneWaits(timers: seq<Timer>) {
    forall j {:trigger timers[j]} | 0 <= j < |timers| :: timers[j].due == None
  }

  /** A worker that has received an expiration: due timers give up their callbacks, and the next time is set. */
  ghost predicate Works(s: Loop, now: int, s': Loop) {
    if s.alarm.inFlight == 0 then s' == s
    else
      && GaveUp(s.timers, now, s'.timers) && s'.executed == s.executed && s.queued <= s'.queued
      && var alarm := s.alarm.(inFlight := s.alarm.inFlight - 1);
         if NoneWaits(s'.timers) then s'.alarm == alarm
         else
           exists time {:trigger Sets(alarm, time, s'.alarm)} ::
             Earliest(s'.timers, time) && Sets(alarm, time, s'.alarm)
  }

  /** What an event does; which callbacks a worker queues is said elsewhere. */
  ghost predicate Follows(s: Loop, e: Event, s': Loop) {
    match e
    case Schedule(i, timeout, c) => if i < |s.timers| then Schedules(s, i, timeout, c, s') else s' == s
    case Cancel(i) =>
      if i >= |s.timers| then s' == s
      else
        && Others(s.timers, s'.timers, {i}) && s'.timers[i] == Timer([], None)
        && CancelledAre(s.queued, s.timers[i].held, s'.queued) && s' == s.(timers := s'.timers, queued := s'.queued)
    case Move(i, j) => if i < |s.timers| && j < |s.timers| then TakesOver(s, i, j, s') else s' == s
    case TimePasses(now) =>
      && s' == s.(alarm := s'.alarm)
      && s'.alarm == if s.alarm.armed.Some? && s.alarm.armed.value <= now
                     then Alarm(None, true, s.alarm.inFlight) else s.alarm
    case Report =>
      && s' == s.(alarm := s'.alarm)
      && s'.alarm == if s.alarm.ready then Alarm(s.alarm.armed, false, s.alarm.inFlight + 1) else s.alarm
    case Work(now) => Works(s, now, s')
    case RunCallback =>
      && s' == s.(executed := s'.executed, queued := s'.queued) && s'.executed + s'.queued == s.executed + s.queued
      && |s'.executed| == |s.executed| + if s.queued == [] then 0 else 1
  }

  lemma LeadsForemost(timers: seq<Timer>, i: nat, timeout: int)
    requires i < |timers|
    ensures Leads(timers, i, timeout) <==> timers[i].due == None && Foremost(timers, timeout)
  {
    NextDueIs(timers);
    hide NextDue;
  }

  lemma ScheduleFollows(s: Loop, i: nat, timeout: int, c: Callback)
    requires i < |s.timers| && Scheduled(s, i, timeout, c).Some?
    ensures Schedules(s, i, timeout, c, Scheduled(s, i, timeout, c).value)
  {
    LeadsForemost(s.timers, i, timeout);
    hide Leads, Foremost;
  }

  lemma CancelFollows(queued: seq<Bind>, held: seq<Callback>)
    ensures CancelledAre(queued, held, queued + Bound(held, Cancelled))
  {
  }

  lemma WorkFollows(s: Loop, now: int, order: seq<nat>)
    requires Worked(s, now, order).Some?
    ensures Works(s, now, Worked(s, now, order).value)
  {
    hide ReadyOf;
    if s.alarm.inFlight > 0 {
      var left := Emptied(s.timers, now);
      assert GaveUp(s.timers, now, left);
      NextDueIs(left);
      hide NextDue, Emptied, GaveUp;
      var alarm := s.alarm.(inFlight := s.alarm.inFlight - 1);
      if NextDue(left).Some? {
        assert Sets(alarm, NextDue(left).value, SetTimer(alarm, NextDue(left).value));
      }
    }
  }

  /** Every event does what it should. */
  lemma StepFollows(s: Loop, e: Event, order: seq<nat>)
    requires Step(s, e, order).Some?
    ensures Follows(s, e, Step(s, e, order).value)
  {
    match e
    case Schedule(i, timeout, c) =>
      hide Scheduled, Schedules;
      if i < |s.timers| {
        ScheduleFollows(s, i, timeout, c);
      }
    case Cancel(i) =>
      hide CancelledAre;
      if i < |s.timers| {
        CancelFollows(s.queued, s.timers[i].held);
      }
    case Move(i, j) =>
      hide CancelledAre;
      if i < |s.timers| {
        CancelFollows(s.queued, s.timers[i].held);
      }
    case TimePasses(_) =>
    case Report =>
    case Work(now) =>
      hide Worked, Works;
      WorkFollows(s, now, order);
    case RunCallback =>
      if s.queued != [] {
        assert s.executed + [s.queued[0]] + s.queued[1..] == s.executed + s.queued;
      }
  }

  /** In every run each event does what it should, and a worker hands over exactly what is due. */
  lemma RunFollows(n: nat, events: seq<Event>, orders: seq<seq<nat>>)
    requires |events| == |orders| > 0 && RunOf(n, events, orders).Some?
    ensures var k := |events| - 1;
      && RunOf(n, events[..k], orders[..k]).Some?
      && Follows(RunOf(n, events[..k], orders[..k]).value, events[k], RunOf(n, events, orders).value)
  {
    hide Step, Follows;
    var k := |events| - 1;
    StepFollows(RunOf(n, events[..k], orders[..k]).value, events[k], orders[k]);
  }

  /** It starts with idle timers, nothing queued, and a descriptor that is not set. */
  lemma RunStarts(n: nat)
    ensures RunOf(n, [], []).Some?
    ensures var s := RunOf(n, [], []).value;
      && s.executed == s.queued == [] && s.alarm == Alarm(None, false, 0) && |s.timers| == n
      && forall i {:trigger s.timers[i]} | 0 <= i < n :: s.timers[i] == Timer([], None)
  {
  }
}
