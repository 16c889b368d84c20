/**
 The barrier: closed, opening, open, closing or faulted, driven by inputs and by the
 timers of the gate clock.  `since` (when the present state was entered) and `alarms`
 (alarms raised in the present fault) are history variables.
 */
module BarrierGate {
  import opened GateClock

  const OPENING_MS := 700
  const CLOSING_MS := 700
  const HOLD_TIMEOUT_MS := 5000
  const FAULT_ALARM_MS := 4000

  datatype State = Closed | Opening | Open | Closing | Fault

  datatype Timer = OpenTimer | HoldTimer | CloseTimer | FaultAlarmTimer

  datatype Barrier = Barrier(state: State, openTimer: nat, holdTimer: nat, closeTimer: nat, faultAlarmTimer: nat,
                             faultInjected: bool, antiSmashCount: nat, since: int, alarms: nat)

  datatype Input = RequestOpen | VehiclePassed | SetFault(enabled: bool) | Reset

  type Effect = (Barrier, seq<Command<Timer>>)

  function Transition(b: Barrier, next: State, now: int): Barrier {
    b.(state := next, since := now, alarms := 0)
  }

  function CancelOf(id: nat): seq<Command<Timer>> {
    if id != 0 then [Cancel(id)] else []
  }

  function OpeningEffect(b: Barrier, nextId: nat): Effect {
    (b.(openTimer := nextId), CancelOf(b.openTimer) + [Schedule(OPENING_MS, OpenTimer)])
  }

  function HoldEffect(b: Barrier, nextId: nat): Effect {
    (b.(holdTimer := nextId), CancelOf(b.holdTimer) + [Schedule(HOLD_TIMEOUT_MS, HoldTimer)])
  }

  function ClosingEffect(b: Barrier, nextId: nat): Effect {
    (b.(closeTimer := nextId), CancelOf(b.closeTimer) + [Schedule(CLOSING_MS, CloseTimer)])
  }

  function AlarmEffect(b: Barrier, nextId: nat): Effect {
    (b.(faultAlarmTimer := nextId), CancelOf(b.faultAlarmTimer) + [Schedule(FAULT_ALARM_MS, FaultAlarmTimer)])
  }

  /** The four timer callbacks, with their guards against a state that has moved on. */
  function Callback(timer: Timer, b: Barrier, nextId: nat, now: int): Effect {
    match timer
    case OpenTimer =>
      var idle := b.(openTimer := 0);
      if idle.state != Opening then (idle, [])
      else if idle.faultInjected then AlarmEffect(Transition(idle, Fault, now), nextId)
      else HoldEffect(Transition(idle, Open, now), nextId)
    case HoldTimer =>
      var idle := b.(holdTimer := 0);
      if idle.state != Open then (idle, []) else ClosingEffect(Transition(idle, Closing, now), nextId)
    case CloseTimer =>
      var idle := b.(closeTimer := 0);
      if idle.state != Closing then (idle, []) else (Transition(idle, Closed, now), [])
    case FaultAlarmTimer =>
      var idle := b.(faultAlarmTimer := 0);
      if idle.state != Fault then (idle, []) else AlarmEffect(idle.(alarms := idle.alarms + 1), nextId)
  }

  /** An operation, from the present state, the next timer id and the time. */
  function Handle(input: Input, b: Barrier, nextId: nat, now: int): Effect {
    match input
    case RequestOpen => (
      match b.state
      case Closed => OpeningEffect(Transition(b, Opening, now), nextId)
      case Open => HoldEffect(b, nextId)
      case Opening => (b, [])
      case Closing => Reverse(b, nextId, now)
      case Fault => (b, []))
    case VehiclePassed =>
      if b.state == Open then
        var (closing, commands) := ClosingEffect(Transition(b.(holdTimer := 0), Closing, now), nextId);
        (closing, CancelOf(b.holdTimer) + commands)
      else if b.state == Closing then Reverse(b.(antiSmashCount := b.antiSmashCount + 1), nextId, now)
      else (b, [])
    case SetFault(enabled) => (b.(faultInjected := enabled), [])
    case Reset =>
      if b.state != Fault then (b, [])
      else (Transition(b.(openTimer := 0, faultAlarmTimer := 0), Closed, now),
            CancelOf(b.openTimer) + CancelOf(b.faultAlarmTimer))
  }

  /** Reverse a falling barrier at once. */
  function Reverse(b: Barrier, nextId: nat, now: int): Effect {
    var (opening, commands) := OpeningEffect(Transition(b.(closeTimer := 0), Opening, now), nextId);
    (opening, CancelOf(b.closeTimer) + commands)
  }

  const CALLBACKS: Handler<Timer, Barrier> := Handler((t, b, id, now) => Callback(t, b, id, now))

  type System = Clock<Timer, Barrier>

  function Operate(c: System, input: Input): System {
    var (b, commands) := Handle(input, c.world, c.nextId, c.now);
    Apply(c.(world := b), commands)
  }

  /** One step of a run: an operation, or the passing of time. */
  datatype Step = Do(input: Input) | Wait(ms: nat)

  ghost function Take(c: System, step: Step): System {
    DelaysArePositive();
    match step
    case Do(input) => Operate(c, input)
    case Wait(ms) => Advanced(CALLBACKS, c, ms)
  }

  ghost function Run(c: System, steps: seq<Step>): System
    decreases |steps|
  {
    if steps == [] then c else Take(Run(c, steps[..|steps| - 1]), steps[|steps| - 1])
  }

  const START: System := Clock([], 1, 0, Barrier(Closed, 0, 0, 0, 0, false, 0, 0, 0), [])

  lemma DelaysArePositive()
    ensures PositiveDelays(CALLBACKS)
  {
  }

  // --- Timers match the state -----------------------------------------------------------

  ghost predicate OnlyTimer(c: System, id: nat, timer: Timer, due: int) {
    && id != 0 && id < c.nextId && c.now < due
    && c.timers == [Entry(id, due, timer)]
  }

  /** Closed has no pending timer; every other state has exactly its own one, and the other ids are clear. */
  ghost predicate Matched(c: System) {
    var b := c.world;
    && c.nextId >= 1 && b.since <= c.now
    && match b.state
       case Closed => c.timers == [] && b.openTimer == b.holdTimer == b.closeTimer == b.faultAlarmTimer == 0
       case Opening =>
         && OnlyTimer(c, b.openTimer, OpenTimer, b.since + OPENING_MS)
         && b.holdTimer == b.closeTimer == b.faultAlarmTimer == 0
       case Open =>
         && (exists due :: OnlyTimer(c, b.holdTimer, HoldTimer, due) && due <= c.now + HOLD_TIMEOUT_MS)
         && b.openTimer == b.closeTimer == b.faultAlarmTimer == 0
       case Closing =>
         && OnlyTimer(c, b.closeTimer, CloseTimer, b.since + CLOSING_MS)
         && b.openTimer == b.holdTimer == b.faultAlarmTimer == 0
       case Fault =>
         && OnlyTimer(c, b.faultAlarmTimer, FaultAlarmTimer, b.since + FAULT_ALARM_MS * (b.alarms + 1))
         && b.openTimer == b.holdTimer == b.closeTimer == 0
         && b.since + FAULT_ALARM_MS * b.alarms <= c.now
  }

  function Single(c: System, delay: int, timer: Timer): System {
    c.(timers := [Entry(c.nextId, c.now + delay, timer)], nextId := c.nextId + 1)
  }

  lemma Sets(c: System, delay: int, timer: Timer)
    requires c.timers == []
    ensures Apply(c, [Schedule(delay, timer)]) == Single(c, delay, timer)
  {
    assert [Schedule(delay, timer)][1..] == [];
    assert Apply(c, [Schedule(delay, timer)]) == Apply(ScheduleTimer(c, delay, timer), []);
  }

  lemma CancelsOnly(c: System, id: nat)
    requires |c.timers| == 1 && c.timers[0].id == id && id != 0
    ensures CancelTimer(c, id) == c.(timers := [])
  {
    assert c.timers[1..] == [];
    assert Without(c.timers, id) == Without(c.timers[1..], id);
  }

  lemma Replaces(c: System, id: nat, delay: int, timer: Timer)
    requires |c.timers| == 1 && c.timers[0].id == id && id != 0
    ensures Apply(c, [Cancel(id), Schedule(delay, timer)]) == Single(c, delay, timer)
  {
    CancelsOnly(c, id);
    assert [Cancel(id), Schedule(delay, timer)][1..] == [Schedule(delay, timer)];
    assert Apply(c, [Cancel(id), Schedule(delay, timer)]) == Apply(CancelTimer(c, id), [Schedule(delay, timer)]);
    Sets(CancelTimer(c, id), delay, timer);
  }

  lemma Clears(c: System, id: nat)
    requires |c.timers| == 1 && c.timers[0].id == id && id != 0
    ensures Apply(c, [Cancel(id)]) == c.(timers := [])
  {
    CancelsOnly(c, id);
    assert Apply(c, [Cancel(id)]) == Apply(CancelTimer(c, id), []);
  }

  lemma OpenKeepsMatched(c: System, input: Input)
    requires Matched(c) && c.world.state == Open
    ensures Matched(Operate(c, input))
  {
    var (b, commands) := Handle(input, c.world, c.nextId, c.now);
    var d, id := c.(world := b), c.world.holdTimer;
    Replaces(d, id, HOLD_TIMEOUT_MS, HoldTimer);
    Replaces(d, id, CLOSING_MS, CloseTimer);
    if input == RequestOpen {
      assert commands == [Cancel(id), Schedule(HOLD_TIMEOUT_MS, HoldTimer)];
      assert OnlyTimer(Operate(c, input), c.nextId, HoldTimer, c.now + HOLD_TIMEOUT_MS);
    } else if input == VehiclePassed {
      assert commands == [Cancel(id), Schedule(CLOSING_MS, CloseTimer)];
    } else {
      var due :| OnlyTimer(c, id, HoldTimer, due) && due <= c.now + HOLD_TIMEOUT_MS;
      assert commands == [] && Apply(d, commands) == d && OnlyTimer(d, id, HoldTimer, due);
    }
  }

  lemma ClosingKeepsMatched(c: System, input: Input)
    requires Matched(c) && c.world.state == Closing
    ensures Matched(Operate(c, input))
  {
    var (b, commands) := Handle(input, c.world, c.nextId, c.now);
    var id := c.world.closeTimer;
    Replaces(c.(world := b), id, OPENING_MS, OpenTimer);
    if input == RequestOpen || input == VehiclePassed {
      assert commands == [Cancel(id), Schedule(OPENING_MS, OpenTimer)];
    }
  }

  /** No operation leaves a stray timer behind or forgets to set the one the new state needs. */
  lemma OperateKeepsMatched(c: System, input: Input)
    requires Matched(c)
    ensures Matched(Operate(c, input))
  {
    var (b, commands) := Handle(input, c.world, c.nextId, c.now);
    match c.world.state {
      case Closed =>
        Sets(c.(world := b), OPENING_MS, OpenTimer);
        if input == RequestOpen {
          assert commands == [Schedule(OPENING_MS, OpenTimer)];
        }
      case Opening =>
      case Open => OpenKeepsMatched(c, input);
      case Closing => ClosingKeepsMatched(c, input);
      case Fault =>
        Clears(c.(world := b), c.world.faultAlarmTimer);
        if input == Reset {
          assert commands == [Cancel(c.world.faultAlarmTimer)];
        }
    }
  }

  lemma FireShape(c: System)
    requires |c.timers| == 1
    ensures var e, now := c.timers[0], Max(c.now, c.timers[0].due);
            var (b, commands) := Callback(e.action, c.world, c.nextId, now);
            FireEarliest(CALLBACKS, c) == Apply(Clock([], c.nextId, now, b, c.fired + [(e.id, now)]), commands)
  {
    assert c.timers[..0] + c.timers[1..] == [];
  }

  lemma FireKeepsMatched(c: System)
    requires Matched(c) && c.timers != []
    ensures Matched(FireEarliest(CALLBACKS, c))
    ensures FireEarliest(CALLBACKS, c).now == c.timers[0].due
  {
    FireShape(c);
    var e := c.timers[0];
    var (b, commands) := Callback(e.action, c.world, c.nextId, e.due);
    var d := Clock([], c.nextId, e.due, b, c.fired + [(e.id, e.due)]);
    Sets(d, HOLD_TIMEOUT_MS, HoldTimer);
    Sets(d, CLOSING_MS, CloseTimer);
    Sets(d, FAULT_ALARM_MS, FaultAlarmTimer);
    match e.action {
      case OpenTimer =>
        if c.world.faultInjected {
          assert commands == [Schedule(FAULT_ALARM_MS, FaultAlarmTimer)];
        } else {
          assert commands == [Schedule(HOLD_TIMEOUT_MS, HoldTimer)];
          assert OnlyTimer(Apply(d, commands), c.nextId, HoldTimer, e.due + HOLD_TIMEOUT_MS);
        }
      case HoldTimer => assert commands == [Schedule(CLOSING_MS, CloseTimer)];
      case CloseTimer => assert commands == [];
      case FaultAlarmTimer => assert commands == [Schedule(FAULT_ALARM_MS, FaultAlarmTimer)];
    }
  }

  lemma {:induction false} RunUntilKeepsMatched(c: System, target: int)
    requires PositiveDelays(CALLBACKS) && Matched(c) && c.now <= target
    ensures Matched(RunUntil(CALLBACKS, c, target)) && c.now <= RunUntil(CALLBACKS, c, target).now <= target
    decreases target - c.now
  {
    RunStaysBy(CALLBACKS, c, target);
    if DueBy(c, target) {
      FireKeepsMatched(c);
      RunUntilKeepsMatched(FireEarliest(CALLBACKS, c), target);
    }
  }

  /** Time may move up to any point before the pending timer. */
  lemma IdleKeepsMatched(c: System, target: int)
    requires Matched(c) && c.now <= target && !DueBy(c, target)
    ensures Matched(c.(now := target))
  {
    var d := c.(now := target);
    if c.world.state == Open {
      var due :| OnlyTimer(c, c.world.holdTimer, HoldTimer, due) && due <= c.now + HOLD_TIMEOUT_MS;
      assert OnlyTimer(d, d.world.holdTimer, HoldTimer, due);
    }
  }

  lemma WaitKeepsMatched(c: System, ms: nat)
    requires PositiveDelays(CALLBACKS) && Matched(c)
    ensures Matched(Advanced(CALLBACKS, c, ms)) && Advanced(CALLBACKS, c, ms).now == c.now + ms
  {
    hide Matched, DueBy, RunUntil, PositiveDelays;
    RunUntilKeepsMatched(c, c.now + ms);
    RunStaysBy(CALLBACKS, c, c.now + ms);
    IdleKeepsMatched(RunUntil(CALLBACKS, c, c.now + ms), c.now + ms);
  }

  lemma StepKeepsMatched(c: System, step: Step)
    requires Matched(c)
    ensures Matched(Take(c, step))
  {
    DelaysArePositive();
    match step {
      case Do(input) => OperateKeepsMatched(c, input);
      case Wait(ms) => WaitKeepsMatched(c, ms);
    }
  }

  /** In every run, whatever the order of requests, passes, faults, resets and waiting, the pending timers
      are exactly the present state's own. */
  lemma {:induction false} TimersMatchState(steps: seq<Step>)
    ensures Matched(Run(START, steps))
    decreases |steps|
  {
    if steps != [] {
      TimersMatchState(steps[..|steps| - 1]);
      StepKeepsMatched(Run(START, steps[..|steps| - 1]), steps[|steps| - 1]);
    }
  }

  function HomeState(timer: Timer): State {
    match timer
    case OpenTimer => Opening
    case HoldTimer => Open
    case CloseTimer => Closing
    case FaultAlarmTimer => Fault
  }

  /** Hence no callback ever finds the barrier in another state: the guards against that never trigger. */
  lemma GuardsNeverTrigger(steps: seq<Step>, entry: Entry<Timer>)
    requires entry in Run(START, steps).timers
    ensures Run(START, steps).world.state == HomeState(entry.action)
  {
    TimersMatchState(steps);
  }

  // --- How the barrier closes -----------------------------------------------------------

  /** A firing that closes the barrier ends exactly 700 ms of uninterrupted closing. */
  lemma ClosedByTimer(c: System)
    requires Matched(c) && c.timers != [] && FireEarliest(CALLBACKS, c).world.state == Closed
    ensures c.world.state == Closing
    ensures FireEarliest(CALLBACKS, c).now == c.world.since + CLOSING_MS
  {
    FireKeepsMatched(c);
    FireShape(c);
    var e := c.timers[0];
    var (b, commands) := Callback(e.action, c.world, c.nextId, e.due);
    ApplyKeepsTime(Clock([], c.nextId, e.due, b, c.fired + [(e.id, e.due)]), commands);
  }

  /** The only operation that closes the barrier is a reset from fault. */
  lemma ClosedByOperation(c: System, input: Input)
    requires c.world.state != Closed && Operate(c, input).world.state == Closed
    ensures input == Reset && c.world.state == Fault
  {
    DelaysArePositive();
    var (b, commands) := Handle(input, c.world, c.nextId, c.now);
    ApplyKeepsTime(c.(world := b), commands);
  }

  lemma OneFiring(c: System, target: int)
    requires PositiveDelays(CALLBACKS) && |c.timers| == 1
    ensures c.timers[0].due > target ==> AdvanceTo(CALLBACKS, c, target) == c.(now := Max(c.now, target))
    ensures c.timers[0].due <= target ==> AdvanceTo(CALLBACKS, c, target) == AdvanceTo(CALLBACKS, FireEarliest(CALLBACKS, c), target)
  {
  }

  /** A closing barrier that was not closing before the firing has just begun. */
  lemma ClosingBegins(c: System)
    requires Matched(c) && c.timers != [] && FireEarliest(CALLBACKS, c).world.state == Closing
    ensures FireEarliest(CALLBACKS, c).world.since == FireEarliest(CALLBACKS, c).now
  {
    FireKeepsMatched(c);
    FireShape(c);
    var e := c.timers[0];
    var (b, commands) := Callback(e.action, c.world, c.nextId, e.due);
    ApplyKeepsTime(Clock([], c.nextId, e.due, b, c.fired + [(e.id, e.due)]), commands);
  }

  /** Falling since `start`. */
  ghost predicate Falling(c: System, start: int) {
    c.world.state == Closing && c.world.since == start
  }

  /** The barrier, not closed at c, has closed at `end` on the way to `target`: it has been falling for the whole of
      the 700 ms before, the part of them before c included. */
  ghost predicate FellUntil(c: System, target: int, end: int)
    requires PositiveDelays(CALLBACKS)
  {
    && c.now < end <= target
    && (end - CLOSING_MS < c.now ==> Falling(c, end - CLOSING_MS))
    && forall x {:trigger AdvanceTo(CALLBACKS, c, x)} :: c.now <= x && end - CLOSING_MS <= x < end ==>
         Falling(AdvanceTo(CALLBACKS, c, x), end - CLOSING_MS)
  }

  lemma ClosedAtOnce(c: System, target: int)
    requires PositiveDelays(CALLBACKS) && Matched(c) && c.timers != [] && c.timers[0].due <= target
    requires FireEarliest(CALLBACKS, c).world.state == Closed
    ensures var d := AdvanceTo(CALLBACKS, c, target); d.world.since == c.timers[0].due && FellUntil(c, target, c.timers[0].due)
  {
    ClosedByTimer(c);
    FireKeepsMatched(c);
    FireShape(c);
    var end := c.timers[0].due;
    OneFiring(c, target);
    forall x | c.now <= x && end - CLOSING_MS <= x < end ensures Falling(AdvanceTo(CALLBACKS, c, x), end - CLOSING_MS) {
      OneFiring(c, x);
    }
  }

  lemma {:induction false} ClosesOnTheWay(c: System, target: int)
    requires PositiveDelays(CALLBACKS) && Matched(c) && c.now <= target && c.world.state != Closed
    requires AdvanceTo(CALLBACKS, c, target).world.state == Closed
    ensures FellUntil(c, target, AdvanceTo(CALLBACKS, c, target).world.since)
    decreases target - c.now
  {
    OneFiring(c, target);
    var d := FireEarliest(CALLBACKS, c);
    FireKeepsMatched(c);
    if d.world.state == Closed {
      ClosedAtOnce(c, target);
    } else {
      ClosesOnTheWay(d, target);
      var end := AdvanceTo(CALLBACKS, c, target).world.since;
      if d.world.state == Closing {
        ClosingBegins(c);
      }
      forall x | c.now <= x && end - CLOSING_MS <= x < end ensures Falling(AdvanceTo(CALLBACKS, c, x), end - CLOSING_MS) {
        OneFiring(c, x);
        assert d.now <= x;
      }
    }
  }

  /** Every way into closed, in every run: a reset from fault, or waiting at the end of 700 ms in which the barrier was
      falling without interruption. */
  lemma EveryClosing(steps: seq<Step>, step: Step)
    requires Run(START, steps).world.state != Closed && Take(Run(START, steps), step).world.state == Closed
    ensures PositiveDelays(CALLBACKS)
    ensures var c := Run(START, steps);
            match step
            case Do(input) => input == Reset && c.world.state == Fault
            case Wait(ms) => FellUntil(c, c.now + ms, Take(c, step).world.since)
  {
    DelaysArePositive();
    TimersMatchState(steps);
    match step {
      case Do(input) => ClosedByOperation(Run(START, steps), input);
      case Wait(ms) => ClosesOnTheWay(Run(START, steps), Run(START, steps).now + ms);
    }
  }

  /** In every run the alarms raised so far in a fault are one per 4000 ms spent in it. */
  lemma AlarmsMatchTime(steps: seq<Step>)
    requires Run(START, steps).world.state == Fault
    ensures var c := Run(START, steps); c.world.alarms == (c.now - c.world.since) / FAULT_ALARM_MS
  {
    TimersMatchState(steps);
  }

  // --- A release with no further input ------------------------------------------------------

  ghost predicate ClosingFrom(c: System, start: int) {
    Matched(c) && c.world.state == Closing && c.world.since == start
  }

  lemma ClosingThenClosed(c: System, start: int, target: int)
    requires PositiveDelays(CALLBACKS) && ClosingFrom(c, start) && c.now <= target
    ensures AdvanceTo(CALLBACKS, c, target).world.state == if target < start + CLOSING_MS then Closing else Closed
  {
    OneFiring(c, target);
    if start + CLOSING_MS <= target {
      FireKeepsMatched(c);
      FireShape(c);
    }
  }

  ghost predicate OpenUntil(c: System, due: int) {
    Matched(c) && c.world.state == Open && OnlyTimer(c, c.world.holdTimer, HoldTimer, due)
  }

  lemma OpenThenClosing(c: System, due: int)
    requires OpenUntil(c, due)
    ensures ClosingFrom(FireEarliest(CALLBACKS, c), due)
  {
    FireKeepsMatched(c);
    FireShape(c);
    Sets(Clock([], c.nextId, due, Callback(HoldTimer, c.world, c.nextId, due).0, c.fired + [(c.timers[0].id, due)]),
         CLOSING_MS, CloseTimer);
  }

  lemma OpeningThenOpen(c: System)
    requires Matched(c) && c.world.state == Opening && !c.world.faultInjected
    ensures OpenUntil(FireEarliest(CALLBACKS, c), c.world.since + OPENING_MS + HOLD_TIMEOUT_MS)
  {
    FireKeepsMatched(c);
    FireShape(c);
    var due := c.world.since + OPENING_MS;
    Sets(Clock([], c.nextId, due, Callback(OpenTimer, c.world, c.nextId, due).0, c.fired + [(c.timers[0].id, due)]),
         HOLD_TIMEOUT_MS, HoldTimer);
  }

  lemma OpenRunsOut(c: System, due: int, target: int)
    requires PositiveDelays(CALLBACKS) && OpenUntil(c, due) && c.now <= target
    ensures AdvanceTo(CALLBACKS, c, target).world.state
         == if target < due then Open else if target < due + CLOSING_MS then Closing else Closed
  {
    OneFiring(c, target);
    if due <= target {
      OpenThenClosing(c, due);
      FireKeepsMatched(c);
      ClosingThenClosed(FireEarliest(CALLBACKS, c), due, target);
    }
  }

  lemma OpeningRunsOut(c: System, target: int)
    requires PositiveDelays(CALLBACKS) && Matched(c) && c.world.state == Opening && !c.world.faultInjected && c.now <= target
    ensures AdvanceTo(CALLBACKS, c, target).world.state
         == var t := target - c.world.since;
            if t < 700 then Opening else if t < 5700 then Open else if t < 6400 then Closing else Closed
  {
    OneFiring(c, target);
    if c.world.since + OPENING_MS <= target {
      OpeningThenOpen(c);
      FireKeepsMatched(c);
      OpenRunsOut(FireEarliest(CALLBACKS, c), c.world.since + OPENING_MS + HOLD_TIMEOUT_MS, target);
    }
  }

  lemma ReleaseOpens(c: System)
    requires Matched(c) && c.world.state == Closed && !c.world.faultInjected
    ensures var d := Operate(c, RequestOpen);
            && Matched(d) && d.world.state == Opening && !d.world.faultInjected
            && d.now == c.now == d.world.since
  {
    var (b, commands) := Handle(RequestOpen, c.world, c.nextId, c.now);
    assert commands == [Schedule(OPENING_MS, OpenTimer)];
    Sets(c.(world := b), OPENING_MS, OpenTimer);
    OperateKeepsMatched(c, RequestOpen);
  }

  /** In any run that left the barrier closed and unfaulted, a release followed by t quiet milliseconds
      finds it opening, open, falling and, from 6400 ms on, closed. */
  lemma ReleaseTimeline(steps: seq<Step>, t: nat)
    requires Run(START, steps).world.state == Closed && !Run(START, steps).world.faultInjected
    ensures Run(START, steps + [Do(RequestOpen), Wait(t)]).world.state
         == if t < 700 then Opening else if t < 5700 then Open else if t < 6400 then Closing else Closed
  {
    DelaysArePositive();
    TimersMatchState(steps);
    var c := Run(START, steps);
    ReleaseOpens(c);
    OpeningRunsOut(Operate(c, RequestOpen), c.now + t);
    RunAppends(steps, Do(RequestOpen));
    RunAppends(steps + [Do(RequestOpen)], Wait(t));
    assert steps + [Do(RequestOpen), Wait(t)] == steps + [Do(RequestOpen)] + [Wait(t)];
  }

  lemma RunAppends(steps: seq<Step>, last: Step)
    ensures Run(START, steps + [last]) == Take(Run(START, steps), last)
  {
    assert (steps + [last])[..|steps|] == steps;
  }

  // --- The barrier object ---------------------------------------------------------------

  ghost function Outcome(c: System, effect: Effect): System {
    Apply(c.(world := effect.0), effect.1)
  }

  lemma CancelThen(c: System, id: nat, b: Barrier, rest: seq<Command<Timer>>)
    ensures Outcome(c, (b, CancelOf(id) + rest)) == Apply(CancelTimer(c, id).(world := b), rest)
  {
    if id == 0 {
      assert CancelOf(id) + rest == rest;
    } else {
      assert (CancelOf(id) + rest)[1..] == rest;
    }
  }

  lemma CancelThenSchedule(c: System, id: nat, b: Barrier, delay: int, timer: Timer)
    ensures Outcome(c, (b, CancelOf(id) + [Schedule(delay, timer)]))
         == ScheduleTimer(CancelTimer(c, id), delay, timer).(world := b)
  {
    CancelThen(c, id, b, [Schedule(delay, timer)]);
    var d := CancelTimer(c, id).(world := b);
    assert [Schedule(delay, timer)][1..] == [];
    assert Apply(d, [Schedule(delay, timer)]) == Apply(ScheduleTimer(d, delay, timer), []);
  }

  class BarrierGate {
    const clock: VirtualGateClock<Timer, Barrier>
    var state: State
    var openTimer: nat
    var holdTimer: nat
    var closeTimer: nat
    var faultAlarmTimer: nat
    var faultInjected: bool
    var antiSmashCount: nat
    var since: int
    var alarms: nat

    function Value(): Barrier
      reads this
    {
      Barrier(state, openTimer, holdTimer, closeTimer, faultAlarmTimer, faultInjected, antiSmashCount, since, alarms)
    }

    ghost function Model(): System
      reads this, clock
    {
      clock.Model(Value())
    }

    constructor (clock: VirtualGateClock<Timer, Barrier>)
      ensures this.clock == clock && Value() == START.world
    {
      this.clock := clock;
      state, openTimer, holdTimer, closeTimer, faultAlarmTimer := Closed, 0, 0, 0, 0;
      faultInjected, antiSmashCount, since, alarms := false, 0, 0, 0;
    }

    method CancelTimer(id: nat)
      modifies clock
      ensures forall world: Barrier :: clock.Model(world) == GateClock.CancelTimer(old(clock.Model(world)), id)
    {
      if id != 0 {
        clock.Cancel(id);
      }
    }

    method MoveTo(next: State)
      modifies this
      ensures Value() == Transition(old(Value()), next, clock.now)
    {
      state, since, alarms := next, clock.now, 0;
    }

    method StartOpening()
      modifies this, clock
      ensures Model() == Outcome(old(Model()), OpeningEffect(old(Value()), old(clock.nextId)))
    {
      ghost var before := Model();
      CancelTimer(openTimer);
      openTimer := clock.Schedule(OPENING_MS, OpenTimer);
      CancelThenSchedule(before, before.world.openTimer, Value(), OPENING_MS, OpenTimer);
    }

    method StartHold()
      modifies this, clock
      ensures Model() == Outcome(old(Model()), HoldEffect(old(Value()), old(clock.nextId)))
    {
      ghost var before := Model();
      CancelTimer(holdTimer);
      holdTimer := clock.Schedule(HOLD_TIMEOUT_MS, HoldTimer);
      CancelThenSchedule(before, before.world.holdTimer, Value(), HOLD_TIMEOUT_MS, HoldTimer);
    }

    method StartClosing()
      modifies this, clock
      ensures Model() == Outcome(old(Model()), ClosingEffect(old(Value()), old(clock.nextId)))
    {
      ghost var before := Model();
      CancelTimer(closeTimer);
      closeTimer := clock.Schedule(CLOSING_MS, CloseTimer);
      CancelThenSchedule(before, before.world.closeTimer, Value(), CLOSING_MS, CloseTimer);
    }

    method StartFaultAlarm()
      modifies this, clock
      ensures Model() == Outcome(old(Model()), AlarmEffect(old(Value()), old(clock.nextId)))
    {
      ghost var before := Model();
      CancelTimer(faultAlarmTimer);
      faultAlarmTimer := clock.Schedule(FAULT_ALARM_MS, FaultAlarmTimer);
      CancelThenSchedule(before, before.world.faultAlarmTimer, Value(), FAULT_ALARM_MS, FaultAlarmTimer);
    }

    method ReverseNow()
      modifies this, clock
      ensures Model() == Outcome(old(Model()), Reverse(old(Value()), old(clock.nextId), old(clock.now)))
    {
      ghost var before := Model();
      CancelTimer(closeTimer);
      closeTimer := 0;
      MoveTo(Opening);
      ghost var (opening, commands) := OpeningEffect(Value(), clock.nextId);
      StartOpening();
      CancelThen(before, before.world.closeTimer, opening, commands);
    }

    method RequestOpen()
      modifies this, clock
      ensures Model() == Operate(old(Model()), Input.RequestOpen)
    {
      match state {
        case Closed =>
          MoveTo(Opening);
          StartOpening();
        case Open => StartHold();
        case Opening =>
        case Closing => ReverseNow();
        case Fault =>
      }
    }

    method VehiclePassed()
      modifies this, clock
      ensures Model() == Operate(old(Model()), Input.VehiclePassed)
    {
      if state == Open {
        ghost var before := Model();
        CancelTimer(holdTimer);
        holdTimer := 0;
        MoveTo(Closing);
        ghost var (closing, commands) := ClosingEffect(Value(), clock.nextId);
        StartClosing();
        CancelThen(before, before.world.holdTimer, closing, commands);
      } else if state == Closing {
        antiSmashCount := antiSmashCount + 1;
        ReverseNow();
      }
    }

    method SetFault(enabled: bool)
      modifies this
      ensures Model() == Operate(old(Model()), Input.SetFault(enabled))
    {
      faultInjected := enabled;
    }

    method Reset()
      modifies this, clock
      ensures Model() == Operate(old(Model()), Input.Reset)
    {
      if state != Fault {
        return;
      }
      ghost var before := Model();
      CancelTimer(openTimer);
      openTimer := 0;
      CancelTimer(faultAlarmTimer);
      faultAlarmTimer := 0;
      MoveTo(Closed);
      CancelThen(before, before.world.openTimer, Value(), CancelOf(before.world.faultAlarmTimer));
      CancelThen(GateClock.CancelTimer(before, before.world.openTimer), before.world.faultAlarmTimer, Value(), []);
      assert CancelOf(before.world.faultAlarmTimer) + [] == CancelOf(before.world.faultAlarmTimer);
    }

    /** The body of each timer callback. */
    method OnTimer(timer: Timer)
      modifies this, clock
      ensures Model() == Outcome(old(Model()), Callback(timer, old(Value()), old(clock.nextId), old(clock.now)))
    {
      match timer {
        case OpenTimer =>
          openTimer := 0;
          if state == Opening {
            if faultInjected {
              MoveTo(Fault);
              StartFaultAlarm();
            } else {
              MoveTo(Open);
              StartHold();
            }
          }
        case HoldTimer =>
          holdTimer := 0;
          if state == Open {
            MoveTo(Closing);
            StartClosing();
          }
        case CloseTimer =>
          closeTimer := 0;
          if state == Closing {
            MoveTo(Closed);
          }
        case FaultAlarmTimer =>
          faultAlarmTimer := 0;
          if state == Fault {
            alarms := alarms + 1;
            StartFaultAlarm();
          }
      }
    }

    method Wait(ms: nat)
      modifies this, clock
      ensures PositiveDelays(CALLBACKS) && Model() == Advanced(CALLBACKS, old(Model()), ms)
    {
      DelaysArePositive();
      var after := clock.Advance(CALLBACKS, Value(), ms);
      state, since, alarms := after.state, after.since, after.alarms;
      openTimer, holdTimer := after.openTimer, after.holdTimer;
      closeTimer, faultAlarmTimer := after.closeTimer, after.faultAlarmTimer;
      faultInjected, antiSmashCount := after.faultInjected, after.antiSmashCount;
    }
  }
}
