/**
 How the barrier answers its inputs, over whole runs: when it reverses, how long it stays open, what a fault
 does, which inputs change nothing, and what its two counters count.
 */
module BarrierMoves {
  import opened GateClock
  import opened BarrierGate

  /** The system after a run followed by one input. */
  ghost function Given(steps: seq<Step>, input: Input): System {
    Run(START, steps + [Do(input)])
  }

  /** The same, t quiet milliseconds later. */
  ghost function Later(steps: seq<Step>, input: Input, t: nat): System {
    Run(START, steps + [Do(input), Wait(t)])
  }

  lemma GivenIs(steps: seq<Step>, input: Input)
    ensures Matched(Run(START, steps)) && Matched(Given(steps, input))
    ensures Given(steps, input) == Operate(Run(START, steps), input)
    ensures Given(steps, input).now == Run(START, steps).now
    ensures Given(steps, input).world == Handle(input, Run(START, steps).world, Run(START, steps).nextId, Run(START, steps).now).0
  {
    var c := Run(START, steps);
    TimersMatchState(steps);
    RunAppends(steps, Do(input));
    OperateKeepsMatched(c, input);
    var (b, commands) := Handle(input, c.world, c.nextId, c.now);
    ApplyKeepsTime(c.(world := b), commands);
  }

  lemma LaterIs(steps: seq<Step>, input: Input, t: nat)
    ensures PositiveDelays(CALLBACKS)
    ensures Later(steps, input, t) == AdvanceTo(CALLBACKS, Given(steps, input), Given(steps, input).now + t)
  {
    DelaysArePositive();
    RunAppends(steps + [Do(input)], Wait(t));
    assert steps + [Do(input), Wait(t)] == steps + [Do(input)] + [Wait(t)];
  }

  // --- Opening --------------------------------------------------------------------------

  /** A barrier that is opening since now is open 700 ms later, stays so for 5000 ms and is down after another 700;
      with the fault injected it is stuck from 700 ms on, with an alarm every 4000 ms. */
  ghost predicate WillOpen(steps: seq<Step>, input: Input, t: nat) {
    var b := Later(steps, input, t).world;
    if !Given(steps, input).world.faultInjected
    then b.state == if t < 700 then Opening else if t < 5700 then Open else if t < 6400 then Closing else Closed
    else if t < 700 then b.state == Opening
    else b.state == Fault && b.since == Run(START, steps).now + 700 && b.alarms == (t - 700) / 4000
  }

  lemma {:induction false} StaysFaulty(c: System, target: int)
    requires PositiveDelays(CALLBACKS) && Matched(c) && c.world.state == Fault && c.now <= target
    ensures var b := AdvanceTo(CALLBACKS, c, target).world;
            b.state == Fault && b.since == c.world.since && b.alarms == (target - b.since) / 4000
    decreases target - c.now
  {
    OneFiring(c, target);
    if c.timers[0].due <= target {
      FireKeepsMatched(c);
      FireShape(c);
      var e := c.timers[0];
      var (b, commands) := Callback(e.action, c.world, c.nextId, e.due);
      ApplyKeepsTime(Clock([], c.nextId, e.due, b, c.fired + [(e.id, e.due)]), commands);
      StaysFaulty(FireEarliest(CALLBACKS, c), target);
    }
  }

  lemma OpeningGetsStuck(c: System, target: int)
    requires PositiveDelays(CALLBACKS) && Matched(c) && c.world.state == Opening && c.world.faultInjected && c.now <= target
    ensures var b := AdvanceTo(CALLBACKS, c, target).world;
            if target < c.world.since + 700 then b.state == Opening
            else b.state == Fault && b.since == c.world.since + 700 && b.alarms == (target - b.since) / 4000
  {
    OneFiring(c, target);
    if c.timers[0].due <= target {
      FireKeepsMatched(c);
      FireShape(c);
      var e := c.timers[0];
      var (b, commands) := Callback(e.action, c.world, c.nextId, e.due);
      ApplyKeepsTime(Clock([], c.nextId, e.due, b, c.fired + [(e.id, e.due)]), commands);
      StaysFaulty(FireEarliest(CALLBACKS, c), target);
    }
  }

  lemma OpeningOpens(steps: seq<Step>, input: Input, t: nat)
    requires Given(steps, input).world.state == Opening && Given(steps, input).world.since == Run(START, steps).now
    ensures WillOpen(steps, input, t)
  {
    GivenIs(steps, input);
    LaterIs(steps, input, t);
    var c := Given(steps, input);
    hide Run, Take, Operate, Matched, Handle, AdvanceTo, Given, Later;
    if c.world.faultInjected {
      OpeningGetsStuck(c, c.now + t);
    } else {
      OpeningRunsOut(c, c.now + t);
    }
  }

  /** A falling barrier reverses at once, for a vehicle below it as for a new release; and opens. */
  lemma FallingReverses(steps: seq<Step>, input: Input, t: nat)
    requires Run(START, steps).world.state == Closing && (input == RequestOpen || input == VehiclePassed)
    ensures Given(steps, input).world.state == Opening && Given(steps, input).world.since == Run(START, steps).now
    ensures Given(steps, input).world.faultInjected == Run(START, steps).world.faultInjected
    ensures WillOpen(steps, input, t)
  {
    GivenIs(steps, input);
    OpeningOpens(steps, input, t);
  }

  /** A release opens a closed barrier. */
  lemma ClosedOpens(steps: seq<Step>, t: nat)
    requires Run(START, steps).world.state == Closed
    ensures Given(steps, RequestOpen).world.state == Opening && Given(steps, RequestOpen).world.since == Run(START, steps).now
    ensures Given(steps, RequestOpen).world.faultInjected == Run(START, steps).world.faultInjected
    ensures WillOpen(steps, RequestOpen, t)
  {
    GivenIs(steps, RequestOpen);
    OpeningOpens(steps, RequestOpen, t);
  }

  lemma HeldAnew(c: System)
    requires Matched(c) && c.world.state == Open
    ensures OpenUntil(Operate(c, RequestOpen), c.now + 5000) && Operate(c, RequestOpen).now == c.now
  {
    OpenKeepsMatched(c, RequestOpen);
    Replaces(c.(world := Handle(RequestOpen, c.world, c.nextId, c.now).0), c.world.holdTimer, HOLD_TIMEOUT_MS, HoldTimer);
    assert Handle(RequestOpen, c.world, c.nextId, c.now).1 == [Cancel(c.world.holdTimer), Schedule(HOLD_TIMEOUT_MS, HoldTimer)];
  }

  /** A release of an open barrier keeps it open for another 5000 ms. */
  lemma OpenIsHeld(steps: seq<Step>, t: nat)
    requires Run(START, steps).world.state == Open
    ensures Later(steps, RequestOpen, t).world.state == if t < 5000 then Open else if t < 5700 then Closing else Closed
  {
    var c := Run(START, steps);
    GivenIs(steps, RequestOpen);
    LaterIs(steps, RequestOpen, t);
    hide Run, Take, Operate, Matched, Handle, AdvanceTo, Given, Later, OpenUntil;
    HeldAnew(c);
    OpenRunsOut(Given(steps, RequestOpen), c.now + 5000, c.now + t);
  }

  lemma OpensInTime(c: System)
    requires PositiveDelays(CALLBACKS) && Matched(c) && c.world.state == Opening && !c.world.faultInjected
    ensures AdvanceTo(CALLBACKS, c, c.now + 700).world.state == Open
  {
    OpeningRunsOut(c, c.now + 700);
  }

  lemma OpeningKeepsOpening(steps: seq<Step>)
    requires Run(START, steps).world.state == Opening && !Run(START, steps).world.faultInjected
    ensures Later(steps, RequestOpen, 700).world.state == Open
  {
    GivenIs(steps, RequestOpen);
    LaterIs(steps, RequestOpen, 700);
    hide Run, Take, Operate, Matched, AdvanceTo, Given, Later;
    OpensInTime(Given(steps, RequestOpen));
  }

  /** Whatever a barrier without a fault is doing, 700 quiet milliseconds after a release it is open. */
  lemma ReleaseFindsOpen(steps: seq<Step>)
    requires Run(START, steps).world.state != Fault && !Run(START, steps).world.faultInjected
    ensures Later(steps, RequestOpen, 700).world.state == Open
  {
    hide Run, Given, Later;
    match Run(START, steps).world.state {
      case Closed => ClosedOpens(steps, 700);
      case Closing => FallingReverses(steps, RequestOpen, 700);
      case Open => OpenIsHeld(steps, 700);
      case Opening =>
        OpeningKeepsOpening(steps);
    }
  }

  // --- Closing --------------------------------------------------------------------------

  /** The vehicle has passed an open barrier: it falls at once and is down after 700 ms. */
  lemma PassCloses(steps: seq<Step>, t: nat)
    requires Run(START, steps).world.state == Open
    ensures Given(steps, VehiclePassed).world.state == Closing
    ensures Given(steps, VehiclePassed).world.since == Run(START, steps).now
    ensures Later(steps, VehiclePassed, t).world.state == if t < 700 then Closing else Closed
  {
    GivenIs(steps, VehiclePassed);
    LaterIs(steps, VehiclePassed, t);
    var c := Given(steps, VehiclePassed);
    hide Run, Take, Operate, AdvanceTo, Given, Later, Matched;
    assert ClosingFrom(c, c.now);
    hide Handle;
    ClosingThenClosed(c, c.now, c.now + t);
  }

  /** A reset from fault closes the barrier and leaves no timer pending. */
  lemma ResetCloses(steps: seq<Step>)
    requires Run(START, steps).world.state == Fault
    ensures var c := Given(steps, Reset);
            c.world.state == Closed && c.world.since == Run(START, steps).now && c.timers == []
  {
    GivenIs(steps, Reset);
  }

  // --- Everything else ------------------------------------------------------------------

  predicate Heeds(state: State, input: Input) {
    match input
    case RequestOpen => state == Closed || state == Open || state == Closing
    case VehiclePassed => state == Open || state == Closing
    case SetFault(_) => false
    case Reset => state == Fault
  }

  /** Any other input leaves the barrier and its timers alone; injecting a fault shows only the next time it opens. */
  lemma NothingElseMoves(steps: seq<Step>, input: Input)
    requires !Heeds(Run(START, steps).world.state, input)
    ensures var c, d := Run(START, steps), Given(steps, input);
            d == c.(world := c.world.(faultInjected := d.world.faultInjected))
  {
    RunAppends(steps, Do(input));
  }

  // --- What is counted --------------------------------------------------------------------

  /** The last fault setting, if there was one. */
  function LastFault(steps: seq<Step>): bool
    decreases |steps|
  {
    if steps == [] then false
    else
      var last := steps[|steps| - 1];
      if last.Do? && last.input.SetFault? then last.input.enabled else LastFault(steps[..|steps| - 1])
  }

  /** How many vehicles were met by a falling barrier. */
  ghost function Met(steps: seq<Step>): nat
    decreases |steps|
  {
    if steps == [] then 0
    else
      var before, last := steps[..|steps| - 1], steps[|steps| - 1];
      Met(before) + if last == Do(VehiclePassed) && Run(START, before).world.state == Closing then 1 else 0
  }

  lemma {:induction false} WaitingKeepsCounts(c: System, target: int)
    requires PositiveDelays(CALLBACKS) && Matched(c) && c.now <= target
    ensures var b := AdvanceTo(CALLBACKS, c, target).world;
            b.antiSmashCount == c.world.antiSmashCount && b.faultInjected == c.world.faultInjected
    decreases target - c.now
  {
    if c.timers != [] {
      OneFiring(c, target);
      if c.timers[0].due <= target {
        FireKeepsMatched(c);
        FiringKeepsCounts(c);
        hide Matched, FireEarliest, AdvanceTo;
        WaitingKeepsCounts(FireEarliest(CALLBACKS, c), target);
      }
    }
  }

  lemma FiringKeepsCounts(c: System)
    requires Matched(c) && c.timers != []
    ensures var b := FireEarliest(CALLBACKS, c).world;
            b.antiSmashCount == c.world.antiSmashCount && b.faultInjected == c.world.faultInjected
  {
    FireShape(c);
    var e, now := c.timers[0], Max(c.now, c.timers[0].due);
    var (b, commands) := Callback(e.action, c.world, c.nextId, now);
    DelaysArePositive();
    ApplyKeepsTime(Clock([], c.nextId, now, b, c.fired + [(e.id, now)]), commands);
    hide Matched, FireEarliest;
  }

  /** In every run the fault setting is the last one made, whatever else happened, resets included; and the counter
      counts exactly the vehicles met while falling. */
  lemma {:induction false} CountersCount(steps: seq<Step>)
    ensures Run(START, steps).world.faultInjected == LastFault(steps)
    ensures Run(START, steps).world.antiSmashCount == Met(steps)
    decreases |steps|
  {
    if steps != [] {
      var before, last := steps[..|steps| - 1], steps[|steps| - 1];
      CountersCount(before);
      StepCounts(before, last);
      assert before + [last] == steps;
      hide Run, Take;
    }
  }

  lemma InputCounts(before: seq<Step>, input: Input)
    ensures var b, d := Run(START, before).world, Given(before, input).world;
            && d.faultInjected == (if input.SetFault? then input.enabled else b.faultInjected)
            && d.antiSmashCount == b.antiSmashCount + if input == VehiclePassed && b.state == Closing then 1 else 0
  {
    GivenIs(before, input);
    hide Run, Given, Operate, Matched;
  }

  lemma WaitCounts(before: seq<Step>, ms: nat)
    ensures var b, d := Run(START, before).world, Run(START, before + [Wait(ms)]).world;
            d.faultInjected == b.faultInjected && d.antiSmashCount == b.antiSmashCount
  {
    DelaysArePositive();
    TimersMatchState(before);
    RunAppends(before, Wait(ms));
    hide Run, AdvanceTo, Matched;
    WaitingKeepsCounts(Run(START, before), Run(START, before).now + ms);
  }

  lemma StepCounts(before: seq<Step>, last: Step)
    ensures var b, d := Run(START, before).world, Run(START, before + [last]).world;
            && d.faultInjected == (if last.Do? && last.input.SetFault? then last.input.enabled else b.faultInjected)
            && d.antiSmashCount == b.antiSmashCount + if last == Do(VehiclePassed) && b.state == Closing then 1 else 0
  {
    hide Run;
    match last {
      case Do(input) => InputCounts(before, input);
      case Wait(ms) => WaitCounts(before, ms);
    }
  }
}
