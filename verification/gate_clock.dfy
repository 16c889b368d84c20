/**
 The virtual clock that drives the barrier: one-shot timers ordered by due time, with
 callbacks that may schedule and cancel further timers.  Time can be advanced in one go
 or in pieces with exactly the same effect.
 */
module GateClock {

  datatype Entry<A> = Entry(id: nat, due: int, action: A)

  /** What a callback asks of the clock, in order. */
  datatype Command<A> = Schedule(delay: int, action: A) | Cancel(id: nat)

  /** Deterministic callbacks: from the action, the state they change, the next timer id and the time. */
  datatype Handler<!A, !W> = Handler(fire: (A, W, nat, int) -> (W, seq<Command<A>>))

  /** `fired` is a history variable: which timers fired, and when. */
  datatype Clock<A, W> = Clock(timers: seq<Entry<A>>, nextId: nat, now: int, world: W, fired: seq<(nat, int)>)

  ghost predicate PositiveDelays<A(!new), W(!new)>(h: Handler<A, W>) {
    forall a, w, id: nat, t, i {:trigger h.fire(a, w, id, t).1[i]} :: 0 <= i < |h.fire(a, w, id, t).1| && h.fire(a, w, id, t).1[i].Schedule? ==>
      h.fire(a, w, id, t).1[i].delay > 0
  }

  // --- Operations ------------------------------------------------------------------

  function ScheduleTimer<A, W>(c: Clock<A, W>, delay: int, action: A): Clock<A, W> {
    c.(timers := c.timers + [Entry(c.nextId, c.now + delay, action)], nextId := c.nextId + 1)
  }

  function Without<A>(timers: seq<Entry<A>>, id: nat): seq<Entry<A>> {
    if timers == [] then []
    else if timers[0].id == id then Without(timers[1..], id)
    else [timers[0]] + Without(timers[1..], id)
  }

  /** Cancelling id zero, or a timer that fired already, does nothing. */
  function CancelTimer<A, W>(c: Clock<A, W>, id: nat): Clock<A, W> {
    if id == 0 then c else c.(timers := Without(c.timers, id))
  }

  function Apply<A, W>(c: Clock<A, W>, commands: seq<Command<A>>): Clock<A, W>
    decreases |commands|
  {
    if commands == [] then c
    else
      var next := match commands[0]
        case Schedule(delay, action) => ScheduleTimer(c, delay, action)
        case Cancel(id) => CancelTimer(c, id);
      Apply(next, commands[1..])
  }

  /** Index of the first timer with the least due time. */
  function Earliest<A>(timers: seq<Entry<A>>): (i: nat)
    requires timers != []
    ensures i < |timers|
    ensures forall j :: 0 <= j < |timers| ==> timers[i].due <= timers[j].due
    ensures forall j :: 0 <= j < i ==> timers[i].due < timers[j].due
  {
    if |timers| == 1 then 0
    else
      var i := Earliest(timers[..|timers| - 1]);
      assert timers[..|timers| - 1][i] == timers[i];
      if timers[|timers| - 1].due < timers[i].due then |timers| - 1 else i
  }

  function Max(a: int, b: int): int { if a < b then b else a }

  /** Remove the earliest timer, move the time to its due date if that lies ahead, run its callback. */
  function FireEarliest<A, W>(h: Handler<A, W>, c: Clock<A, W>): Clock<A, W>
    requires c.timers != []
  {
    var i := Earliest(c.timers);
    var e, now := c.timers[i], Max(c.now, c.timers[i].due);
    var (world, commands) := h.fire(e.action, c.world, c.nextId, now);
    Apply(Clock(c.timers[..i] + c.timers[i + 1..], c.nextId, now, world, c.fired + [(e.id, now)]), commands)
  }

  predicate DueBy<A, W>(c: Clock<A, W>, target: int) {
    c.timers != [] && c.timers[Earliest(c.timers)].due <= target
  }

  // --- Every firing makes progress ------------------------------------------------------

  function Overdue<A>(timers: seq<Entry<A>>, now: int): nat {
    if timers == [] then 0
    else Overdue(timers[1..], now) + if timers[0].due <= now then 1 else 0
  }

  lemma {:induction false} OverdueConcat<A>(a: seq<Entry<A>>, b: seq<Entry<A>>, now: int)
    ensures Overdue(a + b, now) == Overdue(a, now) + Overdue(b, now)
  {
    if a == [] {
      assert a + b == b;
    } else {
      assert (a + b)[1..] == a[1..] + b;
      OverdueConcat(a[1..], b, now);
    }
  }

  lemma {:induction false} OverdueWithout<A>(timers: seq<Entry<A>>, id: nat, now: int)
    ensures Overdue(Without(timers, id), now) <= Overdue(timers, now)
  {
    if timers != [] {
      OverdueWithout(timers[1..], id, now);
      if timers[0].id != id {
        assert Without(timers, id)[1..] == Without(timers[1..], id);
      }
    }
  }

  /** Commands with positive delays never add an overdue timer and never move time. */
  lemma {:induction false} ApplyKeepsTime<A, W>(c: Clock<A, W>, commands: seq<Command<A>>)
    requires forall i :: 0 <= i < |commands| && commands[i].Schedule? ==> commands[i].delay > 0
    ensures Apply(c, commands).now == c.now && Apply(c, commands).fired == c.fired
    ensures Apply(c, commands).world == c.world
    ensures Overdue(Apply(c, commands).timers, c.now) <= Overdue(c.timers, c.now)
    decreases |commands|
  {
    if commands != [] {
      match commands[0] {
        case Schedule(delay, action) =>
          var e := Entry(c.nextId, c.now + delay, action);
          OverdueConcat(c.timers, [e], c.now);
          ApplyKeepsTime(ScheduleTimer(c, delay, action), commands[1..]);
        case Cancel(id) =>
          OverdueWithout(c.timers, id, c.now);
          ApplyKeepsTime(CancelTimer(c, id), commands[1..]);
      }
    }
  }

  lemma FireMakesProgress<A(!new), W(!new)>(h: Handler<A, W>, c: Clock<A, W>)
    requires PositiveDelays(h) && c.timers != []
    ensures var d, next := c.timers[Earliest(c.timers)].due, FireEarliest(h, c);
            && next.now == Max(c.now, d)
            && (d <= c.now ==> Overdue(next.timers, next.now) < Overdue(c.timers, c.now))
  {
    var i := Earliest(c.timers);
    var e, now := c.timers[i], Max(c.now, c.timers[i].due);
    var (world, commands) := h.fire(e.action, c.world, c.nextId, now);
    var rest := c.timers[..i] + c.timers[i + 1..];
    ApplyKeepsTime(Clock(rest, c.nextId, now, world, c.fired + [(e.id, now)]), commands);
    assert c.timers == c.timers[..i] + ([e] + c.timers[i + 1..]);
    OverdueConcat(c.timers[..i], [e] + c.timers[i + 1..], c.now);
    OverdueConcat([e], c.timers[i + 1..], c.now);
    OverdueConcat(c.timers[..i], c.timers[i + 1..], c.now);
  }

  /** Fire everything due by `target`.  Always ends: each firing moves time or uses up an overdue timer. */
  ghost function RunUntil<A(!new), W(!new)>(h: Handler<A, W>, c: Clock<A, W>, target: int): Clock<A, W>
    requires PositiveDelays(h)
    decreases Max(target - c.now, 0), Overdue(c.timers, c.now)
  {
    if !DueBy(c, target) then c
    else
      FireMakesProgress(h, c);
      RunUntil(h, FireEarliest(h, c), target)
  }

  ghost function AdvanceTo<A(!new), W(!new)>(h: Handler<A, W>, c: Clock<A, W>, target: int): Clock<A, W>
    requires PositiveDelays(h)
  {
    var run := RunUntil(h, c, target);
    run.(now := Max(run.now, target))
  }

  ghost function Advanced<A(!new), W(!new)>(h: Handler<A, W>, c: Clock<A, W>, delta: int): Clock<A, W>
    requires PositiveDelays(h)
  {
    AdvanceTo(h, c, c.now + delta)
  }

  // --- Splitting -------------------------------------------------------------------

  lemma {:induction false} RunStaysBy<A(!new), W(!new)>(h: Handler<A, W>, c: Clock<A, W>, target: int)
    requires PositiveDelays(h) && c.now <= target
    ensures c.now <= RunUntil(h, c, target).now <= target && !DueBy(RunUntil(h, c, target), target)
    decreases Max(target - c.now, 0), Overdue(c.timers, c.now)
  {
    if DueBy(c, target) {
      FireMakesProgress(h, c);
      RunStaysBy(h, FireEarliest(h, c), target);
    }
  }

  lemma {:induction false} RunInStages<A(!new), W(!new)>(h: Handler<A, W>, c: Clock<A, W>, first: int, last: int)
    requires PositiveDelays(h) && first <= last
    ensures RunUntil(h, RunUntil(h, c, first), last) == RunUntil(h, c, last)
    decreases Max(first - c.now, 0), Overdue(c.timers, c.now)
  {
    if DueBy(c, first) {
      FireMakesProgress(h, c);
      RunInStages(h, FireEarliest(h, c), first, last);
    }
  }

  /** Moving the time forward to a point before the next due date does not change what happens later. */
  lemma IdleTime<A(!new), W(!new)>(h: Handler<A, W>, c: Clock<A, W>, first: int, last: int)
    requires PositiveDelays(h) && c.now <= first <= last && !DueBy(c, first)
    ensures AdvanceTo(h, c.(now := first), last) == AdvanceTo(h, c, last)
  {
    if DueBy(c, last) {
      assert FireEarliest(h, c.(now := first)) == FireEarliest(h, c);
    }
  }

  /** Virtual time is splittable: two advances in a row are one advance over their sum, down to the
      order and times of every callback. */
  lemma AdvanceSplits<A(!new), W(!new)>(h: Handler<A, W>, c: Clock<A, W>, a: nat, b: nat)
    requires PositiveDelays(h)
    ensures Advanced(h, Advanced(h, c, a), b) == Advanced(h, c, a + b)
  {
    var first, last := c.now + a, c.now + a + b;
    var mid := RunUntil(h, c, first);
    RunStaysBy(h, c, first);
    IdleTime(h, mid, first, last);
    RunInStages(h, c, first, last);
  }

  ghost function AdvanceAll<A(!new), W(!new)>(h: Handler<A, W>, c: Clock<A, W>, deltas: seq<nat>): Clock<A, W>
    requires PositiveDelays(h)
    decreases |deltas|
  {
    if deltas == [] then c else AdvanceAll(h, Advanced(h, c, deltas[0]), deltas[1..])
  }

  function Total(deltas: seq<nat>): nat {
    if deltas == [] then 0 else deltas[0] + Total(deltas[1..])
  }

  /** Any subdivision of a time span leads to the same clock. */
  lemma {:induction false} AdvanceInPieces<A(!new), W(!new)>(h: Handler<A, W>, c: Clock<A, W>, first: nat, deltas: seq<nat>)
    requires PositiveDelays(h)
    ensures AdvanceAll(h, Advanced(h, c, first), deltas) == Advanced(h, c, first + Total(deltas))
    decreases |deltas|
  {
    if deltas != [] {
      AdvanceSplits(h, c, first, deltas[0]);
      AdvanceInPieces(h, c, first + deltas[0], deltas[1..]);
    }
  }

  // --- The clock object --------------------------------------------------------------

  class VirtualGateClock<A(!new), W(!new)> {
    var timers: seq<Entry<A>>
    var nextId: nat
    var now: int
    ghost var fired: seq<(nat, int)>

    ghost function Model(world: W): Clock<A, W>
      reads this
    {
      Clock(timers, nextId, now, world, fired)
    }

    constructor ()
      ensures forall world: W :: Model(world) == Clock([], 1, 0, world, [])
    {
      timers, nextId, now, fired := [], 1, 0, [];
    }

    method Schedule(delay: int, action: A) returns (id: nat)
      modifies this
      ensures id == old(nextId)
      ensures forall world: W :: Model(world) == ScheduleTimer(old(Model(world)), delay, action)
    {
      id := nextId;
      nextId := nextId + 1;
      timers := timers + [Entry(id, now + delay, action)];
    }

    method Cancel(id: nat)
      modifies this
      ensures forall world: W :: Model(world) == CancelTimer(old(Model(world)), id)
    {
      if id == 0 {
        return;
      }
      var kept, i := [], 0;
      while i < |timers|
        invariant 0 <= i <= |timers|
        invariant kept + Without(timers[i..], id) == Without(timers, id)
      {
        if timers[i].id != id {
          kept := kept + [timers[i]];
        }
        i := i + 1;
      }
      timers := kept;
    }

    /** Run the commands a callback issues, in order. */
    method Execute(commands: seq<Command<A>>, ghost world: W)
      modifies this
      ensures Model(world) == Apply(old(Model(world)), commands)
    {
      var i := 0;
      assert commands[0..] == commands;
      while i < |commands|
        invariant 0 <= i <= |commands|
        invariant Apply(Model(world), commands[i..]) == Apply(old(Model(world)), commands)
      {
        assert commands[i..][1..] == commands[i + 1..];
        match commands[i] {
          case Schedule(delay, action) => var _ := Schedule(delay, action);
          case Cancel(id) => Cancel(id);
        }
        i := i + 1;
      }
    }

    /** First timer with the least due time. */
    method FindEarliest() returns (i: nat)
      requires timers != []
      ensures i == Earliest(timers)
    {
      i := 0;
      var j := 1;
      while j < |timers|
        invariant 1 <= j <= |timers| && i < j
        invariant forall k :: 0 <= k < j ==> timers[i].due <= timers[k].due
        invariant forall k :: 0 <= k < i ==> timers[i].due < timers[k].due
      {
        if timers[j].due < timers[i].due {
          i := j;
        }
        j := j + 1;
      }
    }

    method FireNext(h: Handler<A, W>, world: W) returns (after: W)
      requires timers != []
      modifies this
      ensures Model(after) == FireEarliest(h, old(Model(world)))
    {
      var i := FindEarliest();
      var e := timers[i];
      timers := timers[..i] + timers[i + 1..];
      if e.due > now {
        now := e.due;
      }
      fired := fired + [(e.id, now)];
      var (changed, commands) := h.fire(e.action, world, nextId, now);
      after := changed;
      Execute(commands, after);
    }

    /** Fire the nearest timer, if there is one. */
    method AdvanceToNextTimer(h: Handler<A, W>, world: W) returns (found: bool, after: W)
      modifies this
      ensures found <==> old(timers) != []
      ensures Model(after) == if found then FireEarliest(h, old(Model(world))) else old(Model(world))
    {
      if timers == [] {
        return false, world;
      }
      after := FireNext(h, world);
      found := true;
    }

    method Advance(h: Handler<A, W>, world: W, delta: int) returns (after: W)
      requires PositiveDelays(h)
      modifies this
      ensures Model(after) == Advanced(h, old(Model(world)), delta)
    {
      var target := now + delta;
      after := world;
      hide PositiveDelays, FireEarliest, Overdue;
      while true
        invariant RunUntil(h, Model(after), target) == RunUntil(h, old(Model(world)), target)
        decreases Max(target - now, 0), Overdue(timers, now)
      {
        if timers == [] {
          break;
        }
        var i := FindEarliest();
        if timers[i].due > target {
          break;
        }
        FireMakesProgress(h, Model(after));
        after := FireNext(h, after);
      }
      if target > now {
        now := target;
      }
    }
  }
}
