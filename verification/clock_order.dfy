/** In which order and when the virtual clock fires its timers. */
module ClockOrder {
  import opened GateClock

  /** Every firing takes the timer that has been due the longest, the one set first among equals, at its due time or, if
      that has passed, at once. */
  lemma EachAtItsTime<A(!new), W(!new)>(h: Handler<A, W>, c: Clock<A, W>)
    requires PositiveDelays(h) && c.timers != []
    ensures var i, d := Earliest(c.timers), FireEarliest(h, c);
            && (forall j :: 0 <= j < |c.timers| ==> c.timers[i].due <= c.timers[j].due)
            && (forall j :: 0 <= j < i ==> c.timers[i].due < c.timers[j].due)
            && d.now == (if c.timers[i].due > c.now then c.timers[i].due else c.now)
            && d.fired == c.fired + [(c.timers[i].id, d.now)]
            && d.world == h.fire(c.timers[i].action, c.world, c.nextId, d.now).0
  {
    var i := Earliest(c.timers);
    var e, now := c.timers[i], Max(c.now, c.timers[i].due);
    var (world, commands) := h.fire(e.action, c.world, c.nextId, now);
    ApplyKeepsTime(Clock(c.timers[..i] + c.timers[i + 1..], c.nextId, now, world, c.fired + [(e.id, now)]), commands);
  }

  // --- Setting and cancelling -------------------------------------------------------------------

  ghost predicate Numbered<A, W>(c: Clock<A, W>) {
    && (forall i :: 0 <= i < |c.timers| ==> c.timers[i].id < c.nextId)
    && (forall i, j :: 0 <= i < j < |c.timers| ==> c.timers[i].id != c.timers[j].id)
  }

  /** A timer set is due after its delay, behind those set before, and its id is that of no other. */
  lemma SettingAdds<A, W>(c: Clock<A, W>, delay: int, action: A)
    requires Numbered(c)
    ensures var d := ScheduleTimer(c, delay, action);
            && Numbered(d) && |d.timers| == |c.timers| + 1 && d.timers[..|c.timers|] == c.timers
            && d.timers[|c.timers|] == Entry(c.nextId, c.now + delay, action)
            && (d.now, d.world, d.fired) == (c.now, c.world, c.fired)
            && forall i :: 0 <= i < |c.timers| ==> c.timers[i].id != c.nextId
  {
  }

  lemma {:induction false} WithoutIs<A>(timers: seq<Entry<A>>, id: nat)
    ensures forall e :: e in Without(timers, id) <==> e in timers && e.id != id
    ensures (forall e :: e in timers ==> e.id != id) ==> Without(timers, id) == timers
  {
    if timers != [] {
      WithoutIs(timers[1..], id);
    }
  }

  /** Cancelling takes away the timers of that id and leaves the others; id zero stands for no timer. */
  lemma CancellingRemoves<A, W>(c: Clock<A, W>, id: nat)
    ensures CancelTimer(c, 0) == c
    ensures id != 0 ==> forall e :: e in CancelTimer(c, id).timers <==> e in c.timers && e.id != id
    ensures id != 0 && (forall e :: e in c.timers ==> e.id != id) ==> CancelTimer(c, id) == c
    ensures CancelTimer(c, id) == c.(timers := CancelTimer(c, id).timers)
  {
    WithoutIs(c.timers, id);
  }

  // --- Firing -------------------------------------------------------------------------------------

  /** What was fired from c to d: at times that never go back, from the time at c to the time at d. */
  ghost predicate InOrder<A, W>(c: Clock<A, W>, d: Clock<A, W>) {
    && c.fired <= d.fired && c.now <= d.now
    && (forall i :: |c.fired| <= i < |d.fired| ==> c.now <= d.fired[i].1 <= d.now)
    && (forall i, j :: |c.fired| <= i < j < |d.fired| ==> d.fired[i].1 <= d.fired[j].1)
  }

  /** Advancing fires timers in the order of time, none of them later than the target, and leaves none due by then; the
      clock ends at the target. */
  lemma {:induction false} AdvanceInOrder<A(!new), W(!new)>(h: Handler<A, W>, c: Clock<A, W>, delta: nat)
    requires PositiveDelays(h)
    ensures var d := Advanced(h, c, delta);
            InOrder(c, d) && d.now == c.now + delta && forall i :: 0 <= i < |d.timers| ==> d.timers[i].due > d.now
  {
    RunInOrder(h, c, c.now + delta);
    RunStaysBy(h, c, c.now + delta);
    hide PositiveDelays, RunUntil;
  }

  lemma {:induction false} RunInOrder<A(!new), W(!new)>(h: Handler<A, W>, c: Clock<A, W>, target: int)
    requires PositiveDelays(h) && c.now <= target
    ensures InOrder(c, RunUntil(h, c, target))
    decreases Max(target - c.now, 0), Overdue(c.timers, c.now)
  {
    if DueBy(c, target) {
      EachAtItsTime(h, c);
      FireMakesProgress(h, c);
      var d := FireEarliest(h, c);
      hide PositiveDelays, FireEarliest, Earliest, Overdue;
      RunInOrder(h, d, target);
      OneMoreInOrder(c, d, RunUntil(h, d, target));
    }
  }

  lemma OneMoreInOrder<A, W>(c: Clock<A, W>, d: Clock<A, W>, e: Clock<A, W>)
    requires |d.fired| == |c.fired| + 1 && c.fired <= d.fired && d.fired[|c.fired|].1 == d.now >= c.now && InOrder(d, e)
    ensures InOrder(c, e)
  {
    forall i | |c.fired| <= i < |e.fired| ensures c.now <= e.fired[i].1 <= e.now {
      if i == |c.fired| {
        assert e.fired[i] == d.fired[i];
      }
    }
    forall i, j | |c.fired| <= i < j < |e.fired| ensures e.fired[i].1 <= e.fired[j].1 {
      if i == |c.fired| {
        assert e.fired[i] == d.fired[i];
      }
    }
  }

  // --- Callbacks that ask for nothing ---------------------------------------------------------

  ghost predicate AsksNothing<A(!new), W(!new)>(h: Handler<A, W>) {
    forall a, w, id: nat, t {:trigger h.fire(a, w, id, t)} :: h.fire(a, w, id, t).1 == []
  }

  function Ids<A>(timers: seq<Entry<A>>, from: int, to: int): multiset<(nat, int)> {
    if timers == [] then multiset{}
    else
      Ids(timers[1..], from, to) + if timers[0].due <= to then multiset{(timers[0].id, Max(from, timers[0].due))} else multiset{}
  }

  lemma {:induction false} IdsConcat<A>(a: seq<Entry<A>>, b: seq<Entry<A>>, from: int, to: int)
    ensures Ids(a + b, from, to) == Ids(a, from, to) + Ids(b, from, to)
  {
    if a == [] {
      assert a + b == b;
    } else {
      assert (a + b)[1..] == a[1..] + b;
      IdsConcat(a[1..], b, from, to);
    }
  }

  lemma {:induction false} IdsLater<A>(timers: seq<Entry<A>>, from: int, later: int, to: int)
    requires from <= later && forall i :: 0 <= i < |timers| ==> later <= Max(from, timers[i].due)
    ensures Ids(timers, later, to) == Ids(timers, from, to)
  {
    if timers != [] {
      IdsLater(timers[1..], from, later, to);
    }
  }

  lemma {:induction false} NoneDue<A>(timers: seq<Entry<A>>, from: int, to: int)
    requires forall i :: 0 <= i < |timers| ==> timers[i].due > to
    ensures Ids(timers, from, to) == multiset{}
  {
    if timers != [] {
      NoneDue(timers[1..], from, to);
    }
  }

  /** With callbacks that ask for nothing, advancing fires exactly the timers due by the target, each once and at its own
      time, or at once if that has passed. */
  lemma {:induction false} EachOnce<A(!new), W(!new)>(h: Handler<A, W>, c: Clock<A, W>, target: int)
    requires PositiveDelays(h) && AsksNothing(h) && c.now <= target
    ensures var d := RunUntil(h, c, target);
            c.fired <= d.fired && multiset(d.fired[|c.fired|..]) == Ids(c.timers, c.now, target)
    decreases Max(target - c.now, 0), Overdue(c.timers, c.now)
  {
    if DueBy(c, target) {
      var i, d := Earliest(c.timers), FireEarliest(h, c);
      EachAtItsTime(h, c);
      FireMakesProgress(h, c);
      TakenOut(h, c);
      EachOnce(h, d, target);
      var end := RunUntil(h, d, target);
      Fired(c, d, end, i, target);
    } else {
      NoneDue(c.timers, c.now, target);
    }
  }

  lemma TakenOut<A(!new), W(!new)>(h: Handler<A, W>, c: Clock<A, W>)
    requires AsksNothing(h) && c.timers != []
    ensures var i := Earliest(c.timers); FireEarliest(h, c).timers == c.timers[..i] + c.timers[i + 1..]
  {
  }

  lemma Fired<A, W>(c: Clock<A, W>, d: Clock<A, W>, end: Clock<A, W>, i: nat, target: int)
    requires i < |c.timers| && (forall j :: 0 <= j < |c.timers| ==> c.timers[i].due <= c.timers[j].due) && c.timers[i].due <= target
    requires d.timers == c.timers[..i] + c.timers[i + 1..] && d.now == Max(c.now, c.timers[i].due)
    requires d.fired == c.fired + [(c.timers[i].id, d.now)] && d.fired <= end.fired
    requires multiset(end.fired[|d.fired|..]) == Ids(d.timers, d.now, target)
    ensures multiset(end.fired[|c.fired|..]) == Ids(c.timers, c.now, target)
  {
    var a, e, b := c.timers[..i], c.timers[i], c.timers[i + 1..];
    assert c.timers == a + ([e] + b);
    IdsLater(d.timers, c.now, d.now, target);
    IdsOfOne(e, c.now, target);
    FirstFired(c.fired, (e.id, d.now), end.fired);
    hide Ids;
    IdsConcat(a, [e] + b, c.now, target);
    IdsConcat([e], b, c.now, target);
    IdsConcat(a, b, c.now, target);
  }

  lemma IdsOfOne<A>(e: Entry<A>, from: int, to: int)
    requires e.due <= to
    ensures Ids([e], from, to) == multiset{(e.id, Max(from, e.due))}
  {
    assert [e][1..] == [];
  }

  lemma FirstFired(before: seq<(nat, int)>, x: (nat, int), after: seq<(nat, int)>)
    requires before + [x] <= after
    ensures multiset(after[|before|..]) == multiset{x} + multiset(after[|before| + 1..])
  {
    assert after[|before|..] == [x] + after[|before| + 1..];
  }
}
