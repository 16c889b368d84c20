/**
 When the server gives which verdict to a replayed event, with the times and limits written out, and what the
 counters of a reply count.
 */
module ReplayVerdicts {
  import opened Outcomes
  import opened TextUtil
  import opened TimeUtil
  import ParkingSpots
  import opened ParkingRecords
  import opened ReplayServer

  // --- Reading an event -------------------------------------------------------------------

  ghost predicate AllSpace(s: string) {
    forall i :: 0 <= i < |s| ==> IsSpace(s[i])
  }

  /** A plate as it is used: the text without the white space around it. */
  lemma {:induction false} PlateOf(s: string) returns (before: string, after: string)
    ensures s == before + Trimmed(s) + after && AllSpace(before) && AllSpace(after)
    ensures Trimmed(s) != "" ==> !IsSpace(Trimmed(s)[0]) && !IsSpace(Trimmed(s)[|Trimmed(s)| - 1])
    decreases |s|
  {
    if s == "" {
      before, after := "", "";
    } else if IsSpace(s[0]) {
      before, after := PlateOf(s[1..]);
      before := [s[0]] + before;
    } else if IsSpace(s[|s| - 1]) {
      before, after := PlateOf(s[..|s| - 1]);
      after := after + [s[|s| - 1]];
    } else {
      before, after := "", "";
    }
  }

  /** A time of the past 30 days, or at most five minutes ahead of the clock, and a plate. */
  ghost predicate Readable(event: Event, now: int) {
    && Trimmed(event.plate) != "" && event.ts.Whole?
    && 0 < event.ts.ms && now - 2_592_000_000 <= event.ts.ms <= now + 300_000
  }

  ghost predicate InOrOut(event: Event) {
    event.kind == "enter" || event.kind == "exit"
  }

  /** A record of that plate entered, or left, at the millisecond of the event. */
  ghost predicate OnRecord(records: seq<Record>, event: Event) {
    exists i :: 0 <= i < |records| && AtThatTime(records[i], event)
  }

  ghost predicate AtThatTime(record: Record, event: Event) {
    && record.plate == Trimmed(event.plate) && event.ts.Whole?
    && if event.kind == "enter" then SameMillisecond(record.entry, event.ts.ms)
       else record.exit.Some? && SameMillisecond(record.exit.value, event.ts.ms)
  }

  /** For times since the epoch: the tick lies in that millisecond. */
  ghost predicate SameMillisecond(ticks: int, ms: int) {
    ms * 1_000_000 <= ticks < (ms + 1) * 1_000_000
  }

  lemma SameMillisecondIs(ticks: int, ms: int)
    requires ms > 0
    ensures SameMillisecond(ticks, ms) <==> Millis(ticks) == ms
  {
  }

  lemma OnRecordIs(records: seq<Record>, event: Event, now: int)
    requires Readable(event, now) && InOrOut(event)
    ensures OnRecord(records, event) <==> Recorded(records, KeyOf(event))
  {
    forall i | 0 <= i < |records| ensures AtThatTime(records[i], event) <==> SameRecord(records[i], KeyOf(event)) {
      SameMillisecondIs(records[i].entry, event.ts.ms);
      if records[i].exit.Some? {
        SameMillisecondIs(records[i].exit.value, event.ts.ms);
      }
    }
    hide AtThatTime, SameRecord;
  }

  // --- Verdicts ---------------------------------------------------------------------------

  /** An event is turned down unread exactly when its plate or time is bad, or else its kind is unknown. */
  lemma UnreadIff(env: Environment, s: Service, event: Event, now: int)
    ensures ReplayOne(env, s, event, now) == (s, Skipped(BadPlateOrTime)) <==> !Readable(event, now)
    ensures ReplayOne(env, s, event, now) == (s, Skipped(UnknownKind)) <==> Readable(event, now) && !InOrOut(event)
  {
  }

  /** An event is called a duplicate exactly when it is readable and a record already has its plate and, for its kind,
      its time. */
  lemma DuplicateIff(env: Environment, s: Service, event: Event, now: int)
    ensures ReplayOne(env, s, event, now).1 == Duplicate <==>
            Readable(event, now) && InOrOut(event) && OnRecord(s.records, event)
    ensures ReplayOne(env, s, event, now).1 == Duplicate ==> ReplayOne(env, s, event, now).0 == s
  {
    if Readable(event, now) && InOrOut(event) {
      OnRecordIs(s.records, event, now);
    }
    hide Recorded, OnRecord;
  }

  ghost predicate Parked(records: seq<Record>, plate: string) {
    exists i :: 0 <= i < |records| && records[i].plate == plate && records[i].exit.None?
  }

  ghost predicate SupportedTime(ms: int) {
    946_684_800_000 <= ms <= 7_258_118_400_000
  }

  /** The spot an entry gets: that of a reservation due now, or, for a vehicle not parked, an allotted one. */
  ghost function Place(env: Environment, s: Service, event: Event, vehicleType: VehicleType): Option<string> {
    var plate, time := Trimmed(event.plate), Integer(event.ts) * 1_000_000;
    if env.checkIn(s.operations, plate, time).Some? then env.checkIn(s.operations, plate, time)
    else if Parked(s.records, plate) then None
    else env.allot(s.operations, plate, vehicleType, time)
  }

  lemma FirstOpenIs(records: seq<Record>, plate: string)
    ensures FirstOpen(records, plate) < |records| <==> Parked(records, plate)
  {
    var i := FirstOpen(records, plate);
    if i < |records| {
      assert OpenFor(records[i], plate);
    }
    forall j | 0 <= j < |records| ensures OpenFor(records[j], plate) <==> records[j].plate == plate && records[j].exit.None? {}
  }

  ghost predicate NewEvent(s: Service, event: Event, now: int) {
    Readable(event, now) && InOrOut(event) && !OnRecord(s.records, event)
  }

  lemma TypeNames(text: string)
    ensures VehicleTypeOf(text) == Some(ParkingSpots.Car) <==> text == "car"
    ensures VehicleTypeOf(text) == Some(ParkingSpots.Motorcycle) <==> text == "motorcycle"
    ensures VehicleTypeOf(text) == Some(ParkingSpots.Truck) <==> text == "truck"
    ensures VehicleTypeOf(text) == Some(ParkingSpots.Electric) <==> text == "electric"
  {
  }

  /** A new entry is applied exactly when its vehicle type is known, its time supported and there is a place for it, and
      then in that place; otherwise it is refused. */
  lemma EntryApplied(env: Environment, s: Service, event: Event, now: int)
    requires NewEvent(s, event, now) && event.kind == "enter"
    ensures var vehicleType, verdict := VehicleTypeOf(event.vehicleType), ReplayOne(env, s, event, now).1;
            if vehicleType.Some? && SupportedTime(event.ts.ms) && Place(env, s, event, vehicleType.value).Some?
            then verdict == Applied(Place(env, s, event, vehicleType.value).value)
            else verdict == Skipped(EntryRefused)
    ensures ReplayOne(env, s, event, now).0.operations
         == s.operations + if VehicleTypeOf(event.vehicleType).Some? then 1 else 0
  {
    OnRecordIs(s.records, event, now);
    FirstOpenIs(s.records, Trimmed(event.plate));
    hide Recorded, OnRecord, FirstOpen, Parked;
  }

  /** The first open record of a plate. */
  ghost predicate FirstStay(records: seq<Record>, plate: string, i: nat) {
    && i < |records| && records[i].plate == plate && records[i].exit.None?
    && forall j :: 0 <= j < i ==> !(records[j].plate == plate && records[j].exit.None?)
  }

  /** A new exit is applied exactly when the vehicle is parked, came no later, the time is supported and the settlement
      answers; and then the fee left to pay is what the deposit does not cover. */
  lemma ExitApplied(env: Environment, s: Service, event: Event, now: int, i: nat)
    requires NewEvent(s, event, now) && event.kind == "exit" && FirstStay(s.records, Trimmed(event.plate), i)
    ensures var (after, verdict) := ReplayOne(env, s, event, now);
            var time := event.ts.ms * 1_000_000;
            var charge := env.settle(s.operations, s.records[i], time);
            && after.operations == s.operations + 1
            && if SupportedTime(event.ts.ms) && s.records[i].entry <= time && charge.Some?
               then && verdict == Applied(s.records[i].spotId) && after.records[i].exit == Some(time)
                    && after.records[i].fee == if charge.value.deposit < charge.value.fee then charge.value.fee - charge.value.deposit else 0.0
               else verdict == Skipped(ExitRefused)
  {
    OnRecordIs(s.records, event, now);
    var k := FirstOpen(s.records, Trimmed(event.plate));
    assert OpenFor(s.records[i], Trimmed(event.plate));
    assert k == i;
    hide Recorded, OnRecord;
  }

  lemma NobodyLeaves(env: Environment, s: Service, event: Event, now: int)
    requires NewEvent(s, event, now) && event.kind == "exit" && !Parked(s.records, Trimmed(event.plate))
    ensures ReplayOne(env, s, event, now) == (s.(operations := s.operations + 1), Skipped(ExitRefused))
  {
    OnRecordIs(s.records, event, now);
    FirstOpenIs(s.records, Trimmed(event.plate));
    hide Recorded, OnRecord, FirstOpen, Parked;
  }

  // --- Replies ----------------------------------------------------------------------------

  ghost function Positions(verdicts: seq<Verdict>, outcome: Outcome): set<nat> {
    set k: nat | k < |verdicts| && OutcomeOf(verdicts[k]) == outcome
  }

  lemma OneMorePosition(verdicts: seq<Verdict>, outcome: Outcome)
    requires verdicts != []
    ensures Positions(verdicts, outcome)
         == Positions(verdicts[..|verdicts| - 1], outcome)
          + if OutcomeOf(verdicts[|verdicts| - 1]) == outcome then {|verdicts| - 1} else {}
  {
  }

  lemma {:induction false} CountIs(verdicts: seq<Verdict>, outcome: Outcome)
    ensures Count(verdicts, outcome) == |Positions(verdicts, outcome)|
    decreases |verdicts|
  {
    if verdicts == [] {
      assert Positions(verdicts, outcome) == {};
    } else {
      var last := |verdicts| - 1;
      CountIs(verdicts[..last], outcome);
      var before := Positions(verdicts[..last], outcome);
      OneMorePosition(verdicts, outcome);
      assert last !in before;
      hide Positions, OutcomeOf;
    }
  }

  /** A reply to a batch of 1 to 500 events tells, for each event in its place, its trimmed plate, its kind and its
      verdict; and its counters count the applied, the duplicate and the skipped ones. */
  lemma ReplyTells(env: Environment, s: Service, events: seq<Event>, now: int)
    ensures var verdicts := Verdicts(env, s, events, now);
            var r := Summary(events, verdicts);
            && |r.results| == |events|
            && (forall k :: 0 <= k < |events| ==> r.results[k] == ItemResult(Trimmed(events[k].plate), events[k].kind, verdicts[k]))
            && r.applied == |set k: nat | k < |verdicts| && verdicts[k].Applied?|
            && r.duplicate == |set k: nat | k < |verdicts| && verdicts[k].Duplicate?|
            && r.skipped == |set k: nat | k < |verdicts| && verdicts[k].Skipped?|
  {
    var verdicts := Verdicts(env, s, events, now);
    CountIs(verdicts, WasApplied);
    CountIs(verdicts, WasDuplicate);
    CountIs(verdicts, WasSkipped);
    hide Verdicts, Count, Trimmed;
    assert Positions(verdicts, WasApplied) == set k: nat | k < |verdicts| && verdicts[k].Applied?;
    assert Positions(verdicts, WasDuplicate) == set k: nat | k < |verdicts| && verdicts[k].Duplicate?;
    assert Positions(verdicts, WasSkipped) == set k: nat | k < |verdicts| && verdicts[k].Skipped?;
  }

  /** The server takes a batch if and only if it has 1 to 500 events. */
  lemma BatchTaken(env: Environment, s: Service, events: seq<Event>, now: int)
    ensures Act(env, s, Batch(events, now)) == if 1 <= |events| <= 500 then ReplayState(env, s, events, now) else s
  {
  }
}
