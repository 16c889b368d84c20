/**
 The server's half of offline replay: a batch of gate events with their original times is
 validated, de-duplicated against the parking records and applied, each event getting a
 verdict of its own.
 */
module ReplayServer {
  import opened Outcomes
  import opened TextUtil
  import opened TimeUtil
  import ParkingSpots
  import opened ParkingRecords

  type VehicleType = ParkingSpots.VehicleType

  const FUTURE_MS := 5 * 60 * 1000
  const WINDOW_MS := 30 * 24 * 60 * 60 * 1000
  const MAX_EVENTS := 500

  /** A JSON value in the place of the time stamp; a fraction reads as 0. */
  datatype Stamp = Whole(ms: int) | Fraction | NotNumber

  datatype Event = Event(kind: string, plate: string, vehicleType: string, ts: Stamp)

  type Money = r: real | r >= 0.0

  /** A leaving vehicle's parking fee and the deposit that can be set against it. */
  datatype Charge = Charge(fee: Money, deposit: Money)

  /** Everything outside the records that decides an operation: reservations, spots, the database.
      The first argument counts the operations so far, so an answer may depend on all of the past. */
  datatype Environment = Environment(checkIn: (nat, string, int) -> Option<string>,
                                     allot: (nat, string, VehicleType, int) -> Option<string>,
                                     settle: (nat, Record, int) -> Option<Charge>)

  datatype Key = Key(plate: string, kind: string, ts: int)

  /** `applied` is a history variable: the events that changed the records. */
  datatype Service = Service(records: seq<Record>, operations: nat, applied: seq<Key>)

  datatype Failure = BadPlateOrTime | UnknownKind | EntryRefused | ExitRefused

  datatype Verdict = Applied(spotId: string) | Duplicate | Skipped(reason: Failure)

  // --- Values -----------------------------------------------------------------------

  function Trimmed(s: string): (r: string)
    ensures r == "" || (!IsSpace(r[0]) && !IsSpace(r[|r| - 1]))
    decreases |s|
  {
    if s == "" then ""
    else if IsSpace(s[0]) then Trimmed(s[1..])
    else if IsSpace(s[|s| - 1]) then Trimmed(s[..|s| - 1])
    else s
  }

  function Integer(stamp: Stamp): int {
    if stamp.Whole? then stamp.ms else 0
  }

  /** Truncation towards zero, as a cast between durations does. */
  function Millis(ticks: int): int {
    if ticks >= 0 then ticks / TICKS_PER_MS else -(-ticks / TICKS_PER_MS)
  }

  function VehicleTypeOf(text: string): Option<VehicleType> {
    match text
    case "car" => Some(ParkingSpots.Car)
    case "motorcycle" => Some(ParkingSpots.Motorcycle)
    case "truck" => Some(ParkingSpots.Truck)
    case "electric" => Some(ParkingSpots.Electric)
    case _ => None
  }

  function KeyOf(event: Event): Key {
    Key(Trimmed(event.plate), event.kind, Integer(event.ts))
  }

  /** Does the record carry the event's plate and, at its end for that kind of event, its time? */
  predicate SameRecord(record: Record, key: Key) {
    && record.plate == key.plate
    && if key.kind == "enter" then Millis(record.entry) == key.ts
       else record.exit.Some? && Millis(record.exit.value) == key.ts
  }

  predicate Recorded(records: seq<Record>, key: Key) {
    exists i :: 0 <= i < |records| && SameRecord(records[i], key)
  }

  // --- The parking service ------------------------------------------------------------

  predicate OpenFor(record: Record, plate: string) {
    record.plate == plate && record.exit.None?
  }

  /** Index of the first open record of the plate, or the number of records. */
  function FirstOpen(records: seq<Record>, plate: string): (i: nat)
    ensures i <= |records| && (i < |records| ==> OpenFor(records[i], plate))
    ensures forall j :: 0 <= j < i ==> !OpenFor(records[j], plate)
  {
    if records == [] || OpenFor(records[0], plate) then 0 else 1 + FirstOpen(records[1..], plate)
  }

  /** A reservation due at the gate is honoured first; any other vehicle must not be inside already. */
  function Admit(env: Environment, s: Service, plate: string, vehicleType: VehicleType, time: int): Option<string> {
    if !TimeValid(time) then None
    else if env.checkIn(s.operations, plate, time).Some? then env.checkIn(s.operations, plate, time)
    else if FirstOpen(s.records, plate) < |s.records| then None
    else env.allot(s.operations, plate, vehicleType, time)
  }

  function Enter(env: Environment, s: Service, plate: string, vehicleType: VehicleType, time: int): (Service, Option<string>) {
    var spot := Admit(env, s, plate, vehicleType, time);
    var tried := s.(operations := s.operations + 1);
    (if spot.None? then tried
     else tried.(records := s.records + [Record(plate, spot.value, time, None, 0.0)],
                 applied := s.applied + [Key(plate, "enter", Millis(time))]),
     spot)
  }

  function FeeDue(charge: Charge): real {
    charge.fee - if charge.deposit < charge.fee then charge.deposit else charge.fee
  }

  function Leave(env: Environment, s: Service, plate: string, time: int): (Service, Option<string>) {
    var i := FirstOpen(s.records, plate);
    var tried := s.(operations := s.operations + 1);
    if !TimeValid(time) || i == |s.records| || time < s.records[i].entry then (tried, None)
    else
      var charge := env.settle(s.operations, s.records[i], time);
      if charge.None? then (tried, None)
      else (tried.(records := s.records[i := Close(s.records[i], time, FeeDue(charge.value))],
                   applied := s.applied + [Key(plate, "exit", Millis(time))]),
            Some(s.records[i].spotId))
  }

  // --- Replay -----------------------------------------------------------------------

  predicate Acceptable(event: Event, now: int) {
    && Trimmed(event.plate) != "" && !event.ts.NotNumber?
    && Integer(event.ts) > 0 && now - WINDOW_MS <= Integer(event.ts) <= now + FUTURE_MS
  }

  function ReplayOne(env: Environment, s: Service, event: Event, now: int): (Service, Verdict) {
    var key := KeyOf(event);
    if !Acceptable(event, now) then (s, Skipped(BadPlateOrTime))
    else if key.kind != "enter" && key.kind != "exit" then (s, Skipped(UnknownKind))
    else if Recorded(s.records, key) then (s, Duplicate)
    else if key.kind == "enter" then
      var vehicleType := VehicleTypeOf(event.vehicleType);
      if vehicleType.None? then (s, Skipped(EntryRefused))
      else
        var (after, spot) := Enter(env, s, key.plate, vehicleType.value, key.ts * TICKS_PER_MS);
        (after, if spot.Some? then Applied(spot.value) else Skipped(EntryRefused))
    else
      var (after, spot) := Leave(env, s, key.plate, key.ts * TICKS_PER_MS);
      (after, if spot.Some? then Applied(spot.value) else Skipped(ExitRefused))
  }

  function ReplayState(env: Environment, s: Service, events: seq<Event>, now: int): Service
    decreases |events|
  {
    if events == [] then s
    else ReplayOne(env, ReplayState(env, s, events[..|events| - 1], now), events[|events| - 1], now).0
  }

  function Verdicts(env: Environment, s: Service, events: seq<Event>, now: int): (r: seq<Verdict>)
    ensures |r| == |events|
    decreases |events|
  {
    if events == [] then []
    else
      var earlier := events[..|events| - 1];
      Verdicts(env, s, earlier, now) + [ReplayOne(env, ReplayState(env, s, earlier, now), events[|events| - 1], now).1]
  }

  datatype Outcome = WasApplied | WasDuplicate | WasSkipped

  function OutcomeOf(verdict: Verdict): Outcome {
    match verdict
    case Applied(_) => WasApplied
    case Duplicate => WasDuplicate
    case Skipped(_) => WasSkipped
  }

  function Count(verdicts: seq<Verdict>, outcome: Outcome): nat {
    if verdicts == [] then 0
    else Count(verdicts[..|verdicts| - 1], outcome) + if OutcomeOf(verdicts[|verdicts| - 1]) == outcome then 1 else 0
  }

  datatype ItemResult = ItemResult(plate: string, kind: string, verdict: Verdict)

  datatype Response =
    | Rejected
    | Replayed(applied: nat, duplicate: nat, skipped: nat, results: seq<ItemResult>)

  // --- What a verdict means -------------------------------------------------------------

  lemma ExactMillis(ts: int)
    requires ts > 0
    ensures Millis(ts * TICKS_PER_MS) == ts
  {
  }

  /** An applied entry adds one open record with the event's time; an applied exit closes the plate's first
      open record at the event's time, which is not before its entry; any other verdict leaves the records alone. */
  lemma VerdictMeaning(env: Environment, s: Service, event: Event, now: int)
    ensures var (after, verdict) := ReplayOne(env, s, event, now);
            var time := KeyOf(event).ts * TICKS_PER_MS;
            && (!verdict.Applied? ==> after.records == s.records && after.applied == s.applied)
            && (verdict.Applied? ==> after.applied == s.applied + [KeyOf(event)])
            && (verdict.Applied? && event.kind == "enter" ==>
                  after.records == s.records + [Record(KeyOf(event).plate, verdict.spotId, time, None, 0.0)])
            && (verdict.Applied? && event.kind != "enter" ==>
                  var i := FirstOpen(s.records, KeyOf(event).plate);
                  && i < |s.records| && s.records[i].entry <= time && verdict.spotId == s.records[i].spotId
                  && |after.records| == |s.records| && after.records == s.records[i := after.records[i]]
                  && OpenFor(s.records[i], KeyOf(event).plate)
                  && after.records[i] == s.records[i].(exit := Some(time), fee := after.records[i].fee)
                  && after.records[i].fee >= 0.0)
  {
    if Acceptable(event, now) {
      ExactMillis(KeyOf(event).ts);
    }
  }

  /** Verdicts come in the order of submission, each judged on the records the earlier events left behind. */
  lemma {:induction false} VerdictOrder(env: Environment, s: Service, events: seq<Event>, now: int, k: nat)
    requires k < |events|
    ensures Verdicts(env, s, events, now)[k] == ReplayOne(env, ReplayState(env, s, events[..k], now), events[k], now).1
    decreases |events|
  {
    var last := |events| - 1;
    if k < last {
      VerdictOrder(env, s, events[..last], now, k);
      assert events[..last][..k] == events[..k];
    }
  }

  /** The same stay, perhaps over by now, and perhaps with its times cut to milliseconds. */
  ghost predicate Continues(before: Record, after: Record) {
    && after.plate == before.plate && Millis(after.entry) == Millis(before.entry)
    && (before.exit.Some? ==> after.exit.Some? && Millis(after.exit.value) == Millis(before.exit.value))
  }

  /** Records are only added, closed, and cut to milliseconds. */
  ghost predicate Extends(before: seq<Record>, after: seq<Record>) {
    && |before| <= |after|
    && forall i {:trigger before[i]} {:trigger after[i]} :: 0 <= i < |before| ==> Continues(before[i], after[i])
  }

  lemma RecordedStays(before: seq<Record>, after: seq<Record>, key: Key)
    requires Extends(before, after) && Recorded(before, key)
    ensures Recorded(after, key)
  {
    var i :| 0 <= i < |before| && SameRecord(before[i], key);
    assert SameRecord(after[i], key);
  }

  lemma ReplayExtends(env: Environment, s: Service, event: Event, now: int)
    ensures Extends(s.records, ReplayOne(env, s, event, now).0.records)
  {
    VerdictMeaning(env, s, event, now);
  }

  lemma AppliedIsRecorded(env: Environment, s: Service, event: Event, now: int)
    requires ReplayOne(env, s, event, now).1.Applied?
    ensures !Recorded(s.records, KeyOf(event)) && Recorded(ReplayOne(env, s, event, now).0.records, KeyOf(event))
  {
    VerdictMeaning(env, s, event, now);
    var after := ReplayOne(env, s, event, now).0;
    ExactMillis(KeyOf(event).ts);
    var at := if event.kind == "enter" then |s.records| else FirstOpen(s.records, KeyOf(event).plate);
    assert SameRecord(after.records[at], KeyOf(event));
  }

  // --- Runs -----------------------------------------------------------------------------

  /** Between batches other operations may change the records in any way that only adds and closes, and a restart of
      the server reads them back with whole milliseconds. */
  datatype Action = Batch(events: seq<Event>, now: int) | Live(records: seq<Record>, operations: nat)

  ghost predicate Allowed(s: Service, action: Action) {
    action.Live? ==> Extends(s.records, action.records)
  }

  function Act(env: Environment, s: Service, action: Action): Service {
    match action
    case Batch(events, now) => if 1 <= |events| <= MAX_EVENTS then ReplayState(env, s, events, now) else s
    case Live(records, operations) => s.(records := records, operations := operations)
  }

  ghost predicate IsRun(env: Environment, trace: seq<Service>, actions: seq<Action>) {
    && |trace| == |actions| + 1
    && forall i :: 0 <= i < |actions| ==> Allowed(trace[i], actions[i]) && trace[i + 1] == Act(env, trace[i], actions[i])
  }

  /** Every event applied so far is on record, and none was applied twice. */
  ghost predicate Sound(s: Service) {
    && (forall i, j :: 0 <= i < j < |s.applied| ==> s.applied[i] != s.applied[j])
    && (forall i :: 0 <= i < |s.applied| ==> Recorded(s.records, s.applied[i]))
  }

  lemma OneKeepsSound(env: Environment, s: Service, event: Event, now: int)
    requires Sound(s)
    ensures Sound(ReplayOne(env, s, event, now).0)
  {
    var (after, verdict) := ReplayOne(env, s, event, now);
    VerdictMeaning(env, s, event, now);
    ReplayExtends(env, s, event, now);
    forall i | 0 <= i < |s.applied| ensures Recorded(after.records, s.applied[i]) {
      RecordedStays(s.records, after.records, s.applied[i]);
    }
    if verdict.Applied? {
      AppliedIsRecorded(env, s, event, now);
    }
  }

  lemma {:induction false} BatchKeepsSound(env: Environment, s: Service, events: seq<Event>, now: int)
    requires Sound(s)
    ensures Sound(ReplayState(env, s, events, now))
    ensures Extends(s.records, ReplayState(env, s, events, now).records)
    decreases |events|
  {
    if events != [] {
      var earlier := events[..|events| - 1];
      BatchKeepsSound(env, s, earlier, now);
      OneKeepsSound(env, ReplayState(env, s, earlier, now), events[|events| - 1], now);
      ReplayExtends(env, ReplayState(env, s, earlier, now), events[|events| - 1], now);
    }
  }

  lemma ActKeepsSound(env: Environment, s: Service, action: Action)
    requires Sound(s) && Allowed(s, action)
    ensures Sound(Act(env, s, action)) && Extends(s.records, Act(env, s, action).records)
  {
    match action {
      case Batch(events, now) => BatchKeepsSound(env, s, events, now);
      case Live(records, operations) =>
        forall i | 0 <= i < |s.applied| ensures Recorded(records, s.applied[i]) {
          RecordedStays(s.records, records, s.applied[i]);
        }
    }
  }

  /** A time as it comes back from the tables. */
  function Reread(ticks: int): Option<int> {
    if ToMilliseconds(ticks).None? then None else FromMilliseconds(ToMilliseconds(ticks).value)
  }

  predicate Rereadable(record: Record) {
    Reread(record.entry).Some? && (record.exit.Some? ==> Reread(record.exit.value).Some?)
  }

  function RereadRecord(record: Record): Record
    requires Rereadable(record)
  {
    record.(entry := Reread(record.entry).value,
            exit := if record.exit.None? then None else Reread(record.exit.value))
  }

  /** The records after a restart of the server. */
  function Reloaded(records: seq<Record>): (r: seq<Record>)
    requires forall i :: 0 <= i < |records| ==> Rereadable(records[i])
    ensures |r| == |records|
  {
    seq(|records|, i requires 0 <= i < |records| && Rereadable(records[i]) => RereadRecord(records[i]))
  }

  /** A restart is one of the things that may happen between batches. */
  lemma RestartIsAllowed(s: Service)
    requires forall i :: 0 <= i < |s.records| ==> Rereadable(s.records[i])
    ensures Allowed(s, Live(Reloaded(s.records), s.operations))
  {
    forall i | 0 <= i < |s.records| ensures Continues(s.records[i], Reloaded(s.records)[i]) {
      RereadMillis(s.records[i].entry);
      if s.records[i].exit.Some? {
        RereadMillis(s.records[i].exit.value);
      }
    }
  }

  lemma RereadMillis(ticks: int)
    requires Reread(ticks).Some?
    ensures Millis(Reread(ticks).value) == Millis(ticks)
  {
    TimeRoundTrip(ticks);
  }

  /** Over any run, whatever is sent again and in whatever batches, each (plate, kind, time) changes the
      records at most once. */
  lemma {:induction false} AppliedAtMostOnce(env: Environment, trace: seq<Service>, actions: seq<Action>)
    requires IsRun(env, trace, actions) && trace[0].applied == []
    ensures Sound(trace[|actions|])
    decreases |actions|
  {
    if actions != [] {
      var n := |actions| - 1;
      AppliedAtMostOnce(env, trace[..n + 1], actions[..n]);
      ActKeepsSound(env, trace[n], actions[n]);
    }
  }

  /** An event that was applied anywhere in the run and comes again inside the window is called a duplicate. */
  lemma ResentIsDuplicate(env: Environment, trace: seq<Service>, actions: seq<Action>, event: Event, now: int)
    requires IsRun(env, trace, actions) && trace[0].applied == []
    requires KeyOf(event) in trace[|actions|].applied && Acceptable(event, now)
    requires event.kind == "enter" || event.kind == "exit"
    ensures ReplayOne(env, trace[|actions|], event, now) == (trace[|actions|], Duplicate)
  {
    AppliedAtMostOnce(env, trace, actions);
  }

  /** Every event of a batch is counted under exactly one verdict. */
  lemma {:induction false} CountsAddUp(verdicts: seq<Verdict>)
    ensures Count(verdicts, WasApplied) + Count(verdicts, WasDuplicate)
          + Count(verdicts, WasSkipped) == |verdicts|
  {
    if verdicts != [] {
      CountsAddUp(verdicts[..|verdicts| - 1]);
    }
  }

  // --- The server's action ----------------------------------------------------------------

  ghost function Items(events: seq<Event>, verdicts: seq<Verdict>): (r: seq<ItemResult>)
    requires |events| == |verdicts|
    ensures |r| == |events|
  {
    seq(|events|, i requires 0 <= i < |events| => ItemResult(Trimmed(events[i].plate), events[i].kind, verdicts[i]))
  }

  ghost function Summary(events: seq<Event>, verdicts: seq<Verdict>): Response
    requires |events| == |verdicts|
  {
    Replayed(Count(verdicts, WasApplied), Count(verdicts, WasDuplicate),
             Count(verdicts, WasSkipped), Items(events, verdicts))
  }

  function Plus(before: Response, event: Event, verdict: Verdict): Response
    requires before.Replayed?
  {
    Replayed(before.applied + if verdict.Applied? then 1 else 0,
             before.duplicate + if verdict.Duplicate? then 1 else 0,
             before.skipped + if verdict.Skipped? then 1 else 0,
             before.results + [ItemResult(Trimmed(event.plate), event.kind, verdict)])
  }

  lemma SummaryGrows(events: seq<Event>, verdicts: seq<Verdict>, i: nat, verdict: Verdict)
    requires i < |events| && |verdicts| == i
    ensures Summary(events[..i + 1], verdicts + [verdict]) == Plus(Summary(events[..i], verdicts), events[i], verdict)
  {
    assert (verdicts + [verdict])[..i] == verdicts;
    assert Items(events[..i + 1], verdicts + [verdict])
        == Items(events[..i], verdicts) + [ItemResult(Trimmed(events[i].plate), events[i].kind, verdict)];
  }

  lemma ReplayGrows(env: Environment, s: Service, events: seq<Event>, now: int, i: nat)
    requires i < |events|
    ensures var (after, verdict) := ReplayOne(env, ReplayState(env, s, events[..i], now), events[i], now);
            && ReplayState(env, s, events[..i + 1], now) == after
            && Verdicts(env, s, events[..i + 1], now) == Verdicts(env, s, events[..i], now) + [verdict]
  {
    assert events[..i + 1][..i] == events[..i];
  }

  /** After the first i events: the state and the response built so far. */
  ghost predicate Progress(env: Environment, s: Service, events: seq<Event>, now: int, i: nat, after: Service, response: Response) {
    && i <= |events|
    && after == ReplayState(env, s, events[..i], now)
    && response == Summary(events[..i], Verdicts(env, s, events[..i], now))
  }

  lemma ProgressStarts(env: Environment, s: Service, events: seq<Event>, now: int)
    ensures Progress(env, s, events, now, 0, s, Replayed(0, 0, 0, []))
  {
    assert events[..0] == [];
  }

  lemma ProgressStep(env: Environment, s: Service, events: seq<Event>, now: int, i: nat, after: Service, response: Response)
    requires Progress(env, s, events, now, i, after, response) && i < |events|
    ensures var (next, verdict) := ReplayOne(env, after, events[i], now);
            response.Replayed? && Progress(env, s, events, now, i + 1, next, Plus(response, events[i], verdict))
  {
    ReplayGrows(env, s, events, now, i);
    SummaryGrows(events, Verdicts(env, s, events[..i], now), i, ReplayOne(env, after, events[i], now).1);
  }

  lemma ProgressEnds(env: Environment, s: Service, events: seq<Event>, now: int, after: Service, response: Response)
    requires 1 <= |events| <= MAX_EVENTS && Progress(env, s, events, now, |events|, after, response)
    ensures after == Act(env, s, Batch(events, now)) && response == Summary(events, Verdicts(env, s, events, now))
  {
    assert events[..|events|] == events;
  }

  class Server {
    const env: Environment
    var records: seq<Record>
    var operations: nat
    ghost var applied: seq<Key>

    ghost function Model(): Service
      reads this
    {
      Service(records, operations, applied)
    }

    constructor (env: Environment, records: seq<Record>)
      ensures this.env == env && Model() == Service(records, 0, [])
    {
      this.env, this.records, operations, applied := env, records, 0, [];
    }

    method FindRecord(key: Key) returns (found: bool)
      ensures found <==> Recorded(records, key)
    {
      for i := 0 to |records|
        invariant forall j :: 0 <= j < i ==> !SameRecord(records[j], key)
      {
        if SameRecord(records[i], key) {
          return true;
        }
      }
      found := false;
    }

    method FindOpen(plate: string) returns (i: nat)
      ensures i == FirstOpen(records, plate)
    {
      i := 0;
      while i < |records| && !OpenFor(records[i], plate)
        invariant i <= |records|
        invariant forall j :: 0 <= j < i ==> !OpenFor(records[j], plate)
      {
        i := i + 1;
      }
    }

    method EnterVehicle(plate: string, vehicleType: VehicleType, time: int) returns (spot: Option<string>)
      modifies this
      ensures (Model(), spot) == Enter(env, old(Model()), plate, vehicleType, time)
    {
      spot := None;
      if TimeValid(time) {
        spot := env.checkIn(operations, plate, time);
        if spot.None? {
          var open := FindOpen(plate);
          if open == |records| {
            spot := env.allot(operations, plate, vehicleType, time);
          }
        }
      }
      operations := operations + 1;
      if spot.Some? {
        records := records + [Record(plate, spot.value, time, None, 0.0)];
        applied := applied + [Key(plate, "enter", Millis(time))];
      }
    }

    method LeaveVehicle(plate: string, time: int) returns (spot: Option<string>)
      modifies this
      ensures (Model(), spot) == Leave(env, old(Model()), plate, time)
    {
      spot := None;
      var i := FindOpen(plate);
      if TimeValid(time) && i < |records| && time >= records[i].entry {
        var charge := env.settle(operations, records[i], time);
        if charge.Some? {
          spot := Some(records[i].spotId);
          records := records[i := Close(records[i], time, FeeDue(charge.value))];
          applied := applied + [Key(plate, "exit", Millis(time))];
        }
      }
      operations := operations + 1;
    }

    method ReplayEvent(event: Event, now: int) returns (verdict: Verdict)
      modifies this
      ensures (Model(), verdict) == ReplayOne(env, old(Model()), event, now)
    {
      var key := KeyOf(event);
      if !Acceptable(event, now) {
        return Skipped(BadPlateOrTime);
      }
      if key.kind != "enter" && key.kind != "exit" {
        return Skipped(UnknownKind);
      }
      var found := FindRecord(key);
      if found {
        verdict := Duplicate;
      } else if key.kind == "enter" {
        var vehicleType := VehicleTypeOf(event.vehicleType);
        if vehicleType.None? {
          return Skipped(EntryRefused);
        }
        var spot := EnterVehicle(key.plate, vehicleType.value, key.ts * TICKS_PER_MS);
        verdict := if spot.Some? then Applied(spot.value) else Skipped(EntryRefused);
      } else {
        var spot := LeaveVehicle(key.plate, key.ts * TICKS_PER_MS);
        verdict := if spot.Some? then Applied(spot.value) else Skipped(ExitRefused);
      }
    }

    method ActionGateReplay(events: seq<Event>, now: int) returns (response: Response)
      modifies this
      ensures Model() == Act(env, old(Model()), Batch(events, now))
      ensures response == if 1 <= |events| <= MAX_EVENTS then Summary(events, Verdicts(env, old(Model()), events, now)) else Rejected
    {
      if |events| == 0 || |events| > MAX_EVENTS {
        return Rejected;
      }
      ghost var before := Model();
      var results, applied, duplicate, skipped := [], 0, 0, 0;
      ProgressStarts(env, before, events, now);
      hide Progress, ReplayOne, ReplayState, Verdicts, Summary, Act, Trimmed;
      for i := 0 to |events|
        invariant Progress(env, before, events, now, i, Model(), Replayed(applied, duplicate, skipped, results))
      {
        ProgressStep(env, before, events, now, i, Model(), Replayed(applied, duplicate, skipped, results));
        ghost var expected := Plus(Replayed(applied, duplicate, skipped, results), events[i], ReplayOne(env, Model(), events[i], now).1);
        var verdict := ReplayEvent(events[i], now);
        match verdict {
          case Applied(_) => applied := applied + 1;
          case Duplicate => duplicate := duplicate + 1;
          case Skipped(_) => skipped := skipped + 1;
        }
        results := results + [ItemResult(Trimmed(events[i].plate), events[i].kind, verdict)];
        assert Replayed(applied, duplicate, skipped, results) == expected;
      }
      response := Replayed(applied, duplicate, skipped, results);
      ProgressEnds(env, before, events, now, Model(), response);
    }
  }
}
