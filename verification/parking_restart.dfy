/**
 What a restart brings back: the service restored from the tables has the vehicles, the open records and the spots
 it had in memory, with times cut to milliseconds.
 */
module ParkingRestart {
  import opened Outcomes
  import opened TimeUtil
  import opened ParkingSpots
  import opened ParkingDatabase
  import opened ParkingRepositories
  import opened ParkingStore
  import opened ParkingEffects

  // --- Restoring ----------------------------------------------------------------------------------

  ghost function OpenPlates(records: seq<RecordRow>): set<string> {
    set i | 0 <= i < |records| && OpenRow(records[i]) :: records[i].plate
  }

  /** The first open row of a plate. */
  function OpenIndex(records: seq<RecordRow>, plate: string): (i: nat)
    ensures i <= |records| && (i < |records| ==> OpenRow(records[i]) && records[i].plate == plate)
    ensures i == |records| ==> forall j :: 0 <= j < |records| ==> !(OpenRow(records[j]) && records[j].plate == plate)
  {
    if records == [] || (OpenRow(records[0]) && records[0].plate == plate) then 0 else 1 + OpenIndex(records[1..], plate)
  }

  lemma OpenIndexIs(records: seq<RecordRow>, plate: string)
    ensures plate in OpenPlates(records) <==> OpenIndex(records, plate) < |records|
  {
  }

  function Loaded(r: RecordRow): ServiceRecord
    requires FromMilliseconds(r.entry).Some? && TypeOf(r.vehicleType).Some?
  {
    ServiceRecord(r.plate, r.spot, FromMilliseconds(r.entry).value, false, TypeOf(r.vehicleType).value)
  }

  ghost function RestoredActive(t: Tables): map<string, ServiceRecord>
    requires RestoreAccepts(t)
  {
    map p | p in OpenPlates(t.records) :: RestoredRecord(t, p)
  }

  ghost function RestoredSpots(t: Tables): map<string, Spot>
    requires RestoreAccepts(t)
  {
    map id | id in t.spots :: ReadSpot(id, t.spots[id]).value
  }

  /** The service as restored: every spot as its row says, and a record for every open row. */
  ghost function Restored(t: Tables): World
    requires RestoreAccepts(t)
  {
    World(RestoredSpots(t), RestoredActive(t), t)
  }

  ghost function RestoredRecord(t: Tables, plate: string): ServiceRecord
    requires RestoreAccepts(t) && plate in OpenPlates(t.records)
  {
    OpenIndexIs(t.records, plate);
    Loaded(t.records[OpenIndex(t.records, plate)])
  }

  // --- Memory and tables carry the same numbers ------------------------------------------------------

  ghost predicate SameRecord(r: RecordRow, active: map<string, ServiceRecord>) {
    OpenRow(r) ==>
      && r.plate in active && Supported(active[r.plate].entry)
      && r == RecordRow(r.plate, active[r.plate].spot, Millisecond(active[r.plate].entry), None, 0.0, TypeNumber(active[r.plate].vehicleType))
  }

  ghost predicate SameSpot(s: Spot, row: SpotRow) {
    s.status == Occupied && s.vehicle.Some? ==>
      row == SpotRow(1, Some(s.vehicle.value.plate), Some(TypeNumber(s.vehicle.value.vehicleType)), None)
  }

  /** Every open row is the record in memory, every occupied row the spot in memory. */
  ghost predicate Mirrored(w: World) {
    && (forall i :: 0 <= i < |w.tables.records| ==> SameRecord(w.tables.records[i], w.active))
    && (forall id :: id in w.spots && id in w.tables.spots ==> SameSpot(w.spots[id], w.tables.spots[id]))
  }

  lemma ParkingMirrors(w: World, id: string, v: Vehicle, time: int)
    requires Mirrored(w) && Supported(time) && v.plate !in w.active
    ensures Mirrored(ParkedOn(w, id, v, time))
  {
    var u := ParkedOn(w, id, v, time);
    forall i | 0 <= i < |u.tables.records| ensures SameRecord(u.tables.records[i], u.active) {
      if i < |w.tables.records| {
        assert SameRecord(w.tables.records[i], w.active);
      }
    }
  }

  lemma LeavingMirrors(w: World, plate: string, time: int, fee: real, i: nat)
    requires Consistent(w) && Mirrored(w) && plate in w.active && OpenAt(w, plate, i)
    ensures Mirrored(LeftFrom(w, plate, time, fee, i))
  {
    var u := LeftFrom(w, plate, time, fee, i);
    forall j | 0 <= j < |u.tables.records| ensures SameRecord(u.tables.records[j], u.active) {
      assert SameRecord(w.tables.records[j], w.active);
      if j != i && OpenRow(w.tables.records[j]) {
        assert OpenRow(w.tables.records[i]);
        assert w.tables.records[j].plate != plate;
      }
    }
  }

  lemma SpotMirrors(w: World, id: string, spot: Spot, t: Tables)
    requires Mirrored(w) && spot.status != Occupied && t.records == w.tables.records
    requires forall other :: other in t.spots && other != id ==> other in w.tables.spots && t.spots[other] == w.tables.spots[other]
    ensures Mirrored(World(w.spots[id := spot], w.active, t))
  {
  }

  lemma ArrivingMirrors(w: World, step: Step, fault: bool)
    requires Consistent(w) && Mirrored(w) && (step.Enter? || step.CheckIn? || step.ConfirmBooking?)
    ensures Mirrored(Next(w, step, fault))
  {
    match step {
      case Enter(id, v, time) =>
        EntryEffects(w, id, v, time, fault);
        SpotMirrors(w, id, Spot(id, Available, None, None), w.tables);
        if MayEnter(w, id, v, time) { ParkingMirrors(w, id, v, time); }
      case CheckIn(id, v, order, time, deadline) =>
        CheckInEffects(w, id, v, order, time, deadline, fault);
        SpotMirrors(w, id, Spot(id, Reserved, Some(v), Some(deadline)), w.tables);
        if Supported(time) && OrderFits(w, id, v, order) {
          ParkingMirrors(w, id, v, time);
          OrdersMirror(ParkedOn(w, id, v, time), Next(w, step, fault));
        }
      case ConfirmBooking(id, booking, time, deadline) =>
        BookingEffects(w, id, booking, time, deadline, fault);
        if Supported(time) && Held(w, id, booking.plate) {
          var v := w.spots[id].vehicle.value;
          SpotMirrors(w, id, Spot(id, Reserved, Some(v), Some(deadline)), w.tables);
          if BookingFits(w, id, booking) {
            ParkingMirrors(w, id, v, time);
            OrdersMirror(ParkedOn(w, id, v, time), Next(w, step, fault));
          }
        }
    }
    hide Next, Consistent, Mirrored, MayMark, Marked;
  }

  /** Orders, bookings and payments do not matter. */
  lemma OrdersMirror(w: World, u: World)
    requires Mirrored(w)
    ensures u == w.(tables := w.tables.(orders := u.tables.orders, bookings := u.tables.bookings, payments := u.tables.payments)) ==> Mirrored(u)
  {
  }

  lemma NextMirrors(w: World, step: Step, fault: bool)
    requires Consistent(w) && Mirrored(w)
    ensures Mirrored(Next(w, step, fault))
  {
    match step {
      case Leave(plate, time, fee) =>
        var i := ExitEffects(w, plate, time, fee, fault);
        if plate in w.active { LeavingMirrors(w, plate, time, fee, i); }
      case LeaveSettled(plate, time, fee, order, payment) =>
        var i := SettledExitEffects(w, plate, time, fee, order, payment, fault);
        if plate in w.active {
          LeavingMirrors(w, plate, time, fee, i);
          OrdersMirror(LeftFrom(w, plate, time, fee, i), Next(w, step, fault));
        }
      case Reserve(id, v, until) =>
        ReserveEffects(w, id, v, until, fault);
        SpotMirrors(w, id, Spot(id, Reserved, Some(v), Some(until)), Next(w, step, fault).tables);
      case Unreserve(id) =>
        UnreserveEffects(w, id, fault);
        SpotMirrors(w, id, Spot(id, Available, None, None), Next(w, step, fault).tables);
      case _ => ArrivingMirrors(w, step, fault);
    }
    hide Next, Consistent, Mirrored, MayMark, MayPay, LeftFrom;
  }

  lemma {:induction false} RunMirrors(w: World, steps: seq<(Step, bool)>)
    requires Consistent(w) && Mirrored(w)
    ensures Mirrored(Run(w, steps)) && Consistent(Run(w, steps))
    decreases |steps|
  {
    if steps != [] {
      var before, last := steps[..|steps| - 1], steps[|steps| - 1];
      RunMirrors(w, before);
      hide Mirrored, Consistent, Next;
      NextMirrors(Run(w, before), last.0, last.1);
      NextKeeps(Run(w, before), last.0, last.1);
    }
  }

  // --- What comes back --------------------------------------------------------------------------------

  function WholeRecord(r: ServiceRecord): ServiceRecord {
    r.(entry := Millisecond(r.entry) * 1_000_000)
  }

  lemma RecordComesBack(w: World, plate: string)
    requires Consistent(w) && Mirrored(w) && RestoreAccepts(w.tables)
    ensures plate in OpenPlates(w.tables.records) <==> plate in w.active
    ensures plate in w.active ==> RestoredRecord(w.tables, plate) == WholeRecord(w.active[plate])
  {
    OpenIndexIs(w.tables.records, plate);
    if plate in w.active {
      var k :| 0 <= k < |w.tables.records| && OpenRow(w.tables.records[k]) && w.tables.records[k].plate == plate;
      var i := OpenIndex(w.tables.records, plate);
      assert i < |w.tables.records|;
      assert SameRecord(w.tables.records[i], w.active) && OpenRow(w.tables.records[i]);
      assert w.active[plate].plate == plate && !w.active[plate].closed;
      TypeComesBack(w.active[plate].vehicleType);
      hide Consistent, Mirrored, RestoreAccepts;
    }
  }

  lemma TypeComesBack(v: VehicleType)
    ensures TypeOf(TypeNumber(v)) == Some(v)
  {
  }

  /** A spot as restored against the spot in memory. */
  ghost predicate SpotBack(u: World, id: string, back: Spot)
    requires id in u.spots
  {
    && (back.status == Occupied <==> u.spots[id].status == Occupied)
    && (u.spots[id].status == Occupied ==> back == u.spots[id])
    && (InStep(u, id) ==> back == WholeMilliseconds(u.spots[id]))
  }

  /** Exactly the open records, apart from parts of a millisecond, exactly the occupied spots with their vehicles, and
      every spot whose row is in step. */
  ghost predicate SameAgain(u: World, v: World) {
    && v.tables == u.tables && v.active.Keys == u.active.Keys && v.spots.Keys == u.spots.Keys
    && (forall p :: p in u.active ==> v.active[p] == WholeRecord(u.active[p]))
    && (forall id :: id in u.spots ==> SpotBack(u, id, v.spots[id]))
  }

  lemma SpotComesBack(w: World, id: string)
    requires Consistent(w) && Mirrored(w) && RestoreAccepts(w.tables) && id in w.spots
    ensures id in w.tables.spots && SpotBack(w, id, ReadSpot(id, w.tables.spots[id]).value)
  {
    assert SameSpot(w.spots[id], w.tables.spots[id]) && WellFormed(w.spots[id]) && w.spots[id].id == id;
    ReadKeeps(id, w.tables.spots[id]);
    if w.spots[id].status == Occupied {
      TypeComesBack(w.spots[id].vehicle.value.vehicleType);
    }
    if InStep(w, id) {
      SpotRoundTrip(w.spots[id]);
    }
  }

  /** After any operations with any failures the service restored from the tables is the same again. */
  lemma RestartRestores(w: World, steps: seq<(Step, bool)>)
    requires Empty(w)
    ensures RestoreAccepts(Run(w, steps).tables) && SameAgain(Run(w, steps), Restored(Run(w, steps).tables))
  {
    RestartSucceeds(w, steps);
    EmptyIsConsistent(w);
    assert Mirrored(w);
    hide Consistent, Mirrored, RestoreAccepts, SameAgain, Run;
    RunMirrors(w, steps);
    BringsBack(Run(w, steps));
  }

  lemma PlatesBack(u: World)
    requires Consistent(u) && Mirrored(u) && RestoreAccepts(u.tables)
    ensures OpenPlates(u.tables.records) == u.active.Keys
    ensures forall p :: p in u.active ==> RestoredRecord(u.tables, p) == WholeRecord(u.active[p])
  {
    hide Consistent, Mirrored, RestoreAccepts, OpenPlates, RestoredRecord, WholeRecord;
    forall p ensures p in OpenPlates(u.tables.records) <==> p in u.active
             ensures p in u.active ==> RestoredRecord(u.tables, p) == WholeRecord(u.active[p])
    {
      RecordComesBack(u, p);
    }
  }

  lemma RecordsBack(u: World)
    requires Consistent(u) && Mirrored(u) && RestoreAccepts(u.tables)
    ensures var active := RestoredActive(u.tables);
            active.Keys == u.active.Keys && forall p :: p in u.active ==> active[p] == WholeRecord(u.active[p])
  {
    PlatesBack(u);
    hide Consistent, Mirrored, RestoreAccepts, OpenPlates, RestoredRecord, WholeRecord;
  }

  lemma SpotsBack(u: World)
    requires Consistent(u) && Mirrored(u) && RestoreAccepts(u.tables)
    ensures var spots := RestoredSpots(u.tables);
            spots.Keys == u.spots.Keys && forall id :: id in u.spots ==> SpotBack(u, id, spots[id])
  {
    assert u.spots.Keys == u.tables.spots.Keys;
    var spots := RestoredSpots(u.tables);
    hide Consistent, Mirrored, RestoreAccepts, ReadSpot, SpotBack;
    forall id | id in u.spots ensures SpotBack(u, id, spots[id]) {
      SpotComesBack(u, id);
    }
  }

  lemma BringsBack(u: World)
    requires Consistent(u) && Mirrored(u) && RestoreAccepts(u.tables)
    ensures SameAgain(u, Restored(u.tables))
  {
    RecordsBack(u);
    SpotsBack(u);
    hide Consistent, Mirrored, RestoreAccepts, RestoredActive, RestoredSpots, SpotBack, WholeRecord;
  }

  // --- What a restart refuses -------------------------------------------------------------------------

  /** A stored record loads exactly if it names a plate and a known spot, carries supported times in order, a fee that is
      not negative and one of the four vehicle types. */
  lemma LoadsIff(r: RecordRow, spots: set<string>)
    ensures RecordLoads(r, spots) <==>
            && r.plate != "" && r.spot != "" && r.spot in spots && r.fee >= 0.0 && 0 <= r.vehicleType <= 3
            && 946_684_800_000 <= r.entry <= 7_258_118_400_000
            && (r.exit.Some? ==> r.entry <= r.exit.value && 946_684_800_000 <= r.exit.value <= 7_258_118_400_000)
  {
  }

  lemma RestoredSpotIs(t: Tables, id: string)
    requires RestoreAccepts(t) && id in t.spots && id != ""
    ensures var s := RestoredSpots(t)[id];
            && s.id == id && WellFormed(s) && ReadSpot(id, t.spots[id]) == Some(s)
            && (s.status == Occupied <==> t.spots[id].status == 1)
            && (s.vehicle.Some? ==> t.spots[id].plate == Some(s.vehicle.value.plate))
            && (s.status == Occupied ==> PointsBack(t.records, s.vehicle.value.plate, id))
  {
    ReadKeeps(id, t.spots[id]);
  }

  lemma RestoredRecordIs(t: Tables, plate: string) returns (i: nat)
    requires RestoreAccepts(t) && plate in RestoredActive(t)
    ensures i < |t.records| && OpenRow(t.records[i]) && t.records[i].plate == plate
    ensures var r := RestoredActive(t)[plate]; r.plate == plate && !r.closed && r.spot == t.records[i].spot
    ensures RestoredActive(t)[plate].spot in t.spots && Parks(RestoredSpots(t)[t.records[i].spot], plate)
    ensures forall j :: 0 <= j < |t.records| && OpenRow(t.records[j]) && t.records[j].plate == plate ==> j == i
  {
    OpenIndexIs(t.records, plate);
    i := OpenIndex(t.records, plate);
    forall j | 0 <= j < |t.records| && OpenRow(t.records[j]) && t.records[j].plate == plate ensures j == i {}
  }

  lemma OpenIsActive(t: Tables, i: nat)
    requires RestoreAccepts(t) && i < |t.records| && OpenRow(t.records[i])
    ensures t.records[i].plate in RestoredActive(t) && RestoredActive(t)[t.records[i].plate].spot == t.records[i].spot
  {
    assert t.records[i].plate in OpenPlates(t.records);
    var k := RestoredRecordIs(t, t.records[i].plate);
  }

  /** The checks made when the service starts are enough: whatever tables they accept, with a named spot in every row, the
      service restored from them is consistent. */
  lemma RestoredIsConsistent(t: Tables)
    requires RestoreAccepts(t) && "" !in t.spots
    ensures Consistent(Restored(t))
  {
    var w := Restored(t);
    RestoredMemory(t);
    assert SpotsAreSane(w) && RowsAgree(w.spots, t.spots) by {
      forall id | id in t.spots ensures w.spots[id].id == id && WellFormed(w.spots[id]) {
        RestoredSpotIs(t, id);
      }
      forall id | id in t.spots
        ensures (t.spots[id].status == 1 <==> w.spots[id].status == Occupied)
        ensures w.spots[id].status == Occupied && w.spots[id].vehicle.Some? ==> t.spots[id].plate == Some(w.spots[id].vehicle.value.plate)
        ensures ReadSpot(id, t.spots[id]).Some?
      {
        RestoredSpotIs(t, id);
      }
      hide RestoreAccepts, ReadSpot, RestoredActive;
    }
    RestoredRows(t);
    hide RestoreAccepts, SpotsAreSane, RowsAgree, MemoryAgrees, RecordsAgree, RestoredActive, RestoredSpots;
  }

  lemma RestoredMemory(t: Tables)
    requires RestoreAccepts(t) && "" !in t.spots
    ensures MemoryAgrees(RestoredSpots(t), RestoredActive(t))
  {
    var spots, active := RestoredSpots(t), RestoredActive(t);
    assert spots.Keys == t.spots.Keys;
    hide RestoreAccepts, ReadSpot, RestoredSpots, RestoredActive;
    forall id | id in spots && spots[id].status == Occupied
      ensures spots[id].vehicle.Some? && spots[id].vehicle.value.plate in active && active[spots[id].vehicle.value.plate].spot == id
    {
      RestoredSpotIs(t, id);
      var i :| 0 <= i < |t.records| && OpenRow(t.records[i]) && t.records[i].plate == spots[id].vehicle.value.plate && t.records[i].spot == id;
      OpenIsActive(t, i);
    }
    forall p | p in active
      ensures active[p].plate == p && !active[p].closed && active[p].spot in spots && Parks(spots[active[p].spot], p)
    {
      var i := RestoredRecordIs(t, p);
    }
  }

  lemma RestoredRows(t: Tables)
    requires RestoreAccepts(t)
    ensures RecordsAgree(RestoredActive(t), t.records)
  {
    var active := RestoredActive(t);
    assert forall i, j :: 0 <= i < j < |t.records| && OpenRow(t.records[i]) && OpenRow(t.records[j]) ==> t.records[i].plate != t.records[j].plate;
    hide RestoreAccepts, RestoredActive;
    forall i | 0 <= i < |t.records| && OpenRow(t.records[i])
      ensures t.records[i].plate in active && active[t.records[i].plate].spot == t.records[i].spot
    {
      OpenIsActive(t, i);
    }
    forall p | p in active ensures exists i :: 0 <= i < |t.records| && OpenRow(t.records[i]) && t.records[i].plate == p {
      var i := RestoredRecordIs(t, p);
    }
  }
}
