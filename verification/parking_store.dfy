/**
 The parking service on top of the repository: spots and open records in memory, the same in the tables,
 and every operation changing both, with its own way back when storing fails.
 */
module ParkingStore {
  import opened Outcomes
  import opened TimeUtil
  import opened ParkingSpots
  import opened ParkingDatabase
  import opened ParkingRepositories

  /** `active` holds the open records by plate. */
  datatype World = World(spots: map<string, Spot>, active: map<string, ServiceRecord>, tables: Tables)

  /** What a repository operation leaves behind; `fault` if the connection failed somewhere on the way. */
  function Store(t: Tables, allowed: bool, sts: seq<Statement>, fault: bool): (r: (Tables, bool))
    ensures r.1 ==> PerformAll(sts, t) == Some(r.0)
    ensures !r.1 ==> r.0 == t
  {
    if allowed && !fault && PerformAll(sts, t).Some? then (PerformAll(sts, t).value, true) else (t, false)
  }

  datatype Step =
    | Enter(id: string, vehicle: Vehicle, time: int)
    | CheckIn(id: string, vehicle: Vehicle, order: Order, time: int, deadline: int)
    | ConfirmBooking(id: string, booking: Booking, time: int, deadline: int)
    | Leave(plate: string, time: int, fee: real)
    | LeaveSettled(plate: string, time: int, fee: real, order: Order, payment: Payment)
    | Reserve(id: string, vehicle: Vehicle, until: int)
    | Unreserve(id: string)

  function NewRecordFor(id: string, vehicle: Vehicle, time: int): ServiceRecord {
    ServiceRecord(vehicle.plate, id, time, false, vehicle.vehicleType)
  }

  function AfterEnter(w: World, id: string, vehicle: Vehicle, time: int, fault: bool): World {
    if ToMilliseconds(time).None? || vehicle.plate == "" || vehicle.plate in w.active || id !in w.spots || !CanOccupy(w.spots[id], vehicle) then w
    else
      var spot, record := OccupiedBy(w.spots[id], vehicle), NewRecordFor(id, vehicle, time);
      var allowed := EntryAllowed(record, spot) && Storable(spot);
      var (tables, ok) := Store(w.tables, allowed, if allowed then EntryStatements(record, spot) else [], fault);
      if ok then World(w.spots[id := spot], w.active[vehicle.plate := record], tables)
      else w.(spots := w.spots[id := Cleared(spot)])
  }

  predicate HeldFor(w: World, id: string, plate: string) {
    id in w.spots && w.spots[id].status == Reserved && w.spots[id].vehicle.Some? && w.spots[id].vehicle.value.plate == plate
  }

  /** Arrival on a period reservation.  The reservation, not the open records, decides. */
  function AfterCheckIn(w: World, id: string, vehicle: Vehicle, order: Order, time: int, deadline: int, fault: bool): World {
    if ToMilliseconds(time).None? || !HeldFor(w, id, vehicle.plate) then w
    else
      var spot, record := OccupiedBy(w.spots[id], vehicle), NewRecordFor(id, vehicle, time);
      var allowed := CheckInAllowed(order, record, spot) && Storable(spot);
      var (tables, ok) := Store(w.tables, allowed, if allowed then CheckInStatements(order, record, spot) else [], fault);
      if ok then World(w.spots[id := spot], w.active[vehicle.plate := record], tables)
      else w.(spots := w.spots[id := ReservedFor(Cleared(spot), vehicle, deadline)])
  }

  function AfterBooking(w: World, id: string, booking: Booking, time: int, deadline: int, fault: bool): World {
    if ToMilliseconds(time).None? || !HeldFor(w, id, booking.plate) then w
    else
      var vehicle := w.spots[id].vehicle.value;
      var spot, record := OccupiedBy(w.spots[id], vehicle), NewRecordFor(id, vehicle, time);
      var allowed := BookingAllowed(booking, record, spot) && Storable(spot);
      var (tables, ok) := Store(w.tables, allowed, if allowed then BookingStatements(booking, record, spot) else [], fault);
      if ok then World(w.spots[id := spot], w.active[vehicle.plate := record], tables)
      else w.(spots := w.spots[id := ReservedFor(Cleared(spot), vehicle, deadline)])
  }

  predicate CanLeave(w: World, plate: string) {
    plate in w.active && w.active[plate].spot in w.spots && w.spots[w.active[plate].spot].status == Occupied
  }

  /** The tables first, then memory. */
  function AfterLeaving(w: World, plate: string, allowed: bool, sts: seq<Statement>, fault: bool): World
    requires CanLeave(w, plate)
  {
    var id := w.active[plate].spot;
    var (tables, ok) := Store(w.tables, allowed, sts, fault);
    if ok then World(w.spots[id := Cleared(w.spots[id])], w.active - {plate}, tables) else w
  }

  function AfterLeave(w: World, plate: string, time: int, fee: real, fault: bool): World {
    if !CanLeave(w, plate) then w
    else
      var allowed := ExitAllowed(w.active[plate], time, fee);
      AfterLeaving(w, plate, allowed, if allowed then ExitStatements(w.active[plate], time, fee) else [], fault)
  }

  function AfterSettledLeave(w: World, plate: string, time: int, fee: real, order: Order, payment: Payment, fault: bool): World {
    if !CanLeave(w, plate) then w
    else
      var allowed := ExitAllowed(w.active[plate], time, fee) && PaymentAllowed(payment);
      AfterLeaving(w, plate, allowed,
                   if allowed then SettledExitStatements(w.active[plate], time, fee, order, payment) else [], fault)
  }

  function AfterReserve(w: World, id: string, vehicle: Vehicle, until: int, fault: bool): World {
    if id !in w.spots || w.spots[id].status != Available || vehicle.plate == "" then w
    else
      var spot := ReservedFor(w.spots[id], vehicle, until);
      var allowed := Storable(spot);
      var (tables, ok) := Store(w.tables, allowed, if allowed then [UpdateSpot(id, RowOf(spot))] else [], fault);
      if ok then w.(spots := w.spots[id := spot], tables := tables) else w.(spots := w.spots[id := Cleared(spot)])
  }

  /** Expiry or cancellation of a reserved spot. */
  function AfterUnreserve(w: World, id: string, fault: bool): World {
    if id !in w.spots || w.spots[id].status != Reserved || w.spots[id].vehicle.None? || w.spots[id].expiry.None? then w
    else
      var spot := Cleared(w.spots[id]);
      var allowed := Storable(spot);
      var (tables, ok) := Store(w.tables, allowed, if allowed then [UpdateSpot(id, RowOf(spot))] else [], fault);
      if ok then w.(spots := w.spots[id := spot], tables := tables)
      else w.(spots := w.spots[id := ReservedFor(spot, w.spots[id].vehicle.value, w.spots[id].expiry.value)])
  }

  function Next(w: World, step: Step, fault: bool): World {
    match step
    case Enter(id, vehicle, time) => AfterEnter(w, id, vehicle, time, fault)
    case CheckIn(id, vehicle, order, time, deadline) => AfterCheckIn(w, id, vehicle, order, time, deadline, fault)
    case ConfirmBooking(id, booking, time, deadline) => AfterBooking(w, id, booking, time, deadline, fault)
    case Leave(plate, time, fee) => AfterLeave(w, plate, time, fee, fault)
    case LeaveSettled(plate, time, fee, order, payment) => AfterSettledLeave(w, plate, time, fee, order, payment, fault)
    case Reserve(id, vehicle, until) => AfterReserve(w, id, vehicle, until, fault)
    case Unreserve(id) => AfterUnreserve(w, id, fault)
  }

  function Run(w: World, steps: seq<(Step, bool)>): World
    decreases |steps|
  {
    if steps == [] then w
    else
      var last := steps[|steps| - 1];
      Next(Run(w, steps[..|steps| - 1]), last.0, last.1)
  }

  // --- Invariants ---------------------------------------------------------------------

  ghost predicate SpotsAreSane(w: World) {
    && w.spots.Keys == w.tables.spots.Keys
    && forall id :: id in w.spots ==> w.spots[id].id == id != "" && WellFormed(w.spots[id])
  }

  predicate Parks(s: Spot, plate: string) {
    s.status == Occupied && s.vehicle.Some? && s.vehicle.value.plate == plate
  }

  /** In memory, occupied spots and open records belong together. */
  ghost predicate MemoryAgrees(spots: map<string, Spot>, active: map<string, ServiceRecord>) {
    && (forall id :: id in spots && spots[id].status == Occupied ==>
          spots[id].vehicle.Some? && spots[id].vehicle.value.plate in active && active[spots[id].vehicle.value.plate].spot == id)
    && (forall p :: p in active ==>
          && active[p].plate == p && !active[p].closed
          && active[p].spot in spots && Parks(spots[active[p].spot], p))
  }

  /** A row says occupied exactly when the spot in memory is, and by the same plate; every row can be read. */
  ghost predicate RowsAgree(spots: map<string, Spot>, rows: map<string, SpotRow>) {
    forall id :: id in spots && id in rows ==>
      && (rows[id].status == 1 <==> spots[id].status == Occupied)
      && (spots[id].status == Occupied && spots[id].vehicle.Some? ==> rows[id].plate == Some(spots[id].vehicle.value.plate))
      && ReadSpot(id, rows[id]).Some?
  }

  predicate OpenRow(r: RecordRow) {
    r.exit.None?
  }

  /** The open rows are the open records in memory, one for each plate. */
  ghost predicate RecordsAgree(active: map<string, ServiceRecord>, records: seq<RecordRow>) {
    && (forall i :: 0 <= i < |records| && OpenRow(records[i]) ==>
          records[i].plate in active && active[records[i].plate].spot == records[i].spot)
    && (forall p :: p in active ==> exists i :: 0 <= i < |records| && OpenRow(records[i]) && records[i].plate == p)
    && (forall i, j :: 0 <= i < j < |records| && OpenRow(records[i]) && OpenRow(records[j]) ==> records[i].plate != records[j].plate)
  }

  ghost predicate Consistent(w: World) {
    && SpotsAreSane(w) && MemoryAgrees(w.spots, w.active)
    && RowsAgree(w.spots, w.tables.spots) && RecordsAgree(w.active, w.tables.records)
  }

  // --- Effects of the transactions -----------------------------------------------------------

  lemma EntryEffect(t: Tables, record: ServiceRecord, spot: Spot, u: Tables)
    requires EntryAllowed(record, spot) && Storable(spot) && PerformAll(EntryStatements(record, spot), t) == Some(u)
    ensures spot.id in t.spots && u.spots == t.spots[spot.id := RowOf(spot)]
    ensures u.records == t.records + [NewRecord(record).record] && !HasOpenRecord(t, record.plate)
  {
    PerformTwo(UpdateSpot(spot.id, RowOf(spot)), NewRecord(record), t);
  }

  lemma CheckInEffect(t: Tables, order: Order, record: ServiceRecord, spot: Spot, u: Tables)
    requires CheckInAllowed(order, record, spot) && Storable(spot) && PerformAll(CheckInStatements(order, record, spot), t) == Some(u)
    ensures spot.id in t.spots && u.spots == t.spots[spot.id := RowOf(spot)]
    ensures u.records == t.records + [NewRecord(record).record] && !HasOpenRecord(t, record.plate)
  {
    PerformThree(UpdateSpot(spot.id, RowOf(spot)), UpdateOf(order), NewRecord(record), t);
  }

  lemma BookingEffect(t: Tables, booking: Booking, record: ServiceRecord, spot: Spot, u: Tables)
    requires BookingAllowed(booking, record, spot) && Storable(spot) && PerformAll(BookingStatements(booking, record, spot), t) == Some(u)
    ensures spot.id in t.spots && u.spots == t.spots[spot.id := RowOf(spot)]
    ensures u.records == t.records + [NewRecord(record).record] && !HasOpenRecord(t, record.plate)
  {
    PerformThree(UpdateSpot(spot.id, RowOf(spot)), UpdateBooking(booking.id, booking.status), NewRecord(record), t);
  }

  ghost predicate Vacated(t: Tables, u: Tables, record: ServiceRecord, exit: int, fee: real) {
    && record.spot in t.spots && u.spots == t.spots[record.spot := AVAILABLE_ROW]
    && u.records == Closed(t.records, record.plate, record.spot, exit, fee)
  }

  lemma ExitEffect(t: Tables, record: ServiceRecord, exit: int, fee: real, u: Tables)
    requires ExitAllowed(record, exit, fee) && PerformAll(ExitStatements(record, exit, fee), t) == Some(u)
    ensures Vacated(t, u, record, ToMilliseconds(exit).value, fee)
  {
    var sts := ExitStatements(record, exit, fee);
    PerformTwo(sts[0], sts[1], t);
  }

  lemma SettledExitEffect(t: Tables, record: ServiceRecord, exit: int, fee: real, order: Order, payment: Payment, u: Tables)
    requires ExitAllowed(record, exit, fee) && PaymentAllowed(payment)
    requires PerformAll(SettledExitStatements(record, exit, fee, order, payment), t) == Some(u)
    ensures Vacated(t, u, record, ToMilliseconds(exit).value, fee)
  {
    var sts := ExitStatements(record, exit, fee);
    assert SettledExitStatements(record, exit, fee, order, payment) == [sts[0], sts[1], UpdateOf(order), PaymentStatement(payment)];
    PerformFour(sts[0], sts[1], UpdateOf(order), PaymentStatement(payment), t);
  }

  // --- Every operation keeps the invariants ------------------------------------------------

  lemma RecordsGrow(active: map<string, ServiceRecord>, records: seq<RecordRow>, record: ServiceRecord)
    requires RecordsAgree(active, records) && ToMilliseconds(record.entry).Some?
    requires forall i :: 0 <= i < |records| && OpenRow(records[i]) ==> records[i].plate != record.plate
    ensures RecordsAgree(active[record.plate := record], records + [NewRecord(record).record])
    ensures record.plate !in active
  {
    var more, rows := active[record.plate := record], records + [NewRecord(record).record];
    forall p | p in more ensures exists i :: 0 <= i < |rows| && OpenRow(rows[i]) && rows[i].plate == p {
      if p == record.plate {
        assert OpenRow(rows[|records|]) && rows[|records|].plate == p;
      } else {
        var i :| 0 <= i < |records| && OpenRow(records[i]) && records[i].plate == p;
        assert OpenRow(rows[i]) && rows[i].plate == p;
      }
    }
  }

  lemma RowChanges(spots: map<string, Spot>, rows: map<string, SpotRow>, id: string, spot: Spot)
    requires RowsAgree(spots, rows) && spot.id == id && WellFormed(spot) && Storable(spot)
    ensures RowsAgree(spots[id := spot], rows[id := RowOf(spot)])
  {
    SpotRoundTrip(spot);
  }

  lemma ParkingAgrees(spots: map<string, Spot>, active: map<string, ServiceRecord>, id: string, vehicle: Vehicle, record: ServiceRecord)
    requires MemoryAgrees(spots, active) && id in spots && spots[id].status != Occupied
    requires record.plate == vehicle.plate && record.spot == id && !record.closed && vehicle.plate !in active
    ensures MemoryAgrees(spots[id := OccupiedBy(spots[id], vehicle)], active[vehicle.plate := record])
  {
  }

  /** The common part of the three ways in. */
  lemma ParkingKeeps(w: World, id: string, vehicle: Vehicle, record: ServiceRecord, u: Tables)
    requires Consistent(w) && id in w.spots && w.spots[id].status != Occupied && vehicle.plate != ""
    requires ToMilliseconds(record.entry).Some? && record.plate == vehicle.plate && record.spot == id && !record.closed
    requires var spot := OccupiedBy(w.spots[id], vehicle);
             Storable(spot) && u.spots == w.tables.spots[id := RowOf(spot)]
    requires u.records == w.tables.records + [NewRecord(record).record] && !HasOpenRecord(w.tables, vehicle.plate)
    ensures Consistent(World(w.spots[id := OccupiedBy(w.spots[id], vehicle)], w.active[vehicle.plate := record], u))
  {
    RecordsGrow(w.active, w.tables.records, record);
    RowChanges(w.spots, w.tables.spots, id, OccupiedBy(w.spots[id], vehicle));
    ParkingAgrees(w.spots, w.active, id, vehicle, record);
    var spot := OccupiedBy(w.spots[id], vehicle);
    SaneAfter(w, id, spot, World(w.spots[id := spot], w.active[vehicle.plate := record], u));
    hide RowsAgree, RecordsAgree, MemoryAgrees, SpotsAreSane, NewRecord, RowOf;
  }

  lemma FreeAgrees(spots: map<string, Spot>, active: map<string, ServiceRecord>, id: string, spot: Spot)
    requires MemoryAgrees(spots, active) && id in spots && spots[id].status != Occupied && spot.status != Occupied
    ensures MemoryAgrees(spots[id := spot], active)
  {
  }

  lemma FreeRowAgrees(spots: map<string, Spot>, rows: map<string, SpotRow>, id: string, spot: Spot)
    requires RowsAgree(spots, rows) && id in spots && spots[id].status != Occupied && spot.status != Occupied
    ensures RowsAgree(spots[id := spot], rows)
  {
  }

  /** A spot that is not occupied may change in memory alone, as a failed operation leaves it. */
  lemma MemoryOnlyKeeps(w: World, id: string, spot: Spot)
    requires Consistent(w) && id in w.spots && w.spots[id].status != Occupied && spot.status != Occupied
    requires spot.id == id && WellFormed(spot)
    ensures Consistent(w.(spots := w.spots[id := spot]))
  {
    FreeAgrees(w.spots, w.active, id, spot);
    FreeRowAgrees(w.spots, w.tables.spots, id, spot);
    SaneAfter(w, id, spot, w.(spots := w.spots[id := spot]));
    hide RowsAgree, RecordsAgree, MemoryAgrees, SpotsAreSane;
  }

  lemma StoredSpotKeeps(w: World, id: string, spot: Spot, u: Tables)
    requires Consistent(w) && id in w.spots && w.spots[id].status != Occupied && spot.status != Occupied
    requires spot.id == id && WellFormed(spot) && Storable(spot)
    requires PerformAll([UpdateSpot(id, RowOf(spot))], w.tables) == Some(u)
    ensures Consistent(World(w.spots[id := spot], w.active, u))
  {
    assert [UpdateSpot(id, RowOf(spot))] == [UpdateSpot(id, RowOf(spot))] + [];
    PerformMore(UpdateSpot(id, RowOf(spot)), [], w.tables);
    assert u == w.tables.(spots := w.tables.spots[id := RowOf(spot)]);
    FreeAgrees(w.spots, w.active, id, spot);
    RowChanges(w.spots, w.tables.spots, id, spot);
    SaneAfter(w, id, spot, World(w.spots[id := spot], w.active, u));
    hide RowsAgree, RecordsAgree, MemoryAgrees, SpotsAreSane;
  }

  lemma WithoutPlate(active: map<string, ServiceRecord>, records: seq<RecordRow>, rows: seq<RecordRow>, plate: string)
    requires RecordsAgree(active, records) && plate in active && |rows| == |records|
    requires forall i :: 0 <= i < |rows| ==>
               (OpenRow(rows[i]) <==> OpenRow(records[i]) && records[i].plate != plate) && (OpenRow(rows[i]) ==> rows[i] == records[i])
    ensures RecordsAgree(active - {plate}, rows)
  {
    var fewer := active - {plate};
    forall p | p in fewer ensures exists i :: 0 <= i < |rows| && OpenRow(rows[i]) && rows[i].plate == p {
      var i :| 0 <= i < |records| && OpenRow(records[i]) && records[i].plate == p;
      assert OpenRow(rows[i]) && rows[i].plate == p;
    }
    forall i | 0 <= i < |rows| && OpenRow(rows[i])
      ensures rows[i].plate in fewer && fewer[rows[i].plate].spot == rows[i].spot
    {
      assert OpenRow(records[i]) && rows[i] == records[i];
    }
    forall i, j | 0 <= i < j < |rows| && OpenRow(rows[i]) && OpenRow(rows[j]) ensures rows[i].plate != rows[j].plate {
      assert OpenRow(records[i]) && OpenRow(records[j]);
    }
  }

  lemma RecordsShrink(active: map<string, ServiceRecord>, records: seq<RecordRow>, plate: string, exit: int, fee: real)
    requires RecordsAgree(active, records) && plate in active
    ensures RecordsAgree(active - {plate}, Closed(records, plate, active[plate].spot, exit, fee))
  {
    StillOpen(active, records, plate, exit, fee);
    hide RecordsAgree;
    WithoutPlate(active, records, Closed(records, plate, active[plate].spot, exit, fee), plate);
  }

  lemma StillOpen(active: map<string, ServiceRecord>, records: seq<RecordRow>, plate: string, exit: int, fee: real)
    requires RecordsAgree(active, records) && plate in active
    ensures var rows := Closed(records, plate, active[plate].spot, exit, fee);
            forall i :: 0 <= i < |rows| ==>
              (OpenRow(rows[i]) <==> OpenRow(records[i]) && records[i].plate != plate) && (OpenRow(rows[i]) ==> rows[i] == records[i])
  {
  }

  lemma LeavingAgrees(spots: map<string, Spot>, active: map<string, ServiceRecord>, plate: string)
    requires MemoryAgrees(spots, active) && plate in active
    ensures MemoryAgrees(spots[active[plate].spot := Cleared(spots[active[plate].spot])], active - {plate})
  {
  }

  lemma SaneAfter(w: World, id: string, spot: Spot, v: World)
    requires SpotsAreSane(w) && id in w.spots && spot.id == id && WellFormed(spot)
    requires v.spots == w.spots[id := spot] && v.tables.spots.Keys == w.tables.spots.Keys
    ensures SpotsAreSane(v)
  {
  }

  lemma LeavingKeeps(w: World, plate: string, exit: int, fee: real, u: Tables)
    requires Consistent(w) && plate in w.active && Vacated(w.tables, u, w.active[plate], exit, fee)
    ensures var id := w.active[plate].spot;
            id in w.spots && Consistent(World(w.spots[id := Cleared(w.spots[id])], w.active - {plate}, u))
  {
    ActiveSpot(w, plate);
    var id := w.active[plate].spot;
    var spot := Cleared(w.spots[id]);
    var v := World(w.spots[id := spot], w.active - {plate}, u);
    hide MemoryAgrees, RowsAgree, RecordsAgree, SpotsAreSane, WellFormed, Storable, RowOf, Closed, Cleared;
    RecordsShrink(w.active, w.tables.records, plate, exit, fee);
    LeavingAgrees(w.spots, w.active, plate);
    RowChanges(w.spots, w.tables.spots, id, spot);
    SaneAfter(w, id, spot, v);
  }

  lemma ActiveSpot(w: World, plate: string)
    requires Consistent(w) && plate in w.active
    ensures var id := w.active[plate].spot;
            && id in w.spots && var spot := Cleared(w.spots[id]);
            && spot.id == id && WellFormed(spot) && Storable(spot) && RowOf(spot) == AVAILABLE_ROW
  {
  }

  lemma EnterKeeps(w: World, id: string, vehicle: Vehicle, time: int, fault: bool)
    requires Consistent(w)
    ensures Consistent(AfterEnter(w, id, vehicle, time, fault))
  {
    if ToMilliseconds(time).Some? && vehicle.plate != "" && vehicle.plate !in w.active && id in w.spots && CanOccupy(w.spots[id], vehicle) {
      var spot, record := OccupiedBy(w.spots[id], vehicle), NewRecordFor(id, vehicle, time);
      var (tables, ok) := Store(w.tables, true, EntryStatements(record, spot), fault);
      if ok {
        EntryEffect(w.tables, record, spot, tables);
        ParkingKeeps(w, id, vehicle, record, tables);
      } else {
        MemoryOnlyKeeps(w, id, Cleared(spot));
      }
      hide Consistent;
    }
  }

  lemma CheckInKeeps(w: World, id: string, vehicle: Vehicle, order: Order, time: int, deadline: int, fault: bool)
    requires Consistent(w)
    ensures Consistent(AfterCheckIn(w, id, vehicle, order, time, deadline, fault))
  {
    if ToMilliseconds(time).Some? && HeldFor(w, id, vehicle.plate) {
      var spot, record := OccupiedBy(w.spots[id], vehicle), NewRecordFor(id, vehicle, time);
      var allowed := CheckInAllowed(order, record, spot);
      var (tables, ok) := Store(w.tables, allowed, if allowed then CheckInStatements(order, record, spot) else [], fault);
      if ok {
        CheckInEffect(w.tables, order, record, spot, tables);
        ParkingKeeps(w, id, vehicle, record, tables);
      } else {
        MemoryOnlyKeeps(w, id, ReservedFor(Cleared(spot), vehicle, deadline));
      }
      hide Consistent;
    }
  }

  lemma BookingKeeps(w: World, id: string, booking: Booking, time: int, deadline: int, fault: bool)
    requires Consistent(w)
    ensures Consistent(AfterBooking(w, id, booking, time, deadline, fault))
  {
    if ToMilliseconds(time).Some? && HeldFor(w, id, booking.plate) {
      var vehicle := w.spots[id].vehicle.value;
      var spot, record := OccupiedBy(w.spots[id], vehicle), NewRecordFor(id, vehicle, time);
      var allowed := BookingAllowed(booking, record, spot);
      var (tables, ok) := Store(w.tables, allowed, if allowed then BookingStatements(booking, record, spot) else [], fault);
      if ok {
        BookingEffect(w.tables, booking, record, spot, tables);
        ParkingKeeps(w, id, vehicle, record, tables);
      } else {
        MemoryOnlyKeeps(w, id, ReservedFor(Cleared(spot), vehicle, deadline));
      }
      hide Consistent;
    }
  }

  lemma LeaveKeeps(w: World, plate: string, time: int, fee: real, fault: bool)
    requires Consistent(w)
    ensures Consistent(AfterLeave(w, plate, time, fee, fault))
  {
    if CanLeave(w, plate) && ExitAllowed(w.active[plate], time, fee) {
      var (tables, ok) := Store(w.tables, true, ExitStatements(w.active[plate], time, fee), fault);
      if ok {
        ExitEffect(w.tables, w.active[plate], time, fee, tables);
        LeavingKeeps(w, plate, ToMilliseconds(time).value, fee, tables);
      }
      hide Consistent;
    }
  }

  lemma SettledLeaveKeeps(w: World, plate: string, time: int, fee: real, order: Order, payment: Payment, fault: bool)
    requires Consistent(w)
    ensures Consistent(AfterSettledLeave(w, plate, time, fee, order, payment, fault))
  {
    if CanLeave(w, plate) && ExitAllowed(w.active[plate], time, fee) && PaymentAllowed(payment) {
      var (tables, ok) := Store(w.tables, true, SettledExitStatements(w.active[plate], time, fee, order, payment), fault);
      if ok {
        SettledExitEffect(w.tables, w.active[plate], time, fee, order, payment, tables);
        LeavingKeeps(w, plate, ToMilliseconds(time).value, fee, tables);
      }
      hide Consistent;
    }
  }

  lemma ReserveKeeps(w: World, id: string, vehicle: Vehicle, until: int, fault: bool)
    requires Consistent(w)
    ensures Consistent(AfterReserve(w, id, vehicle, until, fault))
  {
    if id in w.spots && w.spots[id].status == Available && vehicle.plate != "" {
      var spot := ReservedFor(w.spots[id], vehicle, until);
      var allowed := Storable(spot);
      var (tables, ok) := Store(w.tables, allowed, if allowed then [UpdateSpot(id, RowOf(spot))] else [], fault);
      if ok {
        StoredSpotKeeps(w, id, spot, tables);
      } else {
        MemoryOnlyKeeps(w, id, Cleared(spot));
      }
      hide Consistent;
    }
  }

  lemma UnreserveKeeps(w: World, id: string, fault: bool)
    requires Consistent(w)
    ensures Consistent(AfterUnreserve(w, id, fault))
  {
    if id in w.spots && w.spots[id].status == Reserved {
      var spot := Cleared(w.spots[id]);
      var (tables, ok) := Store(w.tables, true, [UpdateSpot(id, RowOf(spot))], fault);
      if ok {
        StoredSpotKeeps(w, id, spot, tables);
      } else {
        MemoryOnlyKeeps(w, id, ReservedFor(spot, w.spots[id].vehicle.value, w.spots[id].expiry.value));
      }
      hide Consistent;
    }
  }

  lemma NextKeeps(w: World, step: Step, fault: bool)
    requires Consistent(w)
    ensures Consistent(Next(w, step, fault))
  {
    match step {
      case Enter(id, vehicle, time) => EnterKeeps(w, id, vehicle, time, fault);
      case CheckIn(id, vehicle, order, time, deadline) => CheckInKeeps(w, id, vehicle, order, time, deadline, fault);
      case ConfirmBooking(id, booking, time, deadline) => BookingKeeps(w, id, booking, time, deadline, fault);
      case Leave(plate, time, fee) => LeaveKeeps(w, plate, time, fee, fault);
      case LeaveSettled(plate, time, fee, order, payment) => SettledLeaveKeeps(w, plate, time, fee, order, payment, fault);
      case Reserve(id, vehicle, until) => ReserveKeeps(w, id, vehicle, until, fault);
      case Unreserve(id) => UnreserveKeeps(w, id, fault);
    }
  }

  lemma {:induction false} RunKeeps(w: World, steps: seq<(Step, bool)>)
    requires Consistent(w)
    ensures Consistent(Run(w, steps))
    decreases |steps|
  {
    if steps != [] {
      RunKeeps(w, steps[..|steps| - 1]);
      var last := steps[|steps| - 1];
      NextKeeps(Run(w, steps[..|steps| - 1]), last.0, last.1);
    }
  }

  // --- What that means for the tables --------------------------------------------------------

  /** Occupied spots and open records are one to one, with the same plates; no plate and no spot occurs twice. */
  ghost predicate OneToOne(t: Tables) {
    && (forall i :: 0 <= i < |t.records| && OpenRow(t.records[i]) ==>
          && t.records[i].spot in t.spots && t.spots[t.records[i].spot].status == 1
          && t.spots[t.records[i].spot].plate == Some(t.records[i].plate))
    && (forall id :: id in t.spots && t.spots[id].status == 1 ==>
          exists i :: 0 <= i < |t.records| && OpenRow(t.records[i]) && t.records[i].spot == id && t.spots[id].plate == Some(t.records[i].plate))
    && (forall i, j :: 0 <= i < j < |t.records| && OpenRow(t.records[i]) && OpenRow(t.records[j]) ==>
          t.records[i].plate != t.records[j].plate && t.records[i].spot != t.records[j].spot)
  }

  lemma ConsistentIsOneToOne(w: World)
    requires Consistent(w)
    ensures OneToOne(w.tables)
    ensures forall id :: id in w.tables.spots ==> ReadSpot(id, w.tables.spots[id]).Some?
  {
    var t := w.tables;
    forall id | id in t.spots && t.spots[id].status == 1
      ensures exists i :: 0 <= i < |t.records| && OpenRow(t.records[i]) && t.records[i].spot == id && t.spots[id].plate == Some(t.records[i].plate)
    {
      var plate := w.spots[id].vehicle.value.plate;
      var i :| 0 <= i < |t.records| && OpenRow(t.records[i]) && t.records[i].plate == plate;
      assert t.records[i].spot == id;
    }
  }

  /** An empty car park: every spot available, nothing recorded. */
  ghost predicate Empty(w: World) {
    && w.spots.Keys == w.tables.spots.Keys && w.active == map[] && w.tables.records == []
    && forall id :: id in w.spots ==>
         id != "" && w.spots[id] == Spot(id, Available, None, None) && w.tables.spots[id] == AVAILABLE_ROW
  }

  lemma EmptyIsConsistent(w: World)
    requires Empty(w)
    ensures Consistent(w)
  {
    assert ReadSpot("", AVAILABLE_ROW).Some?;
    assert RowsAgree(w.spots, w.tables.spots);
  }

  /** Whatever entries, arrivals, exits, reservations and cancellations are tried, and whichever of them fail
      anywhere on the way, the stored tables are one to one and can be read back. */
  lemma TablesStayOneToOne(w: World, steps: seq<(Step, bool)>)
    requires Empty(w)
    ensures OneToOne(Run(w, steps).tables)
    ensures forall id :: id in Run(w, steps).tables.spots ==> ReadSpot(id, Run(w, steps).tables.spots[id]).Some?
  {
    EmptyIsConsistent(w);
    RunKeeps(w, steps);
    ConsistentIsOneToOne(Run(w, steps));
  }

  // --- And for the callers ------------------------------------------------------------------

  lemma {:induction false} OneMatch(records: seq<RecordRow>, plate: string, spot: string, at: nat)
    requires at < |records| && Matches(records[at], plate, spot)
    requires forall i :: 0 <= i < |records| && i != at ==> !Matches(records[i], plate, spot)
    ensures MatchCount(records, plate, spot) == 1
  {
    if at == 0 {
      NoMatch(records[1..], plate, spot);
    } else {
      OneMatch(records[1..], plate, spot, at - 1);
    }
  }

  lemma {:induction false} NoMatch(records: seq<RecordRow>, plate: string, spot: string)
    requires forall i :: 0 <= i < |records| ==> !Matches(records[i], plate, spot)
    ensures MatchCount(records, plate, spot) == 0
  {
    if records != [] {
      NoMatch(records[1..], plate, spot);
    }
  }

  lemma OneOpenRow(w: World, plate: string)
    requires Consistent(w) && plate in w.active
    ensures MatchCount(w.tables.records, plate, w.active[plate].spot) == 1
    ensures w.active[plate].spot in w.tables.spots
  {
    var records := w.tables.records;
    var i :| 0 <= i < |records| && OpenRow(records[i]) && records[i].plate == plate;
    OneMatch(records, plate, w.active[plate].spot, i);
  }

  /** As long as the connection holds, a parked vehicle can always leave. */
  lemma LeavingSucceeds(w: World, plate: string, time: int, fee: real)
    requires Consistent(w) && plate in w.active && ExitAllowed(w.active[plate], time, fee)
    ensures AfterLeave(w, plate, time, fee, false).active == w.active - {plate}
  {
    OneOpenRow(w, plate);
    ExitPerforms(w.tables, w.active[plate], time, fee);
    assert CanLeave(w, plate);
    hide Consistent, MatchCount, Closed, PerformAll;
  }

  lemma ExitPerforms(t: Tables, record: ServiceRecord, time: int, fee: real)
    requires ExitAllowed(record, time, fee) && record.spot in t.spots
    requires MatchCount(t.records, record.plate, record.spot) == 1
    ensures PerformAll(ExitStatements(record, time, fee), t).Some?
  {
    var sts := ExitStatements(record, time, fee);
    PerformTwo(sts[0], sts[1], t);
  }

  /** And a vehicle that is not inside can always take a spot it may occupy. */
  lemma EnteringSucceeds(w: World, id: string, vehicle: Vehicle, time: int)
    requires Consistent(w) && vehicle.plate !in w.active && vehicle.plate != "" && ToMilliseconds(time).Some?
    requires id in w.spots && CanOccupy(w.spots[id], vehicle)
    ensures vehicle.plate in AfterEnter(w, id, vehicle, time, false).active
  {
    var spot, record := OccupiedBy(w.spots[id], vehicle), NewRecordFor(id, vehicle, time);
    EntryIsAllowed(w, id, vehicle, time);
    NotInsideHasNoRow(w, vehicle.plate);
    PerformTwo(UpdateSpot(id, RowOf(spot)), NewRecord(record), w.tables);
    assert id in w.tables.spots;
    hide Consistent, EntryAllowed, Storable, CanOccupy, RowOf;
  }

  lemma EntryIsAllowed(w: World, id: string, vehicle: Vehicle, time: int)
    requires Consistent(w) && vehicle.plate != "" && ToMilliseconds(time).Some?
    requires id in w.spots && CanOccupy(w.spots[id], vehicle)
    ensures var spot := OccupiedBy(w.spots[id], vehicle);
            spot.id == id && EntryAllowed(NewRecordFor(id, vehicle, time), spot) && Storable(spot)
  {
  }

  lemma NotInsideHasNoRow(w: World, plate: string)
    requires Consistent(w) && plate !in w.active
    ensures !HasOpenRecord(w.tables, plate)
  {
    assert forall i :: 0 <= i < |w.tables.records| && w.tables.records[i].exit.None? ==> OpenRow(w.tables.records[i]);
  }

  /** Memory and tables say the same about a spot. */
  ghost predicate InStep(w: World, id: string) {
    id in w.spots && id in w.tables.spots && Storable(w.spots[id]) && w.tables.spots[id] == RowOf(w.spots[id])
  }

  /** An entry that fails to be stored leaves memory and tables in step if and only if the spot was not held for
      the vehicle: the way back always makes it available in memory, while a reserved row stays reserved. */
  lemma FailedEntryInStep(w: World, id: string, vehicle: Vehicle, time: int)
    requires Consistent(w) && InStep(w, id) && vehicle.plate !in w.active && vehicle.plate != ""
    requires ToMilliseconds(time).Some? && CanOccupy(w.spots[id], vehicle)
    ensures InStep(AfterEnter(w, id, vehicle, time, true), id) <==> w.spots[id].status != Reserved
  {
  }

  /** A run that gets there from the empty car park: a reservation is stored, then the same vehicle's entry fails. */
  lemma FailedEntryOutOfStep(w: World, id: string, vehicle: Vehicle, until: int, time: int)
    requires Empty(w) && id in w.spots && vehicle.plate != "" && ToMilliseconds(until).Some? && ToMilliseconds(time).Some?
    ensures var v := Run(w, [(Reserve(id, vehicle, until), false), (Enter(id, vehicle, time), true)]);
            && id in v.spots && id in v.tables.spots
            && v.spots[id].status == Available && v.tables.spots[id].status == StatusCode(Reserved)
            && v.tables.spots[id].plate == Some(vehicle.plate) && !InStep(v, id)
  {
    var steps := [(Reserve(id, vehicle, until), false), (Enter(id, vehicle, time), true)];
    var spot := ReservedFor(w.spots[id], vehicle, until);
    PerformMore(UpdateSpot(id, RowOf(spot)), [], w.tables);
    assert [UpdateSpot(id, RowOf(spot))] == [UpdateSpot(id, RowOf(spot))] + [];
    var u := AfterReserve(w, id, vehicle, until, false);
    assert u.spots[id] == spot && u.tables.spots[id] == RowOf(spot) && u.active == map[];
    assert steps[..1] == [steps[0]] && [steps[0]][..0] == [];
    assert Run(w, steps[..1]) == Next(Run(w, []), steps[0].0, steps[0].1) == u;
    assert Run(w, steps) == AfterEnter(u, id, vehicle, time, true);
  }

  /** The way back of an arrival puts the reservation back as it was, given the same vehicle and deadline. */
  lemma FailedCheckInInStep(w: World, id: string, vehicle: Vehicle, order: Order, time: int, deadline: int)
    requires Consistent(w) && InStep(w, id) && HeldFor(w, id, vehicle.plate) && ToMilliseconds(time).Some?
    requires w.spots[id] == ReservedFor(w.spots[id], vehicle, deadline)
    ensures AfterCheckIn(w, id, vehicle, order, time, deadline, true) == w
  {
    assert w.spots[id := w.spots[id]] == w.spots;
  }

  // --- Restarting from the tables -------------------------------------------------------------

  /** What loading demands of a stored record. */
  predicate RecordLoads(r: RecordRow, spots: set<string>) {
    && r.plate != "" && r.spot != "" && r.spot in spots && r.fee >= 0.0
    && FromMilliseconds(r.entry).Some? && TypeOf(r.vehicleType).Some?
    && (r.exit.Some? ==> FromMilliseconds(r.exit.value).Some? && r.exit.value >= r.entry)
  }

  ghost predicate PointsBack(records: seq<RecordRow>, plate: string, spot: string) {
    exists i :: 0 <= i < |records| && OpenRow(records[i]) && records[i].plate == plate && records[i].spot == spot
  }

  /** What restoring the service from the tables demands: everything loads, at most one open record for a plate,
      and occupied spots and open records pointing at each other.  Otherwise it refuses to start. */
  ghost predicate RestoreAccepts(t: Tables) {
    && (forall i :: 0 <= i < |t.records| ==> RecordLoads(t.records[i], t.spots.Keys))
    && (forall id :: id in t.spots ==> ReadSpot(id, t.spots[id]).Some?)
    && (forall i, j :: 0 <= i < j < |t.records| && OpenRow(t.records[i]) && OpenRow(t.records[j]) ==> t.records[i].plate != t.records[j].plate)
    && (forall id :: id in t.spots ==>
          var s := ReadSpot(id, t.spots[id]).value;
          && (s.status == Occupied ==> s.vehicle.Some? && PointsBack(t.records, s.vehicle.value.plate, id))
          && (s.status == Reserved ==> s.vehicle.Some? && s.expiry.Some?))
    && (forall i :: 0 <= i < |t.records| && OpenRow(t.records[i]) ==>
          Parks(ReadSpot(t.records[i].spot, t.spots[t.records[i].spot]).value, t.records[i].plate))
  }

  ghost predicate RowFits(r: RecordRow, spots: set<string>, active: map<string, ServiceRecord>) {
    && RecordLoads(r, spots)
    && (OpenRow(r) ==> r.plate in active && ToMilliseconds(active[r.plate].entry) == Some(r.entry))
  }

  /** Every record loads, and open ones carry the entry time held in memory. */
  ghost predicate Loadable(w: World) {
    forall i :: 0 <= i < |w.tables.records| ==> RowFits(w.tables.records[i], w.tables.spots.Keys, w.active)
  }

  lemma ParkingLoads(w: World, record: ServiceRecord, v: World)
    requires Loadable(w) && ToMilliseconds(record.entry).Some? && record.plate != "" && record.spot != ""
    requires record.plate !in w.active && v.active == w.active[record.plate := record]
    requires v.tables.spots.Keys == w.tables.spots.Keys && record.spot in w.tables.spots
    requires v.tables.records == w.tables.records + [NewRecord(record).record]
    ensures Loadable(v)
  {
    TimeRoundTrip(record.entry);
  }

  lemma LaterMilliseconds(a: int, b: int)
    requires a <= b && ToMilliseconds(a).Some? && ToMilliseconds(b).Some?
    ensures ToMilliseconds(a).value <= ToMilliseconds(b).value
  {
  }

  lemma ClosedRowFits(r: RecordRow, spots: set<string>, active: map<string, ServiceRecord>, plate: string, exit: int, fee: real)
    requires RowFits(r, spots, active) && plate in active && active[plate].plate == plate && ExitAllowed(active[plate], exit, fee)
    ensures r.plate == plate && OpenRow(r) ==> RowFits(r.(exit := ToMilliseconds(exit), fee := fee), spots, active - {plate})
    ensures r.plate != plate || !OpenRow(r) ==> RowFits(r, spots, active - {plate})
  {
    if r.plate == plate && OpenRow(r) {
      LaterMilliseconds(active[plate].entry, exit);
      TimeRoundTrip(exit);
    }
  }

  lemma LeavingLoads(w: World, plate: string, exit: int, fee: real, v: World)
    requires Loadable(w) && plate in w.active && ExitAllowed(w.active[plate], exit, fee)
    requires RecordsAgree(w.active, w.tables.records)
    requires Vacated(w.tables, v.tables, w.active[plate], ToMilliseconds(exit).value, fee) && w.active[plate].plate == plate
    requires v.active == w.active - {plate}
    ensures Loadable(v)
  {
    var records, rows := w.tables.records, v.tables.records;
    assert v.tables.spots.Keys == w.tables.spots.Keys;
    forall i | 0 <= i < |rows| ensures RowFits(rows[i], v.tables.spots.Keys, v.active) {
      ClosedRowFits(records[i], w.tables.spots.Keys, w.active, plate, exit, fee);
      assert OpenRow(records[i]) && records[i].plate == plate ==> Matches(records[i], plate, w.active[plate].spot);
      hide RowFits, RecordsAgree;
    }
  }

  lemma EnterLoads(w: World, id: string, vehicle: Vehicle, time: int, fault: bool)
    requires Consistent(w) && Loadable(w)
    ensures Loadable(AfterEnter(w, id, vehicle, time, fault))
  {
    if ToMilliseconds(time).Some? && vehicle.plate != "" && vehicle.plate !in w.active && id in w.spots && CanOccupy(w.spots[id], vehicle) {
      var spot, record := OccupiedBy(w.spots[id], vehicle), NewRecordFor(id, vehicle, time);
      var (tables, ok) := Store(w.tables, true, EntryStatements(record, spot), fault);
      if ok {
        EntryEffect(w.tables, record, spot, tables);
        ParkingLoads(w, record, AfterEnter(w, id, vehicle, time, fault));
      }
    }
  }

  lemma CheckInLoads(w: World, id: string, vehicle: Vehicle, order: Order, time: int, deadline: int, fault: bool)
    requires Consistent(w) && Loadable(w)
    ensures Loadable(AfterCheckIn(w, id, vehicle, order, time, deadline, fault))
  {
    if ToMilliseconds(time).Some? && HeldFor(w, id, vehicle.plate) {
      var spot, record := OccupiedBy(w.spots[id], vehicle), NewRecordFor(id, vehicle, time);
      var allowed := CheckInAllowed(order, record, spot);
      var (tables, ok) := Store(w.tables, allowed, if allowed then CheckInStatements(order, record, spot) else [], fault);
      if ok {
        CheckInEffect(w.tables, order, record, spot, tables);
        RecordsGrow(w.active, w.tables.records, record);
        ParkingLoads(w, record, AfterCheckIn(w, id, vehicle, order, time, deadline, fault));
      }
    }
  }

  lemma BookingLoads(w: World, id: string, booking: Booking, time: int, deadline: int, fault: bool)
    requires Consistent(w) && Loadable(w)
    ensures Loadable(AfterBooking(w, id, booking, time, deadline, fault))
  {
    if ToMilliseconds(time).Some? && HeldFor(w, id, booking.plate) {
      var vehicle := w.spots[id].vehicle.value;
      var spot, record := OccupiedBy(w.spots[id], vehicle), NewRecordFor(id, vehicle, time);
      var allowed := BookingAllowed(booking, record, spot);
      var (tables, ok) := Store(w.tables, allowed, if allowed then BookingStatements(booking, record, spot) else [], fault);
      if ok {
        BookingEffect(w.tables, booking, record, spot, tables);
        RecordsGrow(w.active, w.tables.records, record);
        ParkingLoads(w, record, AfterBooking(w, id, booking, time, deadline, fault));
      }
    }
  }

  lemma LeaveLoads(w: World, plate: string, time: int, fee: real, fault: bool)
    requires Consistent(w) && Loadable(w)
    ensures Loadable(AfterLeave(w, plate, time, fee, fault))
  {
    if CanLeave(w, plate) && ExitAllowed(w.active[plate], time, fee) {
      var (tables, ok) := Store(w.tables, true, ExitStatements(w.active[plate], time, fee), fault);
      if ok {
        ExitEffect(w.tables, w.active[plate], time, fee, tables);
        LeavingLoads(w, plate, time, fee, AfterLeave(w, plate, time, fee, fault));
      }
    }
  }

  lemma SettledLeaveLoads(w: World, plate: string, time: int, fee: real, order: Order, payment: Payment, fault: bool)
    requires Consistent(w) && Loadable(w)
    ensures Loadable(AfterSettledLeave(w, plate, time, fee, order, payment, fault))
  {
    if CanLeave(w, plate) && ExitAllowed(w.active[plate], time, fee) && PaymentAllowed(payment) {
      var (tables, ok) := Store(w.tables, true, SettledExitStatements(w.active[plate], time, fee, order, payment), fault);
      if ok {
        SettledExitEffect(w.tables, w.active[plate], time, fee, order, payment, tables);
        LeavingLoads(w, plate, time, fee, AfterSettledLeave(w, plate, time, fee, order, payment, fault));
      }
    }
  }

  lemma SpotOnlyLoads(w: World, id: string, row: SpotRow)
    requires Loadable(w)
    ensures PerformAll([UpdateSpot(id, row)], w.tables).Some? ==>
              Loadable(w.(tables := PerformAll([UpdateSpot(id, row)], w.tables).value))
  {
    assert [UpdateSpot(id, row)] == [UpdateSpot(id, row)] + [];
    PerformMore(UpdateSpot(id, row), [], w.tables);
    if id in w.tables.spots {
      assert w.tables.spots[id := row].Keys == w.tables.spots.Keys;
    }
  }

  lemma NextLoads(w: World, step: Step, fault: bool)
    requires Consistent(w) && Loadable(w)
    ensures Loadable(Next(w, step, fault))
  {
    match step {
      case Enter(id, vehicle, time) => EnterLoads(w, id, vehicle, time, fault);
      case CheckIn(id, vehicle, order, time, deadline) => CheckInLoads(w, id, vehicle, order, time, deadline, fault);
      case ConfirmBooking(id, booking, time, deadline) => BookingLoads(w, id, booking, time, deadline, fault);
      case Leave(plate, time, fee) => LeaveLoads(w, plate, time, fee, fault);
      case LeaveSettled(plate, time, fee, order, payment) => SettledLeaveLoads(w, plate, time, fee, order, payment, fault);
      case Reserve(id, vehicle, until) =>
        if id in w.spots && Storable(ReservedFor(w.spots[id], vehicle, until)) {
          SpotOnlyLoads(w, id, RowOf(ReservedFor(w.spots[id], vehicle, until)));
        }
      case Unreserve(id) =>
        if id in w.spots && Storable(Cleared(w.spots[id])) {
          SpotOnlyLoads(w, id, RowOf(Cleared(w.spots[id])));
        }
    }
  }

  lemma {:induction false} RunLoads(w: World, steps: seq<(Step, bool)>)
    requires Consistent(w) && Loadable(w)
    ensures Loadable(Run(w, steps))
    decreases |steps|
  {
    if steps != [] {
      var before, last := steps[..|steps| - 1], steps[|steps| - 1];
      RunLoads(w, before);
      RunKeeps(w, before);
      NextLoads(Run(w, before), last.0, last.1);
    }
  }

  lemma ReadKeeps(id: string, row: SpotRow)
    requires ReadSpot(id, row).Some?
    ensures var s := ReadSpot(id, row).value;
            && (s.status == Occupied <==> row.status == 1)
            && (s.vehicle.Some? <==> s.status == Occupied || s.status == Reserved)
            && (s.vehicle.Some? ==> row.plate == Some(s.vehicle.value.plate))
            && (s.expiry.Some? <==> s.status == Reserved)
  {
  }

  lemma ConsistentRestores(w: World)
    requires Consistent(w) && Loadable(w)
    ensures RestoreAccepts(w.tables)
  {
    var t := w.tables;
    ConsistentIsOneToOne(w);
    hide Consistent;
    forall id | id in t.spots
      ensures var s := ReadSpot(id, t.spots[id]).value;
              && (s.status == Occupied ==> s.vehicle.Some? && PointsBack(t.records, s.vehicle.value.plate, id))
              && (s.status == Reserved ==> s.vehicle.Some? && s.expiry.Some?)
    {
      ReadKeeps(id, t.spots[id]);
      hide ReadSpot;
    }
    forall i | 0 <= i < |t.records| && OpenRow(t.records[i])
      ensures Parks(ReadSpot(t.records[i].spot, t.spots[t.records[i].spot]).value, t.records[i].plate)
    {
      ReadKeeps(t.records[i].spot, t.spots[t.records[i].spot]);
      hide ReadSpot;
    }
    forall i | 0 <= i < |t.records| ensures RecordLoads(t.records[i], t.spots.Keys) {
      assert RowFits(t.records[i], t.spots.Keys, w.active);
    }
  }

  /** Whatever happened and whatever failed, the service can be started again from the tables. */
  lemma RestartSucceeds(w: World, steps: seq<(Step, bool)>)
    requires Empty(w)
    ensures RestoreAccepts(Run(w, steps).tables)
  {
    EmptyIsConsistent(w);
    RunKeeps(w, steps);
    RunLoads(w, steps);
    ConsistentRestores(Run(w, steps));
  }
}
