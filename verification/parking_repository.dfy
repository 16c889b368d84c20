/**
 The repository: each saving operation is one transaction over several tables, and whatever fails
 along the way, either all of it is stored or nothing.
 */
module ParkingRepositories {
  import opened Outcomes
  import opened TimeUtil
  import opened ParkingSpots
  import opened ParkingDatabase

  const LEGACY_NO_TIME := -1

  /** A parking record as the service holds it; times in clock ticks. */
  datatype ServiceRecord = ServiceRecord(plate: string, spot: string, entry: int, closed: bool, vehicleType: VehicleType)

  datatype Booking = Booking(id: string, plate: string, spot: string, checkedIn: bool, status: int)

  const CHECKED_IN := 2

  /** A period reservation, with its status and deposit state as stored. */
  datatype Order = Order(id: string, plate: string, spot: string, status: int, depositState: int)

  datatype Payment = Payment(id: string, order: string, plate: string, kind: int, amount: real, status: int, created: int)

  // --- Codes ----------------------------------------------------------------------------

  function StatusCode(status: SpotStatus): int {
    match status
    case Available => 0
    case Occupied => 1
    case Reserved => 2
    case Disabled => 3
  }

  function StatusOf(code: int): Option<SpotStatus> {
    match code
    case 0 => Some(Available)
    case 1 => Some(Occupied)
    case 2 => Some(Reserved)
    case 3 => Some(Disabled)
    case _ => None
  }

  function TypeCode(vehicleType: VehicleType): int {
    match vehicleType
    case Car => 0
    case Motorcycle => 1
    case Truck => 2
    case Electric => 3
  }

  function TypeOf(code: int): Option<VehicleType> {
    match code
    case 0 => Some(Car)
    case 1 => Some(Motorcycle)
    case 2 => Some(Truck)
    case 3 => Some(Electric)
    case _ => None
  }

  // --- The spot writer and the spot reader ----------------------------------------------

  predicate Storable(s: Spot) {
    && s.id != ""
    && (s.vehicle.Some? <==> s.status == Occupied || s.status == Reserved)
    && (s.expiry.Some? <==> s.status == Reserved)
    && (s.expiry.Some? ==> ToMilliseconds(s.expiry.value).Some?)
  }

  function RowOf(s: Spot): SpotRow
    requires Storable(s)
  {
    SpotRow(StatusCode(s.status),
            if s.vehicle.Some? then Some(s.vehicle.value.plate) else None,
            if s.vehicle.Some? then Some(TypeCode(s.vehicle.value.vehicleType)) else None,
            if s.expiry.Some? then ToMilliseconds(s.expiry.value) else None)
  }

  const AVAILABLE_ROW := SpotRow(0, None, None, None)

  /** NULL reads as the empty text and as 0. */
  function ReadSpot(id: string, row: SpotRow): Option<Spot> {
    var status := StatusOf(row.status);
    if status.None? then None
    else
      var plate := if row.plate.Some? then row.plate.value else "";
      var vehicleType := TypeOf(if row.vehicleType.Some? then row.vehicleType.value else 0);
      if plate != "" && vehicleType.None? then None
      else
        var vehicle := if plate != "" then Some(Vehicle(plate, vehicleType.value)) else None;
        var legacy := row.reservedUntil == Some(LEGACY_NO_TIME);
        var expiry := if row.reservedUntil.None? || legacy then None else FromMilliseconds(row.reservedUntil.value);
        if row.reservedUntil.Some? && !legacy && expiry.None? then None
        else if (status.value == Occupied || status.value == Reserved) != vehicle.Some? then None
        else if (status.value == Reserved) != expiry.Some? then None
        else Some(Spot(id, status.value, vehicle, expiry))
  }

  function WholeMilliseconds(s: Spot): Spot {
    if s.expiry.Some? then s.(expiry := Some(s.expiry.value - s.expiry.value % TICKS_PER_MS)) else s
  }

  /** What the writer accepts the reader accepts, and gives back up to the parts below a millisecond. */
  lemma SpotRoundTrip(s: Spot)
    requires WellFormed(s) && Storable(s)
    ensures ReadSpot(s.id, RowOf(s)) == Some(WholeMilliseconds(s))
  {
    if s.expiry.Some? {
      TimeRoundTrip(s.expiry.value);
    }
  }

  /** And the reader only accepts what some well-formed spot is written as, apart from rows with the legacy expiry. */
  lemma ReaderIsExact(id: string, row: SpotRow)
    requires id != "" && row.reservedUntil != Some(LEGACY_NO_TIME)
    requires row.plate != Some("") && (row.plate.None? <==> row.vehicleType.None?)
    ensures ReadSpot(id, row).Some? <==> exists s: Spot :: s.id == id && WellFormed(s) && Storable(s) && RowOf(s) == row
  {
    var read := ReadSpot(id, row);
    if read.Some? {
      assert Storable(read.value) && RowOf(read.value) == row;
    }
    forall s: Spot | s.id == id && WellFormed(s) && Storable(s) && RowOf(s) == row ensures read.Some? {
      SpotRoundTrip(s);
    }
  }

  // --- What the transactions consist of ----------------------------------------------------

  function NewRecord(record: ServiceRecord): Statement
    requires ToMilliseconds(record.entry).Some?
  {
    InsertRecord(RecordRow(record.plate, record.spot, ToMilliseconds(record.entry).value, None, 0.0, TypeCode(record.vehicleType)))
  }

  predicate EntryAllowed(record: ServiceRecord, spot: Spot) {
    && !record.closed && spot.status == Occupied && spot.vehicle.Some?
    && record.spot == spot.id && record.plate == spot.vehicle.value.plate
    && ToMilliseconds(record.entry).Some?
  }

  function EntryStatements(record: ServiceRecord, spot: Spot): seq<Statement>
    requires EntryAllowed(record, spot) && Storable(spot)
  {
    [UpdateSpot(spot.id, RowOf(spot)), NewRecord(record)]
  }

  predicate BookingAllowed(booking: Booking, record: ServiceRecord, spot: Spot) {
    && booking.checkedIn && booking.id != "" && EntryAllowed(record, spot)
    && record.plate == booking.plate && record.spot == booking.spot
  }

  predicate CheckInAllowed(order: Order, record: ServiceRecord, spot: Spot) {
    && order.status == CHECKED_IN && order.id != "" && EntryAllowed(record, spot)
    && record.plate == order.plate && record.spot == order.spot
  }

  predicate ExitAllowed(record: ServiceRecord, exit: int, fee: real) {
    !record.closed && exit >= record.entry && ToMilliseconds(exit).Some? && fee >= 0.0
  }

  function ExitStatements(record: ServiceRecord, exit: int, fee: real): seq<Statement>
    requires ExitAllowed(record, exit, fee)
  {
    [CloseRecord(record.plate, record.spot, ToMilliseconds(exit).value, fee), UpdateSpot(record.spot, AVAILABLE_ROW)]
  }

  predicate PaymentAllowed(payment: Payment) {
    && payment.id != "" && payment.order != "" && payment.plate != "" && payment.amount >= 0.0
    && ToMilliseconds(payment.created).Some?
  }

  function PaymentStatement(payment: Payment): Statement
    requires PaymentAllowed(payment)
  {
    InsertPayment(PaymentRow(payment.id, payment.order, payment.plate, payment.kind, payment.amount, payment.status,
                             ToMilliseconds(payment.created).value))
  }

  function UpdateOf(order: Order): Statement {
    UpdateOrder(order.id, order.status, order.depositState)
  }

  function BookingStatements(booking: Booking, record: ServiceRecord, spot: Spot): seq<Statement>
    requires BookingAllowed(booking, record, spot) && Storable(spot)
  {
    [UpdateSpot(spot.id, RowOf(spot)), UpdateBooking(booking.id, booking.status), NewRecord(record)]
  }

  function CheckInStatements(order: Order, record: ServiceRecord, spot: Spot): seq<Statement>
    requires CheckInAllowed(order, record, spot) && Storable(spot)
  {
    [UpdateSpot(spot.id, RowOf(spot)), UpdateOf(order), NewRecord(record)]
  }

  function SettledExitStatements(record: ServiceRecord, exit: int, fee: real, order: Order, payment: Payment): seq<Statement>
    requires ExitAllowed(record, exit, fee) && PaymentAllowed(payment)
  {
    ExitStatements(record, exit, fee) + [UpdateOf(order), PaymentStatement(payment)]
  }

  // --- The repository object --------------------------------------------------------------

  class ParkingRepository {
    const db: Connection

    constructor (db: Connection)
      ensures this.db == db
    {
      this.db := db;
    }

    /** All of `sts`, or nothing; and nothing only if the operation is not allowed, a statement is refused or
        misses its row, or the connection failed. */
    twostate predicate AllOrNothing(ok: bool, allowed: bool, sts: seq<Statement>)
      reads db
    {
      && !db.inTransaction
      && (ok ==> allowed && PerformAll(sts, old(db.tables)) == Some(db.tables))
      && (!ok ==> db.tables == old(db.tables))
      && (allowed && PerformAll(sts, old(db.tables)).Some? && db.failures == old(db.failures) ==> ok)
    }

    /** One statement that must change exactly one row. */
    method RunOne(st: Statement) returns (ok: bool)
      requires db.inTransaction
      modifies db
      ensures db.inTransaction && db.tables == old(db.tables) && db.failures >= old(db.failures)
      ensures ok ==> Perform(st, old(db.working)) == Some(db.working)
      ensures !ok ==> Perform(st, old(db.working)).None? || db.failures > old(db.failures)
    {
      var rows;
      ok, rows := db.Run(st);
      if ok && rows != 1 {
        ok := false;
      }
    }

    method SaveSpotStateInTransaction(spot: Spot) returns (ok: bool)
      requires db.inTransaction
      modifies db
      ensures db.inTransaction && db.tables == old(db.tables) && db.failures >= old(db.failures)
      ensures ok ==> Storable(spot) && Perform(UpdateSpot(spot.id, RowOf(spot)), old(db.working)) == Some(db.working)
      ensures !ok ==> !Storable(spot) || Perform(UpdateSpot(spot.id, RowOf(spot)), old(db.working)).None? || db.failures > old(db.failures)
    {
      if spot.id == "" {
        return false;
      }
      if (spot.status == Available || spot.status == Disabled) && spot.vehicle.Some? {
        return false;
      }
      if (spot.status == Occupied || spot.status == Reserved) && spot.vehicle.None? {
        return false;
      }
      if spot.status == Reserved && spot.expiry.None? {
        return false;
      }
      if spot.status != Reserved && spot.expiry.Some? {
        return false;
      }
      if spot.expiry.Some? && ToMilliseconds(spot.expiry.value).None? {
        return false;
      }
      ok := RunOne(UpdateSpot(spot.id, RowOf(spot)));
    }

    method Finish() returns (ok: bool)
      requires db.inTransaction
      modifies db
      ensures !db.inTransaction && db.failures >= old(db.failures)
      ensures db.tables == (if ok then old(db.working) else old(db.tables))
      ensures !ok ==> db.failures > old(db.failures)
    {
      ok := db.Commit();
      if !ok {
        db.Rollback();
      }
    }

    method SaveSpotState(spot: Spot) returns (ok: bool)
      requires !db.inTransaction
      modifies db
      ensures AllOrNothing(ok, Storable(spot), if Storable(spot) then [UpdateSpot(spot.id, RowOf(spot))] else [])
    {
      ok := db.Begin();
      if !ok {
        return;
      }
      ok := SaveSpotStateInTransaction(spot);
      if !ok {
        db.Rollback();
        return;
      }
      ok := Finish();
    }

    method SaveReservation(spot: Spot) returns (ok: bool)
      requires !db.inTransaction
      modifies db
      ensures var allowed := spot.status == Reserved && spot.vehicle.Some? && spot.vehicle.value.plate != "" && Storable(spot);
              AllOrNothing(ok, allowed, if allowed then [UpdateSpot(spot.id, RowOf(spot))] else [])
    {
      if spot.status != Reserved || spot.vehicle.None? || spot.expiry.None? || spot.vehicle.value.plate == ""
         || ToMilliseconds(spot.expiry.value).None? {
        return false;
      }
      ok := SaveSpotState(spot);
    }

    method SaveEntry(record: ServiceRecord, spot: Spot) returns (ok: bool)
      requires !db.inTransaction
      modifies db
      ensures var allowed := EntryAllowed(record, spot) && Storable(spot);
              AllOrNothing(ok, allowed, if allowed then EntryStatements(record, spot) else [])
    {
      if !EntryAllowed(record, spot) {
        return false;
      }
      if Storable(spot) {
        PerformTwo(UpdateSpot(spot.id, RowOf(spot)), NewRecord(record), db.tables);
      }
      hide Perform, PerformAll;
      ok := db.Begin();
      if !ok {
        return;
      }
      ok := SaveSpotStateInTransaction(spot);
      if ok {
        ok := RunOne(NewRecord(record));
      }
      if !ok {
        db.Rollback();
        return;
      }
      ok := Finish();
    }

    method SaveBookingCheckIn(booking: Booking, record: ServiceRecord, spot: Spot) returns (ok: bool)
      requires !db.inTransaction
      modifies db
      ensures var allowed := BookingAllowed(booking, record, spot) && Storable(spot);
              AllOrNothing(ok, allowed, if allowed then BookingStatements(booking, record, spot) else [])
    {
      if !BookingAllowed(booking, record, spot) {
        return false;
      }
      if Storable(spot) {
        PerformThree(UpdateSpot(spot.id, RowOf(spot)), UpdateBooking(booking.id, booking.status), NewRecord(record), db.tables);
      }
      hide Perform, PerformAll;
      ok := db.Begin();
      if !ok {
        return;
      }
      ok := SaveSpotStateInTransaction(spot);
      if ok {
        ok := RunOne(UpdateBooking(booking.id, booking.status));
      }
      if ok {
        ok := RunOne(NewRecord(record));
      }
      if !ok {
        db.Rollback();
        return;
      }
      ok := Finish();
    }

    method SaveReservationCheckIn(order: Order, record: ServiceRecord, spot: Spot) returns (ok: bool)
      requires !db.inTransaction
      modifies db
      ensures var allowed := CheckInAllowed(order, record, spot) && Storable(spot);
              AllOrNothing(ok, allowed, if allowed then CheckInStatements(order, record, spot) else [])
    {
      if !CheckInAllowed(order, record, spot) {
        return false;
      }
      if Storable(spot) {
        PerformThree(UpdateSpot(spot.id, RowOf(spot)), UpdateOf(order), NewRecord(record), db.tables);
      }
      hide Perform, PerformAll;
      ok := db.Begin();
      if !ok {
        return;
      }
      ok := SaveSpotStateInTransaction(spot);
      if ok {
        ok := RunOne(UpdateOf(order));
      }
      if ok {
        ok := RunOne(NewRecord(record));
      }
      if !ok {
        db.Rollback();
        return;
      }
      ok := Finish();
    }

    method SaveExit(record: ServiceRecord, exit: int, fee: real) returns (ok: bool)
      requires !db.inTransaction
      modifies db
      ensures var allowed := ExitAllowed(record, exit, fee);
              AllOrNothing(ok, allowed, if allowed then ExitStatements(record, exit, fee) else [])
    {
      if !ExitAllowed(record, exit, fee) {
        return false;
      }
      var close := CloseRecord(record.plate, record.spot, ToMilliseconds(exit).value, fee);
      var free := UpdateSpot(record.spot, AVAILABLE_ROW);
      PerformTwo(close, free, db.tables);
      hide Perform, PerformAll;
      ok := db.Begin();
      if !ok {
        return;
      }
      ok := RunOne(close);
      if ok {
        ok := RunOne(free);
      }
      if !ok {
        db.Rollback();
        return;
      }
      ok := Finish();
    }

    method SaveExitWithReservation(record: ServiceRecord, exit: int, fee: real, order: Order, payment: Payment) returns (ok: bool)
      requires !db.inTransaction
      modifies db
      ensures var allowed := ExitAllowed(record, exit, fee) && PaymentAllowed(payment);
              AllOrNothing(ok, allowed, if allowed then SettledExitStatements(record, exit, fee, order, payment) else [])
    {
      if !ExitAllowed(record, exit, fee) {
        return false;
      }
      var close := CloseRecord(record.plate, record.spot, ToMilliseconds(exit).value, fee);
      var free := UpdateSpot(record.spot, AVAILABLE_ROW);
      if PaymentAllowed(payment) {
        PerformFour(close, free, UpdateOf(order), PaymentStatement(payment), db.tables);
        assert SettledExitStatements(record, exit, fee, order, payment) == [close, free, UpdateOf(order), PaymentStatement(payment)];
      }
      hide Perform, PerformAll;
      ok := db.Begin();
      if !ok {
        return;
      }
      ok := RunOne(close);
      if ok {
        ok := RunOne(free);
      }
      if ok {
        ok := RunOne(UpdateOf(order));
      }
      if ok {
        ok := PaymentAllowed(payment);
      }
      if ok {
        ok := RunOne(PaymentStatement(payment));
      }
      if !ok {
        db.Rollback();
        return;
      }
      ok := Finish();
    }
  }
}
