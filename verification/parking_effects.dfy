/**
 What each operation of the parking service leaves behind, row by row and number by number, when it succeeds,
 when it is refused and when storing fails.
 */
module ParkingEffects {
  import opened Outcomes
  import opened TimeUtil
  import opened ParkingSpots
  import opened ParkingDatabase
  import opened ParkingRepositories
  import opened ParkingStore

  // --- Numbers ----------------------------------------------------------------------------------

  /** Times between the years 2000 and 2200, in nanoseconds. */
  ghost predicate Supported(time: int) {
    946_684_800_000 * 1_000_000 <= time <= 7_258_118_400_000 * 1_000_000
  }

  function Millisecond(time: int): int { time / 1_000_000 }

  /** The number a vehicle type is stored as. */
  function TypeNumber(v: VehicleType): int {
    if v.Car? then 0 else if v.Motorcycle? then 1 else if v.Truck? then 2 else 3
  }

  lemma TimesAre(time: int)
    ensures ToMilliseconds(time) == if Supported(time) then Some(Millisecond(time)) else None
  {
  }

  lemma TypeIs(v: VehicleType)
    ensures TypeCode(v) == TypeNumber(v)
  {
  }

  /** The rows spots are stored as. */
  lemma RowIs(s: Spot)
    requires Storable(s)
    ensures s.status == Available ==> RowOf(s) == SpotRow(0, None, None, None)
    ensures s.status == Disabled ==> RowOf(s) == SpotRow(3, None, None, None)
    ensures s.status == Occupied ==> RowOf(s) == SpotRow(1, Some(s.vehicle.value.plate), Some(TypeNumber(s.vehicle.value.vehicleType)), None)
    ensures s.status == Reserved ==>
              RowOf(s) == SpotRow(2, Some(s.vehicle.value.plate), Some(TypeNumber(s.vehicle.value.vehicleType)), Some(Millisecond(s.expiry.value)))
  {
  }

  /** What the repository writes at all: a spot with a name, a vehicle exactly when it is occupied or reserved, and an end
      of the reservation, at a supported time, exactly when it is reserved. */
  lemma WrittenIff(s: Spot)
    ensures Storable(s) <==>
            && s.id != "" && (s.vehicle.Some? <==> s.status == Occupied || s.status == Reserved)
            && (s.status == Reserved ==> s.expiry.Some? && Supported(s.expiry.value)) && (s.status != Reserved ==> s.expiry.None?)
  {
  }

  /** Only an open record that belongs to the occupied spot and its vehicle is entered, at a supported time. */
  lemma EnteredIff(record: ServiceRecord, s: Spot)
    ensures EntryAllowed(record, s) <==>
            && !record.closed && s.status == Occupied && s.vehicle.Some? && record.spot == s.id
            && record.plate == s.vehicle.value.plate && Supported(record.entry)
  {
    TimesAre(record.entry);
  }

  /** Rows of older versions: without a vehicle type it is a car, and -1 is no end of the reservation. */
  lemma OldRows(id: string, plate: string)
    requires plate != ""
    ensures ReadSpot(id, SpotRow(1, Some(plate), None, None)) == Some(Spot(id, Occupied, Some(Vehicle(plate, Car)), None))
    ensures ReadSpot(id, SpotRow(1, Some(plate), None, Some(-1))) == Some(Spot(id, Occupied, Some(Vehicle(plate, Car)), None))
    ensures ReadSpot(id, SpotRow(0, Some(""), Some(0), Some(-1))) == Some(Spot(id, Available, None, None))
  {
  }

  // --- Entering -----------------------------------------------------------------------------------

  /** A spot is open to a vehicle if it is available or reserved for its plate. */
  ghost predicate OpenTo(s: Spot, v: Vehicle) {
    s.status == Available || (s.status == Reserved && s.vehicle.Some? && s.vehicle.value.plate == v.plate)
  }

  ghost predicate MayEnter(w: World, id: string, v: Vehicle, time: int) {
    Supported(time) && v.plate != "" && v.plate !in w.active && id in w.spots && OpenTo(w.spots[id], v)
  }

  /** The vehicle parked on the spot, in memory and in the tables. */
  ghost function ParkedOn(w: World, id: string, v: Vehicle, time: int): World {
    World(w.spots[id := Spot(id, Occupied, Some(v), None)],
          w.active[v.plate := ServiceRecord(v.plate, id, time, false, v.vehicleType)],
          w.tables.(spots := w.tables.spots[id := SpotRow(1, Some(v.plate), Some(TypeNumber(v.vehicleType)), None)],
                    records := w.tables.records + [RecordRow(v.plate, id, Millisecond(time), None, 0.0, TypeNumber(v.vehicleType))]))
  }

  lemma ParkedSpot(w: World, id: string, v: Vehicle)
    requires Consistent(w) && id in w.spots
    ensures OccupiedBy(w.spots[id], v) == Spot(id, Occupied, Some(v), None) && id != "" && id in w.tables.spots
    ensures Storable(OccupiedBy(w.spots[id], v))
    ensures RowOf(OccupiedBy(w.spots[id], v)) == SpotRow(1, Some(v.plate), Some(TypeNumber(v.vehicleType)), None)
  {
    TypeIs(v.vehicleType);
  }

  lemma ParkedRow(id: string, v: Vehicle, time: int)
    requires Supported(time)
    ensures ToMilliseconds(time).Some?
    ensures NewRecord(NewRecordFor(id, v, time))
         == InsertRecord(RecordRow(v.plate, id, Millisecond(time), None, 0.0, TypeNumber(v.vehicleType)))
  {
    TypeIs(v.vehicleType);
  }

  /** An entry is stored exactly as it should, if it may be made and the connection holds; refused it changes nothing, and
      when storing fails the spot ends up available in memory. */
  lemma EntryEffects(w: World, id: string, v: Vehicle, time: int, fault: bool)
    requires Consistent(w)
    ensures AfterEnter(w, id, v, time, fault)
         == if !MayEnter(w, id, v, time) then w
            else if fault then w.(spots := w.spots[id := Spot(id, Available, None, None)])
            else ParkedOn(w, id, v, time)
  {
    TimesAre(time);
    if MayEnter(w, id, v, time) {
      ParkedSpot(w, id, v);
      ParkedRow(id, v, time);
      NotInsideHasNoRow(w, v.plate);
      PerformTwo(UpdateSpot(id, RowOf(OccupiedBy(w.spots[id], v))), NewRecord(NewRecordFor(id, v, time)), w.tables);
      hide Consistent, RowOf, Storable, ToMilliseconds;
    }
  }

  // --- Arriving on a reservation or a booking ---------------------------------------------------------

  /** Nobody else has an open order for the plate of this one. */
  ghost predicate OnlyOpenOrder(t: Tables, id: string) {
    id in t.orders && forall o :: o in t.orders && o != id && t.orders[o].plate == t.orders[id].plate ==> !(0 <= t.orders[o].status <= 2)
  }

  /** The order can be marked as the operation marks it. */
  ghost predicate MayMark(t: Tables, order: Order) {
    order.id in t.orders && (0 <= order.status <= 2 ==> OnlyOpenOrder(t, order.id))
  }

  ghost function Marked(t: Tables, order: Order): Tables
    requires order.id in t.orders
  {
    t.(orders := t.orders[order.id := OrderRow(t.orders[order.id].plate, order.status, order.depositState)])
  }

  lemma MarkingIs(t: Tables, order: Order)
    ensures Perform(UpdateOf(order), t) == if MayMark(t, order) then Some(Marked(t, order)) else None
  {
    if order.id in t.orders {
      assert HasOtherOpenOrder(t, order.id, t.orders[order.id].plate) <==> !OnlyOpenOrder(t, order.id);
    }
  }

  ghost predicate Held(w: World, id: string, plate: string) {
    id in w.spots && w.spots[id].status == Reserved && w.spots[id].vehicle.Some? && w.spots[id].vehicle.value.plate == plate
  }

  ghost predicate OrderFits(w: World, id: string, v: Vehicle, order: Order) {
    && order.status == 2 && order.id != "" && order.plate == v.plate && order.spot == id
    && v.plate !in w.active && MayMark(w.tables, order)
  }

  /** No open row of a plate means that it has no open record in memory. */
  lemma OpenRowIff(w: World, plate: string)
    requires Consistent(w)
    ensures HasOpenRecord(w.tables, plate) <==> plate in w.active
  {
    if plate in w.active {
      var i :| 0 <= i < |w.tables.records| && OpenRow(w.tables.records[i]) && w.tables.records[i].plate == plate;
    } else {
      NotInsideHasNoRow(w, plate);
    }
  }

  lemma ArrivalStatements(t: Tables, id: string, row: SpotRow, order: Order, record: RecordRow)
    requires id in t.spots && record.exit.None?
    ensures PerformAll([UpdateSpot(id, row), UpdateOf(order), InsertRecord(record)], t)
         == if MayMark(t, order) && !HasOpenRecord(t, record.plate)
            then Some(Marked(t, order).(spots := t.spots[id := row], records := t.records + [record])) else None
  {
    PerformThree(UpdateSpot(id, row), UpdateOf(order), InsertRecord(record), t);
    var u := t.(spots := t.spots[id := row]);
    assert Perform(UpdateSpot(id, row), t) == Some(u);
    MarkingIs(u, order);
    assert MayMark(u, order) == MayMark(t, order);
    hide MayMark;
  }

  /** Arriving on a reservation: with a confirmed arrival for this spot and plate, a vehicle not inside and nothing else
      open for it, spot, order and record are stored together; otherwise the spot is reserved again until the deadline. */
  lemma CheckInEffects(w: World, id: string, v: Vehicle, order: Order, time: int, deadline: int, fault: bool)
    requires Consistent(w)
    ensures AfterCheckIn(w, id, v, order, time, deadline, fault)
         == if !Supported(time) || !Held(w, id, v.plate) then w
            else if fault || !OrderFits(w, id, v, order) then w.(spots := w.spots[id := Spot(id, Reserved, Some(v), Some(deadline))])
            else var p := ParkedOn(w, id, v, time); p.(tables := p.tables.(orders := Marked(w.tables, order).orders))
  {
    TimesAre(time);
    if Supported(time) && Held(w, id, v.plate) {
      ParkedSpot(w, id, v);
      ParkedRow(id, v, time);
      OpenRowIff(w, v.plate);
      ArrivalStatements(w.tables, id, RowOf(OccupiedBy(w.spots[id], v)), order, NewRecord(NewRecordFor(id, v, time)).record);
      hide Consistent, RowOf, Storable, ToMilliseconds, MayMark, Perform, PerformAll, HasOpenRecord;
    }
  }

  ghost predicate BookingFits(w: World, id: string, booking: Booking) {
    booking.checkedIn && booking.id in w.tables.bookings && booking.id != "" && booking.spot == id && booking.plate !in w.active
  }

  lemma BookingStatementsAre(t: Tables, id: string, row: SpotRow, booking: Booking, record: RecordRow)
    requires id in t.spots && record.exit.None?
    ensures PerformAll([UpdateSpot(id, row), UpdateBooking(booking.id, booking.status), InsertRecord(record)], t)
         == if booking.id in t.bookings && !HasOpenRecord(t, record.plate)
            then Some(t.(spots := t.spots[id := row], bookings := t.bookings[booking.id := booking.status], records := t.records + [record]))
            else None
  {
    PerformThree(UpdateSpot(id, row), UpdateBooking(booking.id, booking.status), InsertRecord(record), t);
    var u := t.(spots := t.spots[id := row]);
    assert Perform(UpdateSpot(id, row), t) == Some(u);
    assert HasOpenRecord(u.(bookings := u.bookings[booking.id := booking.status]), record.plate) == HasOpenRecord(t, record.plate);
    hide PerformAll, HasOpenRecord;
  }

  /** Arriving on a booking, the same with the vehicle the spot is held for. */
  lemma BookingEffects(w: World, id: string, booking: Booking, time: int, deadline: int, fault: bool)
    requires Consistent(w)
    ensures AfterBooking(w, id, booking, time, deadline, fault)
         == if !Supported(time) || !Held(w, id, booking.plate) then w
            else
              var v := w.spots[id].vehicle.value;
              if fault || !BookingFits(w, id, booking) then w.(spots := w.spots[id := Spot(id, Reserved, Some(v), Some(deadline))])
              else
                var p := ParkedOn(w, id, v, time);
                p.(tables := p.tables.(bookings := w.tables.bookings[booking.id := booking.status]))
  {
    TimesAre(time);
    if Supported(time) && Held(w, id, booking.plate) {
      var v := w.spots[id].vehicle.value;
      ParkedSpot(w, id, v);
      ParkedRow(id, v, time);
      OpenRowIff(w, v.plate);
      BookingStatementsAre(w.tables, id, RowOf(OccupiedBy(w.spots[id], v)), booking, NewRecord(NewRecordFor(id, v, time)).record);
      hide Consistent, RowOf, Storable, ToMilliseconds, PerformAll, HasOpenRecord;
    }
  }

  // --- Leaving --------------------------------------------------------------------------------------

  /** The place of the open row of a plate. */
  ghost predicate OpenAt(w: World, plate: string, i: nat) {
    i < |w.tables.records| && w.tables.records[i].plate == plate && w.tables.records[i].exit.None?
  }

  lemma OpenSomewhere(w: World, plate: string) returns (i: nat)
    requires Consistent(w) && plate in w.active
    ensures OpenAt(w, plate, i) && w.tables.records[i].spot == w.active[plate].spot
    ensures forall j :: 0 <= j < |w.tables.records| && j != i ==> !Matches(w.tables.records[j], plate, w.active[plate].spot)
  {
    var k :| 0 <= k < |w.tables.records| && OpenRow(w.tables.records[k]) && w.tables.records[k].plate == plate;
    i := k;
  }

  lemma {:induction false} ClosesOne(records: seq<RecordRow>, plate: string, spot: string, exit: int, fee: real, i: nat)
    requires i < |records| && Matches(records[i], plate, spot)
    requires forall j :: 0 <= j < |records| && j != i ==> !Matches(records[j], plate, spot)
    ensures Closed(records, plate, spot, exit, fee) == records[i := records[i].(exit := Some(exit), fee := fee)]
  {
  }

  ghost predicate MayLeave(w: World, plate: string, time: int, fee: real) {
    plate in w.active && w.active[plate].entry <= time && Supported(time) && fee >= 0.0
  }

  /** The spot free and the record closed, in memory and in the tables. */
  ghost function LeftFrom(w: World, plate: string, time: int, fee: real, i: nat): World
    requires plate in w.active && i < |w.tables.records|
  {
    var id := w.active[plate].spot;
    World(w.spots[id := Spot(id, Available, None, None)], w.active - {plate},
          w.tables.(spots := w.tables.spots[id := SpotRow(0, None, None, None)],
                    records := w.tables.records[i := w.tables.records[i].(exit := Some(Millisecond(time)), fee := fee)]))
  }

  lemma LeavingSpot(w: World, plate: string)
    requires Consistent(w) && plate in w.active
    ensures CanLeave(w, plate) && w.active[plate].plate == plate && !w.active[plate].closed && w.active[plate].spot in w.tables.spots
    ensures Cleared(w.spots[w.active[plate].spot]) == Spot(w.active[plate].spot, Available, None, None)
  {
  }

  lemma MayLeaveIs(w: World, plate: string, time: int, fee: real)
    requires Consistent(w) && plate in w.active
    ensures ExitAllowed(w.active[plate], time, fee) <==> MayLeave(w, plate, time, fee)
  {
    TimesAre(time);
  }

  lemma ExitStatementsAre(t: Tables, id: string, plate: string, exit: int, fee: real, i: nat)
    requires id in t.spots && i < |t.records| && Matches(t.records[i], plate, id)
    requires forall j :: 0 <= j < |t.records| && j != i ==> !Matches(t.records[j], plate, id)
    ensures Perform(CloseRecord(plate, id, exit, fee), t)
         == Some(t.(records := t.records[i := t.records[i].(exit := Some(exit), fee := fee)]))
    ensures Then(Perform(CloseRecord(plate, id, exit, fee), t), UpdateSpot(id, AVAILABLE_ROW))
         == Some(t.(spots := t.spots[id := SpotRow(0, None, None, None)],
                    records := t.records[i := t.records[i].(exit := Some(exit), fee := fee)]))
  {
    OneMatch(t.records, plate, id, i);
    ClosesOne(t.records, plate, id, exit, fee, i);
  }

  /** A vehicle that is inside leaves at any supported time not before it came, for any fee that is not negative: its one
      open row is closed with that time and fee, and its spot is free.  Anything else changes nothing. */
  lemma ExitEffects(w: World, plate: string, time: int, fee: real, fault: bool) returns (i: nat)
    requires Consistent(w)
    ensures plate in w.active ==> OpenAt(w, plate, i)
    ensures AfterLeave(w, plate, time, fee, fault)
         == if fault || !MayLeave(w, plate, time, fee) then w else LeftFrom(w, plate, time, fee, i)
  {
    i := 0;
    if plate in w.active {
      i := OpenSomewhere(w, plate);
      LeavingSpot(w, plate);
      MayLeaveIs(w, plate, time, fee);
      TimesAre(time);
      if MayLeave(w, plate, time, fee) {
        var id := w.active[plate].spot;
        ExitStatementsAre(w.tables, id, plate, Millisecond(time), fee, i);
        PerformTwo(CloseRecord(plate, id, Millisecond(time), fee), UpdateSpot(id, AVAILABLE_ROW), w.tables);
      }
      hide Consistent, Perform, PerformAll, ExitAllowed, Cleared;
    }
  }

  ghost predicate MayPay(t: Tables, payment: Payment) {
    && payment.id != "" && payment.order != "" && payment.plate != "" && payment.amount >= 0.0
    && Supported(payment.created) && payment.id !in t.payments
  }

  ghost function Paid(t: Tables, payment: Payment): Tables {
    t.(payments := t.payments[payment.id := PaymentRow(payment.id, payment.order, payment.plate, payment.kind, payment.amount,
                                                      payment.status, Millisecond(payment.created))])
  }

  lemma PayingIs(t: Tables, payment: Payment)
    ensures PaymentAllowed(payment) && payment.id !in t.payments <==> MayPay(t, payment)
    ensures PaymentAllowed(payment) ==>
              Perform(PaymentStatement(payment), t) == if MayPay(t, payment) then Some(Paid(t, payment)) else None
  {
    TimesAre(payment.created);
  }

  /** Settling on the way out stores exit, order and payment together, or changes nothing. */
  lemma SettledExitEffects(w: World, plate: string, time: int, fee: real, order: Order, payment: Payment, fault: bool) returns (i: nat)
    requires Consistent(w)
    ensures plate in w.active ==> OpenAt(w, plate, i)
    ensures AfterSettledLeave(w, plate, time, fee, order, payment, fault)
         == if fault || !MayLeave(w, plate, time, fee) || !MayMark(w.tables, order) || !MayPay(w.tables, payment) then w
            else var l := LeftFrom(w, plate, time, fee, i);
                 l.(tables := l.tables.(orders := Marked(w.tables, order).orders, payments := Paid(w.tables, payment).payments))
  {
    i := 0;
    if plate in w.active {
      i := OpenSomewhere(w, plate);
      LeavingSpot(w, plate);
      MayLeaveIs(w, plate, time, fee);
      TimesAre(time);
      PayingIs(w.tables, payment);
      if MayLeave(w, plate, time, fee) && PaymentAllowed(payment) {
        var id, t := w.active[plate].spot, w.tables;
        var sts := SettledExitStatements(w.active[plate], time, fee, order, payment);
        assert sts == [CloseRecord(plate, id, Millisecond(time), fee), UpdateSpot(id, AVAILABLE_ROW), UpdateOf(order), PaymentStatement(payment)];
        SettledStatements(t, id, plate, Millisecond(time), fee, order, payment, i);
      }
      hide Consistent, Perform, PerformAll, ExitAllowed, Cleared, MayMark, MayPay, PaymentAllowed;
    }
  }

  lemma SettledStatements(t: Tables, id: string, plate: string, exit: int, fee: real, order: Order, payment: Payment, i: nat)
    requires id in t.spots && i < |t.records| && Matches(t.records[i], plate, id) && PaymentAllowed(payment)
    requires forall j :: 0 <= j < |t.records| && j != i ==> !Matches(t.records[j], plate, id)
    ensures PerformAll([CloseRecord(plate, id, exit, fee), UpdateSpot(id, AVAILABLE_ROW), UpdateOf(order), PaymentStatement(payment)], t)
         == if !MayMark(t, order) || !MayPay(t, payment) then None
            else Some(t.(spots := t.spots[id := SpotRow(0, None, None, None)],
                         records := t.records[i := t.records[i].(exit := Some(exit), fee := fee)],
                         orders := Marked(t, order).orders, payments := Paid(t, payment).payments))
  {
    var close, free := CloseRecord(plate, id, exit, fee), UpdateSpot(id, AVAILABLE_ROW);
    PerformFour(close, free, UpdateOf(order), PaymentStatement(payment), t);
    ExitStatementsAre(t, id, plate, exit, fee, i);
    var u := Then(Perform(close, t), free).value;
    MarkingIs(u, order);
    assert MayMark(u, order) == MayMark(t, order);
    if MayMark(t, order) {
      PayingIs(Marked(u, order), payment);
    }
    hide Perform, PerformAll, MayMark, PaymentAllowed, Matches;
  }

  // --- Holding a spot ---------------------------------------------------------------------------------

  lemma UpdateAlone(t: Tables, id: string, row: SpotRow)
    requires id in t.spots
    ensures PerformAll([UpdateSpot(id, row)], t) == Some(t.(spots := t.spots[id := row]))
  {
    assert [UpdateSpot(id, row)] == [UpdateSpot(id, row)] + [];
    PerformMore(UpdateSpot(id, row), [], t);
  }

  lemma AvailableIs(w: World, id: string)
    requires Consistent(w) && id in w.spots
    ensures Cleared(w.spots[id]) == Spot(id, Available, None, None) && id != "" && id in w.tables.spots
    ensures w.spots[id].status == Available ==> w.spots[id] == Spot(id, Available, None, None)
  {
  }

  /** An available spot is held for a vehicle until a supported time, in memory and in its row, or nothing changes. */
  lemma ReserveEffects(w: World, id: string, v: Vehicle, until: int, fault: bool)
    requires Consistent(w)
    ensures AfterReserve(w, id, v, until, fault)
         == if id !in w.spots || w.spots[id].status != Available || v.plate == "" || fault || !Supported(until) then w
            else w.(spots := w.spots[id := Spot(id, Reserved, Some(v), Some(until))],
                    tables := w.tables.(spots := w.tables.spots[id := SpotRow(2, Some(v.plate), Some(TypeNumber(v.vehicleType)), Some(Millisecond(until)))]))
  {
    TimesAre(until);
    if id in w.spots && w.spots[id].status == Available {
      AvailableIs(w, id);
      TypeIs(v.vehicleType);
      var spot := ReservedFor(w.spots[id], v, until);
      if Supported(until) {
        UpdateAlone(w.tables, id, RowOf(spot));
      }
      assert w.spots[id := w.spots[id]] == w.spots;
      hide Consistent, PerformAll, ToMilliseconds, TypeCode;
    }
  }

  /** A hold ends in memory and in its row, or stays as it was. */
  lemma UnreserveEffects(w: World, id: string, fault: bool)
    requires Consistent(w)
    ensures AfterUnreserve(w, id, fault)
         == if id !in w.spots || w.spots[id].status != Reserved || fault then w
            else w.(spots := w.spots[id := Spot(id, Available, None, None)],
                    tables := w.tables.(spots := w.tables.spots[id := SpotRow(0, None, None, None)]))
  {
    if id in w.spots && w.spots[id].status == Reserved {
      AvailableIs(w, id);
      assert w.spots[id].vehicle.Some? && w.spots[id].expiry.Some?;
      UpdateAlone(w.tables, id, RowOf(Cleared(w.spots[id])));
      assert w.spots[id := w.spots[id]] == w.spots;
      hide Consistent, PerformAll;
    }
  }
}
