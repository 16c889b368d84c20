/**
 The tables behind the repository, the statements it runs on them, and a connection on which any
 statement, begin or commit may fail.
 */
module ParkingDatabase {
  import opened Outcomes

  datatype SpotRow = SpotRow(status: int, plate: Option<string>, vehicleType: Option<int>, reservedUntil: Option<int>)

  datatype RecordRow = RecordRow(plate: string, spot: string, entry: int, exit: Option<int>, fee: real, vehicleType: int)

  datatype OrderRow = OrderRow(plate: string, status: int, depositState: int)

  datatype PaymentRow = PaymentRow(id: string, order: string, plate: string, kind: int, amount: real, status: int, created: int)

  datatype Tables = Tables(spots: map<string, SpotRow>, records: seq<RecordRow>, bookings: map<string, int>,
                           orders: map<string, OrderRow>, payments: map<string, PaymentRow>)

  datatype Statement =
    | UpdateSpot(id: string, row: SpotRow)
    | InsertRecord(record: RecordRow)
    | CloseRecord(plate: string, spot: string, exit: int, fee: real)
    | UpdateOrder(order: string, status: int, depositState: int)
    | UpdateBooking(booking: string, status: int)
    | InsertPayment(payment: PaymentRow)

  /** A statement is refused, or changes some number of rows. */
  datatype Outcome = Refused | Changed(tables: Tables, rows: nat)

  predicate Matches(r: RecordRow, plate: string, spot: string) {
    r.plate == plate && r.spot == spot && r.exit.None?
  }

  function Closed(records: seq<RecordRow>, plate: string, spot: string, exit: int, fee: real): (r: seq<RecordRow>)
    ensures |r| == |records|
    ensures forall i :: 0 <= i < |r| ==>
              r[i] == if Matches(records[i], plate, spot) then records[i].(exit := Some(exit), fee := fee) else records[i]
  {
    if records == [] then []
    else
      var first := if Matches(records[0], plate, spot) then records[0].(exit := Some(exit), fee := fee) else records[0];
      [first] + Closed(records[1..], plate, spot, exit, fee)
  }

  function MatchCount(records: seq<RecordRow>, plate: string, spot: string): nat {
    if records == [] then 0
    else (if Matches(records[0], plate, spot) then 1 else 0) + MatchCount(records[1..], plate, spot)
  }

  predicate HasOpenRecord(t: Tables, plate: string) {
    exists i :: 0 <= i < |t.records| && t.records[i].plate == plate && t.records[i].exit.None?
  }

  predicate HasOtherOpenOrder(t: Tables, id: string, plate: string) {
    exists o <- t.orders :: o != id && t.orders[o].plate == plate && 0 <= t.orders[o].status <= 2
  }

  /** The two partial unique indexes (one open record, one open order for a plate) and the primary key of payments. */
  function Execute(st: Statement, t: Tables): Outcome {
    match st
    case UpdateSpot(id, row) =>
      if id in t.spots then Changed(t.(spots := t.spots[id := row]), 1) else Changed(t, 0)
    case InsertRecord(record) =>
      if record.exit.None? && HasOpenRecord(t, record.plate) then Refused
      else Changed(t.(records := t.records + [record]), 1)
    case CloseRecord(plate, spot, exit, fee) =>
      Changed(t.(records := Closed(t.records, plate, spot, exit, fee)), MatchCount(t.records, plate, spot))
    case UpdateOrder(id, status, depositState) =>
      if id !in t.orders then Changed(t, 0)
      else if 0 <= status <= 2 && HasOtherOpenOrder(t, id, t.orders[id].plate) then Refused
      else Changed(t.(orders := t.orders[id := OrderRow(t.orders[id].plate, status, depositState)]), 1)
    case UpdateBooking(id, status) =>
      if id in t.bookings then Changed(t.(bookings := t.bookings[id := status]), 1) else Changed(t, 0)
    case InsertPayment(payment) =>
      if payment.id in t.payments then Refused
      else Changed(t.(payments := t.payments[payment.id := payment]), 1)
  }

  /** A statement the repository is content with changes exactly one row. */
  function Perform(st: Statement, t: Tables): Option<Tables> {
    var outcome := Execute(st, t);
    if outcome.Changed? && outcome.rows == 1 then Some(outcome.tables) else None
  }

  function PerformAll(sts: seq<Statement>, t: Tables): Option<Tables>
    decreases |sts|
  {
    if sts == [] then Some(t)
    else
      var first := Perform(sts[0], t);
      if first.None? then None else PerformAll(sts[1..], first.value)
  }

  function Then(before: Option<Tables>, st: Statement): Option<Tables> {
    if before.None? then None else Perform(st, before.value)
  }

  lemma PerformMore(a: Statement, rest: seq<Statement>, t: Tables)
    ensures PerformAll([a] + rest, t) == if Perform(a, t).None? then None else PerformAll(rest, Perform(a, t).value)
  {
    assert ([a] + rest)[1..] == rest;
  }

  lemma PerformTwo(a: Statement, b: Statement, t: Tables)
    ensures PerformAll([a, b], t) == Then(Perform(a, t), b)
  {
    assert [a, b] == [a] + [b] && [b] == [b] + [];
    PerformMore(a, [b], t);
    if Perform(a, t).Some? {
      PerformMore(b, [], Perform(a, t).value);
    }
  }

  lemma PerformThree(a: Statement, b: Statement, c: Statement, t: Tables)
    ensures PerformAll([a, b, c], t) == Then(Then(Perform(a, t), b), c)
  {
    assert [a, b, c] == [a] + [b, c];
    PerformMore(a, [b, c], t);
    if Perform(a, t).Some? {
      PerformTwo(b, c, Perform(a, t).value);
    }
  }

  lemma PerformFour(a: Statement, b: Statement, c: Statement, d: Statement, t: Tables)
    ensures PerformAll([a, b, c, d], t) == Then(Then(Then(Perform(a, t), b), c), d)
  {
    assert [a, b, c, d] == [a] + [b, c, d];
    PerformMore(a, [b, c, d], t);
    if Perform(a, t).Some? {
      PerformThree(b, c, d, Perform(a, t).value);
    }
  }

  /** `faults` says which of the operations on the connection fail; `failures` counts those that did. */
  class Connection {
    const faults: nat -> bool
    var tables: Tables
    var working: Tables
    var inTransaction: bool
    var operations: nat
    var failures: nat

    constructor (tables: Tables, faults: nat -> bool)
      ensures this.tables == tables && this.faults == faults && !inTransaction && failures == 0
    {
      this.tables, this.faults := tables, faults;
      working, inTransaction, operations, failures := tables, false, 0, 0;
    }

    method Attempt() returns (ok: bool)
      modifies this`operations, this`failures
      ensures failures == old(failures) + if ok then 0 else 1
    {
      ok := !faults(operations);
      operations := operations + 1;
      if !ok {
        failures := failures + 1;
      }
    }

    method Begin() returns (ok: bool)
      requires !inTransaction
      modifies this
      ensures tables == old(tables) && inTransaction == ok && (ok ==> working == tables)
      ensures failures == old(failures) + if ok then 0 else 1
    {
      ok := Attempt();
      if ok {
        inTransaction, working := true, tables;
      }
    }

    /** Prepare and run; the number of changed rows is meaningful only on success. */
    method Run(st: Statement) returns (ok: bool, rows: nat)
      requires inTransaction
      modifies this
      ensures tables == old(tables) && inTransaction && failures >= old(failures)
      ensures ok ==> Execute(st, old(working)).Changed? && working == Execute(st, old(working)).tables
      ensures ok ==> rows == Execute(st, old(working)).rows
      ensures !ok ==> failures > old(failures) || Execute(st, old(working)).Refused?
    {
      rows := 0;
      ok := Attempt();
      if !ok {
        return;
      }
      ok := Attempt();
      if !ok {
        return;
      }
      var outcome := Execute(st, working);
      ok := outcome.Changed?;
      if ok {
        working, rows := outcome.tables, outcome.rows;
      }
    }

    /** A failed commit leaves the transaction open. */
    method Commit() returns (ok: bool)
      requires inTransaction
      modifies this
      ensures tables == (if ok then old(working) else old(tables)) && inTransaction == !ok
      ensures failures == old(failures) + if ok then 0 else 1
    {
      ok := Attempt();
      if ok {
        tables, inTransaction := working, false;
      }
    }

    method Rollback()
      modifies this`working, this`inTransaction
      ensures !inTransaction
    {
      working, inTransaction := tables, false;
    }
  }
}
