/** The states of a period reservation.  Orders only move forward, and a finished order stays finished. */
module ReservationStates {
  import opened Outcomes

  datatype Status = PendingPayment | Confirmed | CheckedIn | Completed | Cancelled | NoShow | Expired

  datatype Operation = CheckIn | Complete | Cancel | MarkNoShow | Expire

  predicate IsOpen(s: Status) {
    s == PendingPayment || s == Confirmed || s == CheckedIn
  }

  function After(s: Status, op: Operation): Option<Status> {
    match op
    case CheckIn => if s == Confirmed then Some(CheckedIn) else None
    case Complete => if s == CheckedIn then Some(Completed) else None
    case Cancel => if s == Confirmed || s == PendingPayment then Some(Cancelled) else None
    case MarkNoShow => if s == Confirmed then Some(NoShow) else None
    case Expire => if s == PendingPayment then Some(Expired) else None
  }

  class Reservation {
    var status: Status

    constructor (status: Status)
      ensures this.status == status
    {
      this.status := status;
    }

    /** Each operation either makes its one transition or changes nothing. */
    method Perform(op: Operation) returns (ok: bool)
      modifies this
      ensures ok <==> After(old(status), op).Some?
      ensures status == if ok then After(old(status), op).value else old(status)
    {
      match op {
        case CheckIn => ok := CheckInNow();
        case Complete => ok := CompleteNow();
        case Cancel => ok := CancelNow();
        case MarkNoShow => ok := MarkNoShowNow();
        case Expire => ok := ExpireNow();
      }
    }

    method CheckInNow() returns (ok: bool)
      modifies this
      ensures ok <==> old(status) == Confirmed
      ensures status == if ok then CheckedIn else old(status)
    {
      if status != Confirmed {
        return false;
      }
      status := CheckedIn;
      ok := true;
    }

    method CompleteNow() returns (ok: bool)
      modifies this
      ensures ok <==> old(status) == CheckedIn
      ensures status == if ok then Completed else old(status)
    {
      if status != CheckedIn {
        return false;
      }
      status := Completed;
      ok := true;
    }

    method CancelNow() returns (ok: bool)
      modifies this
      ensures ok <==> old(status) == Confirmed || old(status) == PendingPayment
      ensures status == if ok then Cancelled else old(status)
    {
      if status != Confirmed && status != PendingPayment {
        return false;
      }
      status := Cancelled;
      ok := true;
    }

    method MarkNoShowNow() returns (ok: bool)
      modifies this
      ensures ok <==> old(status) == Confirmed
      ensures status == if ok then NoShow else old(status)
    {
      if status != Confirmed {
        return false;
      }
      status := NoShow;
      ok := true;
    }

    method ExpireNow() returns (ok: bool)
      modifies this
      ensures ok <==> old(status) == PendingPayment
      ensures status == if ok then Expired else old(status)
    {
      if status != PendingPayment {
        return false;
      }
      status := Expired;
      ok := true;
    }
  }

  function Run(s: Status, ops: seq<Operation>): Status
    decreases |ops|
  {
    if ops == [] then s
    else
      var next := After(s, ops[0]);
      Run(if next.Some? then next.value else s, ops[1..])
  }

  function Accepted(s: Status, ops: seq<Operation>): seq<Operation>
    decreases |ops|
  {
    if ops == [] then []
    else
      var next := After(s, ops[0]);
      if next.Some? then [ops[0]] + Accepted(next.value, ops[1..]) else Accepted(s, ops[1..])
  }

  lemma {:induction false} FinishedStays(s: Status, ops: seq<Operation>)
    requires !IsOpen(s)
    ensures Run(s, ops) == s && Accepted(s, ops) == []
    decreases |ops|
  {
    if ops != [] {
      FinishedStays(s, ops[1..]);
    }
  }

  lemma {:induction false} FromCheckedIn(ops: seq<Operation>)
    ensures Accepted(CheckedIn, ops) == [] || Accepted(CheckedIn, ops) == [Complete]
    decreases |ops|
  {
    if ops != [] {
      if ops[0] == Complete {
        FinishedStays(Completed, ops[1..]);
      } else {
        FromCheckedIn(ops[1..]);
      }
    }
  }

  /** From a confirmed order, whatever is tried in whatever order: arrival and perhaps departure, or one cancellation
      or no-show, or nothing. */
  lemma {:induction false} FromConfirmed(ops: seq<Operation>)
    ensures Accepted(Confirmed, ops) in {[], [CheckIn], [CheckIn, Complete], [Cancel], [MarkNoShow]}
    decreases |ops|
  {
    if ops != [] {
      match ops[0] {
        case CheckIn =>
          FromCheckedIn(ops[1..]);
          assert [CheckIn] + [] == [CheckIn] && [CheckIn] + [Complete] == [CheckIn, Complete];
        case Cancel =>
          FinishedStays(Cancelled, ops[1..]);
          assert [Cancel] + [] == [Cancel];
        case MarkNoShow =>
          FinishedStays(NoShow, ops[1..]);
          assert [MarkNoShow] + [] == [MarkNoShow];
        case _ => FromConfirmed(ops[1..]);
      }
    }
  }

  /** Before payment an order can only be cancelled or expire. */
  lemma {:induction false} FromPendingPayment(ops: seq<Operation>)
    ensures Accepted(PendingPayment, ops) in {[], [Cancel], [Expire]}
    decreases |ops|
  {
    if ops != [] {
      match ops[0] {
        case Cancel =>
          FinishedStays(Cancelled, ops[1..]);
          assert [Cancel] + [] == [Cancel];
        case Expire =>
          FinishedStays(Expired, ops[1..]);
          assert [Expire] + [] == [Expire];
        case _ => FromPendingPayment(ops[1..]);
      }
    }
  }

  /** What is accepted is what takes effect: alone it is accepted whole and leads to the same state. */
  lemma {:induction false} AcceptedSuffices(s: Status, ops: seq<Operation>)
    ensures Accepted(s, Accepted(s, ops)) == Accepted(s, ops) && Run(s, Accepted(s, ops)) == Run(s, ops)
    decreases |ops|
  {
    if ops != [] {
      var next := After(s, ops[0]);
      if next.Some? {
        AcceptedSuffices(next.value, ops[1..]);
        assert ([ops[0]] + Accepted(next.value, ops[1..]))[1..] == Accepted(next.value, ops[1..]);
      } else {
        AcceptedSuffices(s, ops[1..]);
      }
    }
  }

  /** Each of these ways can be gone, and ends where it should. */
  lemma EachWayEnds()
    ensures Accepted(Confirmed, [CheckIn, Complete]) == [CheckIn, Complete] && Run(Confirmed, [CheckIn, Complete]) == Completed
    ensures Accepted(Confirmed, [Cancel]) == [Cancel] && Run(Confirmed, [Cancel]) == Cancelled
    ensures Accepted(Confirmed, [MarkNoShow]) == [MarkNoShow] && Run(Confirmed, [MarkNoShow]) == NoShow
    ensures Accepted(PendingPayment, [Cancel]) == [Cancel] && Run(PendingPayment, [Cancel]) == Cancelled
    ensures Accepted(PendingPayment, [Expire]) == [Expire] && Run(PendingPayment, [Expire]) == Expired
  {
    assert [CheckIn, Complete][1..] == [Complete] && [Complete][1..] == [] && [CheckIn] + [Complete] == [CheckIn, Complete];
    assert [Cancel][1..] == [] && [MarkNoShow][1..] == [] && [Expire][1..] == [];
  }
}
