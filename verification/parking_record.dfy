/** One stay of a vehicle: open until it is closed, once, at or after its entry and for a fee that is not negative. */
module ParkingRecords {
  import opened Outcomes

  datatype Record = Record(plate: string, spotId: string, entry: int, exit: Option<int>, fee: real)

  function Close(record: Record, time: int, fee: real): Record {
    if record.exit.Some? || time < record.entry || fee < 0.0 then record
    else record.(exit := Some(time), fee := fee)
  }

  class ParkingRecord {
    const plate: string
    const spotId: string
    const entryTime: int
    var exitTime: Option<int>
    var fee: real

    function Value(): Record
      reads this
    {
      Record(plate, spotId, entryTime, exitTime, fee)
    }

    constructor (plate: string, spotId: string, entryTime: int)
      ensures Value() == Record(plate, spotId, entryTime, None, 0.0)
    {
      this.plate, this.spotId, this.entryTime, exitTime, fee := plate, spotId, entryTime, None, 0.0;
    }

    method CloseRecord(time: int, recordFee: real) returns (ok: bool)
      modifies this
      ensures ok <==> old(exitTime).None? && time >= entryTime && recordFee >= 0.0
      ensures Value() == Close(old(Value()), time, recordFee)
      ensures ok ==> exitTime == Some(time) && fee == recordFee
    {
      if exitTime.Some? || time < entryTime || recordFee < 0.0 {
        return false;
      }
      exitTime, fee := Some(time), recordFee;
      ok := true;
    }
  }

  function CloseAll(record: Record, attempts: seq<(int, real)>): Record
    decreases |attempts|
  {
    if attempts == [] then record else CloseAll(Close(record, attempts[0].0, attempts[0].1), attempts[1..])
  }

  /** Of any attempts to close a record the first acceptable one decides, and no later one changes it. */
  lemma {:induction false} FirstCloseDecides(record: Record, attempts: seq<(int, real)>, k: nat)
    requires record.exit.None? && k < |attempts|
    requires attempts[k].0 >= record.entry && attempts[k].1 >= 0.0
    requires forall i :: 0 <= i < k ==> attempts[i].0 < record.entry || attempts[i].1 < 0.0
    ensures CloseAll(record, attempts) == record.(exit := Some(attempts[k].0), fee := attempts[k].1)
    decreases |attempts|
  {
    if k == 0 {
      StaysClosed(Close(record, attempts[0].0, attempts[0].1), attempts[1..]);
    } else {
      FirstCloseDecides(record, attempts[1..], k - 1);
    }
  }

  lemma {:induction false} StaysClosed(record: Record, attempts: seq<(int, real)>)
    requires record.exit.Some?
    ensures CloseAll(record, attempts) == record
    decreases |attempts|
  {
    if attempts != [] {
      StaysClosed(record, attempts[1..]);
    }
  }
}
