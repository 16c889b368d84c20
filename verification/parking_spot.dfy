/** A parking space and the state changes it allows. */
module ParkingSpots {
  import opened Outcomes

  datatype VehicleType = Car | Motorcycle | Truck | Electric

  datatype Vehicle = Vehicle(plate: string, vehicleType: VehicleType)

  datatype SpotStatus = Available | Occupied | Reserved | Disabled

  datatype Spot = Spot(id: string, status: SpotStatus, vehicle: Option<Vehicle>, expiry: Option<int>)

  /** What the operations keep: a vehicle exactly when occupied or reserved, an expiry exactly when reserved. */
  predicate WellFormed(s: Spot) {
    && (s.vehicle.Some? <==> s.status == Occupied || s.status == Reserved)
    && (s.expiry.Some? <==> s.status == Reserved)
    && (s.vehicle.Some? ==> s.vehicle.value.plate != "")
  }

  predicate CanOccupy(s: Spot, v: Vehicle) {
    || s.status == Available
    || (s.status == Reserved && s.vehicle.Some? && s.vehicle.value.plate == v.plate)
  }

  function OccupiedBy(s: Spot, v: Vehicle): Spot {
    s.(status := Occupied, vehicle := Some(v), expiry := None)
  }

  function ReservedFor(s: Spot, v: Vehicle, until: int): Spot {
    s.(status := Reserved, vehicle := Some(v), expiry := Some(until))
  }

  function Cleared(s: Spot): Spot {
    s.(status := Available, vehicle := None, expiry := None)
  }

  class ParkingSpot {
    const identifier: string
    var status: SpotStatus
    var parkedVehicle: Option<Vehicle>
    var reservationExpiresAt: Option<int>

    function Value(): Spot
      reads this
    {
      Spot(identifier, status, parkedVehicle, reservationExpiresAt)
    }

    constructor (identifier: string)
      ensures Value() == Spot(identifier, Available, None, None) && WellFormed(Value())
    {
      this.identifier, status, parkedVehicle, reservationExpiresAt := identifier, Available, None, None;
    }

    method Occupy(vehicle: Vehicle) returns (ok: bool)
      modifies this
      ensures ok <==> CanOccupy(old(Value()), vehicle)
      ensures Value() == if ok then OccupiedBy(old(Value()), vehicle) else old(Value())
      ensures old(WellFormed(Value())) && vehicle.plate != "" ==> WellFormed(Value())
    {
      if status == Reserved {
        if parkedVehicle.None? || parkedVehicle.value.plate != vehicle.plate {
          return false;
        }
      } else if status != Available {
        return false;
      }
      parkedVehicle := Some(vehicle);
      reservationExpiresAt := None;
      status := Occupied;
      ok := true;
    }

    method Reserve(vehicle: Vehicle, expiresAt: int) returns (ok: bool)
      modifies this
      ensures ok <==> old(status) == Available
      ensures Value() == if ok then ReservedFor(old(Value()), vehicle, expiresAt) else old(Value())
      ensures old(WellFormed(Value())) && vehicle.plate != "" ==> WellFormed(Value())
    {
      if status != Available {
        return false;
      }
      parkedVehicle := Some(vehicle);
      reservationExpiresAt := Some(expiresAt);
      status := Reserved;
      ok := true;
    }

    method ClearOccupancy()
      modifies this
      ensures Value() == Cleared(old(Value()))
    {
      parkedVehicle, reservationExpiresAt, status := None, None, Available;
    }

    method ExpireReservation(now: int) returns (ok: bool)
      modifies this
      ensures ok <==> old(status) == Reserved && old(reservationExpiresAt).Some? && now >= old(reservationExpiresAt).value
      ensures Value() == if ok then Cleared(old(Value())) else old(Value())
      ensures old(WellFormed(Value())) ==> WellFormed(Value())
    {
      if status != Reserved || reservationExpiresAt.None? || now < reservationExpiresAt.value {
        return false;
      }
      ClearOccupancy();
      ok := true;
    }

    method Release() returns (ok: bool)
      modifies this
      ensures ok <==> old(status) == Occupied || old(status) == Reserved
      ensures Value() == if ok then Cleared(old(Value())) else old(Value())
      ensures old(WellFormed(Value())) ==> WellFormed(Value())
    {
      if status != Occupied && status != Reserved {
        return false;
      }
      ClearOccupancy();
      ok := true;
    }

    method Disable() returns (ok: bool)
      modifies this
      ensures ok <==> old(status) == Available
      ensures Value() == if ok then old(Value()).(status := Disabled) else old(Value())
      ensures old(WellFormed(Value())) ==> WellFormed(Value())
    {
      if status != Available {
        return false;
      }
      status := Disabled;
      ok := true;
    }
  }
}
