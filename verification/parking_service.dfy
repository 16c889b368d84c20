/**
 The parking service's entry and exit on real objects: the spots, the repository and its connection.  What the
 store describes by values and a flag for failure is what these methods do.
 */
module ParkingServices {
  import opened Outcomes
  import opened TimeUtil
  import opened ParkingSpots
  import opened ParkingDatabase
  import opened ParkingRepositories
  import opened ParkingStore

  /** The promise of a repository operation about the tables before and after; `held` if no operation on the
      connection failed. */
  ghost predicate Promised(before: Tables, after: Tables, ok: bool, allowed: bool, sts: seq<Statement>, held: bool) {
    && (ok ==> allowed && PerformAll(sts, before) == Some(after)) && (!ok ==> after == before)
    && (allowed && PerformAll(sts, before).Some? && held ==> ok)
  }

  /** It is what the store assumes: with a failure to blame for an operation that did not go through, and without
      one as soon as the connection held. */
  lemma PromisedIsStore(before: Tables, after: Tables, ok: bool, allowed: bool, sts: seq<Statement>, held: bool)
    requires Promised(before, after, ok, allowed, sts, held)
    ensures (after, ok) == Store(before, allowed, sts, !ok)
    ensures held ==> (after, ok) == Store(before, allowed, sts, false)
  {
  }

  /** An operation of the repository: whether it went through, whether it was allowed, and its statements if so. */
  datatype Saving = Saving(ok: bool, allowed: bool, sts: seq<Statement>)

  lemma OneChanged(before: map<string, Spot>, after: map<string, Spot>, id: string)
    requires id in after && after.Keys == before.Keys
    requires forall other :: other in before && other != id ==> after[other] == before[other]
    ensures after == before[id := after[id]]
  {
  }

  class ParkingService {
    const repository: ParkingRepository
    const spots: map<string, ParkingSpot>
    var active: map<string, ServiceRecord>

    ghost function SpotValues(): map<string, Spot>
      reads spots.Values
    {
      map id | id in spots :: spots[id].Value()
    }

    ghost function Model(): World
      reads this, spots.Values, repository.db
    {
      World(SpotValues(), active, repository.db.tables)
    }

    ghost predicate Valid()
      reads this, repository.db
    {
      && !repository.db.inTransaction
      && forall a, b :: a in spots && b in spots && a != b ==> spots[a] != spots[b]
    }

    constructor (repository: ParkingRepository, spots: map<string, ParkingSpot>)
      requires !repository.db.inTransaction
      requires forall a, b :: a in spots && b in spots && a != b ==> spots[a] != spots[b]
      ensures Valid() && this.repository == repository && this.spots == spots && active == map[]
    {
      this.repository, this.spots, active := repository, spots, map[];
    }

    /** Every operation of the repository, between the state before and after it, does what the store describes. */
    twostate lemma StoreFollows(saving: Saving)
      requires repository.AllOrNothing(saving.ok, saving.allowed, saving.sts)
      ensures (repository.db.tables, saving.ok) == Store(old(repository.db.tables), saving.allowed, saving.sts, !saving.ok)
      ensures repository.db.failures == old(repository.db.failures) ==>
                (repository.db.tables, saving.ok) == Store(old(repository.db.tables), saving.allowed, saving.sts, false)
    {
      PromisedIsStore(old(repository.db.tables), repository.db.tables, saving.ok, saving.allowed, saving.sts,
                      repository.db.failures == old(repository.db.failures));
    }

    /** Entry into the spot the allocation has chosen. */
    method Enter(id: string, vehicle: Vehicle, time: int) returns (ok: bool)
      requires Valid()
      modifies this, repository.db, spots.Values
      ensures Valid() && Model() == AfterEnter(old(Model()), id, vehicle, time, !ok)
      ensures repository.db.failures == old(repository.db.failures) ==>
                Model() == AfterEnter(old(Model()), id, vehicle, time, false)
    {
      if ToMilliseconds(time).None? || vehicle.plate == "" || vehicle.plate in active || id !in spots {
        return false;
      }
      ghost var w := Model();
      hide Store, EntryAllowed, Storable;
      ok := spots[id].Occupy(vehicle);
      if ok {
        OneChanged(w.spots, SpotValues(), id);
        ok := StoreEntry(id, vehicle, time, w);
      }
    }

    /** The spot is taken in memory: record the stay, store both, and undo both if that fails. */
    method StoreEntry(id: string, vehicle: Vehicle, time: int, ghost w: World) returns (ok: bool)
      requires Valid() && id in spots && id in w.spots && w.active == active && w.tables == repository.db.tables
      requires ToMilliseconds(time).Some? && vehicle.plate != "" && vehicle.plate !in active && CanOccupy(w.spots[id], vehicle)
      requires SpotValues() == w.spots[id := OccupiedBy(w.spots[id], vehicle)]
      modifies this, repository.db, spots.Values
      ensures Valid() && Model() == AfterEnter(w, id, vehicle, time, !ok)
      ensures repository.db.failures == old(repository.db.failures) ==> Model() == AfterEnter(w, id, vehicle, time, false)
    {
      var spot, record := spots[id], NewRecordFor(id, vehicle, time);
      ghost var taken := spot.Value();
      assert taken == SpotValues()[id] == OccupiedBy(w.spots[id], vehicle);
      hide PerformAll, RowOf, NewRecord, EntryStatements, EntryAllowed, Storable, CanOccupy;
      active := active[vehicle.plate := record];
      label saving:
      ok := repository.SaveEntry(record, spot.Value());
      ghost var allowed := EntryAllowed(record, taken) && Storable(taken);
      StoreFollows@saving(Saving(ok, allowed, if allowed then EntryStatements(record, taken) else []));
      if !ok {
        TakeBack(id, vehicle.plate, w);
      }
    }

    method TakeBack(id: string, plate: string, ghost w: World)
      requires Valid() && id in spots && id in w.spots && spots[id].status == Occupied
      requires SpotValues() == w.spots[id := spots[id].Value()] && plate in active && active - {plate} == w.active
      modifies this, spots.Values
      ensures Valid() && active == w.active && SpotValues() == w.spots[id := Cleared(old(spots[id].Value()))]
    {
      active := active - {plate};
      var _ := spots[id].Release();
      OneChanged(w.spots, SpotValues(), id);
    }

    /** Exit of a parked vehicle for a fee already settled. */
    method Leave(plate: string, time: int, fee: real) returns (ok: bool)
      requires Valid()
      modifies this, repository.db, spots.Values
      ensures Valid() && Model() == AfterLeave(old(Model()), plate, time, fee, !ok)
      ensures repository.db.failures == old(repository.db.failures) ==>
                Model() == AfterLeave(old(Model()), plate, time, fee, false)
    {
      if plate !in active || active[plate].spot !in spots || spots[active[plate].spot].status != Occupied {
        return false;
      }
      var record := active[plate];
      var spot := spots[record.spot];
      ghost var values := SpotValues();
      label saving:
      ok := repository.SaveExit(record, time, fee);
      ghost var allowed := ExitAllowed(record, time, fee);
      StoreFollows@saving(Saving(ok, allowed, if allowed then ExitStatements(record, time, fee) else []));
      if ok {
        var _ := spot.Release();
        active := active - {plate};
        OneChanged(values, SpotValues(), record.spot);
      }
    }
  }
}
