/** Generating and locking the manifest of a trip. */
module ManifestsService {
  import opened Wrappers
  import Desks = TripDesk
  import opened Backend
  import opened BackendInvariants
  import PostingProofs
  import opened Database

  class Manifests {
    const db: Tables

    constructor (db: Tables)
      ensures this.db == db
    {
      this.db := db;
    }

    method Generate(trip: nat, now: int) returns (r: Result<nat>)
      requires db.Valid()
      modifies db
      ensures db.Valid() && Serves(old(db.State()), MakeManifest(trip), now, db.State(), r)
    {
      hide DbInv, Grows;
      PostingProofs.RequestKeeps(db.State(), MakeManifest(trip), now);
      if trip >= |db.trips| { return Failure(NotFound); }
      if db.trips[trip].manifest == Desks.Missing { db.trips := db.trips[trip := db.trips[trip].(manifest := Desks.Generated)]; }
      return Success(trip);
    }

    /** Locking the manifest is the departure of the trip. */
    method Lock(trip: nat, now: int) returns (r: Result<nat>)
      requires db.Valid()
      modifies db
      ensures db.Valid() && Serves(old(db.State()), LockTripManifest(trip), now, db.State(), r)
    {
      hide DbInv, Grows;
      PostingProofs.RequestKeeps(db.State(), LockTripManifest(trip), now);
      r := Depart(trip);
    }

    method Depart(trip: nat) returns (r: Result<nat>)
      modifies db`trips
      ensures match Desks.LockManifest(old(db.Desk()), trip)
        case Failure(error) => r == Failure(error) && db.trips == old(db.trips)
        case Success(desk) => r == Success(trip) && db.Desk() == desk
    {
      if trip >= |db.trips| || db.trips[trip].manifest == Desks.Missing { return Failure(NotFound); }
      if db.trips[trip].manifest == Desks.Locked { return Failure(Conflict); }
      if db.trips[trip].status in {Desks.Cancelled, Desks.Completed, Desks.Departed} { return Failure(Conflict); }
      db.trips := db.trips[trip := db.trips[trip].(manifest := Desks.Locked)];
      db.trips := db.trips[trip := db.trips[trip].(status := Desks.Departed)];
      return Success(trip);
    }
  }
}
