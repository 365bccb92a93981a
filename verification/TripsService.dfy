/** Creating, viewing, editing and cancelling trips, statement by statement. */
module TripsService {
  import opened Wrappers
  import opened Idempotency
  import Cancelling
  import Desks = TripDesk
  import Agencies = Settlements
  import opened Backend
  import opened BackendInvariants
  import PostingProofs
  import opened Database
  import opened Refunding

  lemma {:induction false} RefundsInTwoParts(events: seq<Event>, first: nat, middle: nat, last: nat, now: int)
    requires first <= middle <= last
    ensures EnqueueRefunds(EnqueueRefunds(events, first, middle, now), middle, last, now) == EnqueueRefunds(events, first, last, now)
    decreases last - middle
  {
    if middle < last { RefundsInTwoParts(events, first, middle, last - 1, now); }
  }

  class Trips {
    const db: Tables

    constructor (db: Tables)
      ensures this.db == db
    {
      this.db := db;
    }

    /** A new trip with a seat for each seat of the template. */
    method Create(template: seq<Desks.TemplateSeat>, price: nat, status: Desks.TripStatus, now: int) returns (r: Result<nat>)
      requires db.Valid() && WellFormed(CreateTrip(template, price, status))
      modifies db
      ensures db.Valid() && Serves(old(db.State()), CreateTrip(template, price, status), now, db.State(), r)
      ensures r == Success(|old(db.trips)|)
    {
      hide DbInv, Grows;
      PostingProofs.RequestKeeps(db.State(), CreateTrip(template, price, status), now);
      var trip := |db.trips|;
      db.trips := db.trips + [Desks.Trip(status, Desks.Missing)];
      db.seats := db.seats + Desks.CopySeats(template, trip, price);
      return Success(trip);
    }

    /** The seats of a trip, after seats that an old trip lacks were added and holds that have run
        out were dropped. */
    method Seats(trip: nat, template: seq<Desks.TemplateSeat>, now: int) returns (r: Result<seq<Desks.Seat>>)
      requires db.Valid() && WellFormed(ViewTripSeats(trip, template))
      modifies db
      ensures db.Valid() && Serves(old(db.State()), ViewTripSeats(trip, template), now, db.State(), r)
      ensures r.Success? ==> r.value == db.seats
    {
      hide DbInv, Grows;
      PostingProofs.RequestKeeps(db.State(), ViewTripSeats(trip, template), now);
      if trip >= |db.trips| { return Failure(NotFound); }
      var missing := Desks.MissingSeats(db.seats, trip, template);
      var fallback := Desks.FirstPrice(db.seats, trip, 0);
      if missing != [] && fallback.Some? { db.seats := db.seats + Desks.CopySeats(missing, trip, fallback.value); }
      assert db.Desk() == Desks.Repair(old(db.Desk()), trip, template);
      db.seats := Desks.ExpireHolds(db.Desk(), trip, now).seats;
      return Success(db.seats);
    }

    /** A new price for the seats on sale, and a new status other than CANCELLED. */
    method Update(trip: nat, price: Option<nat>, status: Option<Desks.TripStatus>, now: int) returns (r: Result<nat>)
      requires db.Valid() && WellFormed(EditTrip(trip, price, status))
      modifies db
      ensures db.Valid() && Serves(old(db.State()), EditTrip(trip, price, status), now, db.State(), r)
    {
      hide DbInv, Grows;
      PostingProofs.RequestKeeps(db.State(), EditTrip(trip, price, status), now);
      if status == Some(Desks.Cancelled) { return Failure(BadRequest); }
      if trip >= |db.trips| { return Failure(NotFound); }
      if price.Some? {
        db.seats := seq(|db.seats|, i requires 0 <= i < |db.seats| reads db =>
          if db.seats[i].trip == trip && db.seats[i].status.Available? then db.seats[i].(price := price.value) else db.seats[i]);
      }
      if status.Some? { db.trips := db.trips[trip := db.trips[trip].(status := status.value)]; }
      assert db.Desk() == Desks.Edit(old(db.Desk()), trip, price, status);
      return Success(trip);
    }

    // -------------------------------------------------------------- cancelling

    /** Refunds and ends the live bookings of a trip one after another. */
    method EndBookings(trip: nat, now: int)
      modifies db`payments, db`refunds, db`events, db`bookings, db`tickets, db`commissions
      ensures db.Desk() == Desks.VoidTrip(old(db.Desk()), trip, |old(db.bookings)|)
      ensures db.commissions == ReverseTrip(old(db.commissions), old(db.bookings), trip, |old(db.bookings)|)
      ensures db.events == RefundEvents(old(db.events), |old(db.refunds)|, |db.refunds|, now)
    {
      ghost var before, commissions, events := db.Desk(), db.commissions, db.events;
      var n := |db.bookings|;
      for b := 0 to n
        invariant |db.bookings| == n == |before.bookings|
        invariant db.Desk() == Desks.VoidTrip(before, trip, b)
        invariant db.commissions == ReverseTrip(commissions, before.bookings, trip, b)
        invariant |before.refunds| <= |db.refunds| && db.events == EnqueueRefunds(events, |before.refunds|, |db.refunds|, now)
      {
        Cancelling.LaterBookingUntouched(before, trip, b);
        if db.bookings[b].trip == trip && Desks.Live(db.bookings[b]) {
          EndOne(b, now);
          RefundsInTwoParts(events, |before.refunds|, |Desks.VoidTrip(before, trip, b).refunds|, |db.refunds|, now);
        }
      }
    }

    method EndOne(booking: nat, now: int)
      requires booking < |db.bookings|
      modifies db`payments, db`refunds, db`events, db`bookings, db`tickets, db`commissions
      ensures db.Desk() == Desks.Void(old(db.Desk()), booking)
      ensures db.commissions == Agencies.Reverse(old(db.commissions), booking)
      ensures |old(db.refunds)| <= |db.refunds| && db.events == EnqueueRefunds(old(db.events), |old(db.refunds)|, |db.refunds|, now)
    {
      ghost var before := db.Desk();
      var refunded := RefundPayments(db, booking, now);
      EndedIsVoid(before, booking, refunded > 0);
      EndBooking(db, booking, refunded > 0);
    }

    method Cancel(trip: nat, reason: string, key: Key, now: int) returns (r: Result<nat>)
      requires db.Valid()
      modifies db
      ensures db.Valid() && Serves(old(db.State()), DropTrip(trip, reason, key), now, db.State(), r)
      ensures r.Success? ==> r.value == trip
    {
      hide DbInv, Grows;
      var saved := db.State();
      PostingProofs.RequestKeeps(saved, DropTrip(trip, reason, key), now);
      r := CancelUnder(trip, reason, key, now);
      if r.Failure? { db.Rollback(saved); }
    }

    method CancelUnder(trip: nat, reason: string, key: Key, now: int) returns (r: Result<nat>)
      modifies db
      ensures match CancelTrip(old(db.State()), trip, reason, key, now)
        case Failure(error) => r == Failure(error)
        case Success(pair) => r == Success(pair.1) && db.State() == pair.0
    {
      var replay :- db.BeginOperation(CancelTrips, key, TripCancelled(trip, reason), now);
      if replay.Some? { return if trip < |db.trips| then Success(trip) else Failure(Conflict); }
      r := CancelFresh(trip, key, now);
    }

    method CancelFresh(trip: nat, key: Key, now: int) returns (r: Result<nat>)
      requires (CancelTrips, key) in db.records
      modifies db
      ensures match Desks.CancelTrip(old(db.Desk()), trip)
        case Failure(error) => r == Failure(error)
        case Success(desk) => r == Success(trip) && db.State() == TripEnded(old(db.State()), trip, desk, old(db.records), key, now)
    {
      ghost var before := db.State();
      if trip >= |db.trips| { return Failure(NotFound); }
      if db.trips[trip].status in {Desks.Cancelled, Desks.Completed} { return Failure(Conflict); }
      EndBookings(trip, now);
      db.seats := Desks.BlockSeats(db.seats, trip);
      db.trips := db.trips[trip := db.trips[trip].(status := Desks.Cancelled)];
      db.CompleteOperation(CancelTrips, key, trip);
      TripAssembled(before, trip, key, now, db.State());
      return Success(trip);
    }
  }

  function RefundEvents(events: seq<Event>, first: nat, last: nat, now: int): seq<Event> {
    if first <= last then EnqueueRefunds(events, first, last, now) else events
  }

  lemma TripAssembled(db: Db, trip: nat, key: Key, now: int, e: Db)
    requires Desks.CancelTrip(db.desk, trip).Success? && (CancelTrips, key) in db.records
    requires e.desk == Desks.VoidTrip(db.desk, trip, |db.desk.bookings|).(
      seats := Desks.BlockSeats(db.desk.seats, trip), trips := db.desk.trips[trip := db.desk.trips[trip].(status := Desks.Cancelled)])
    requires e == db.(desk := e.desk, events := RefundEvents(db.events, |db.desk.refunds|, |e.desk.refunds|, now),
      agency := db.agency.(commissions := ReverseTrip(db.agency.commissions, db.desk.bookings, trip, |db.desk.bookings|)),
      records := Complete(db.records, CancelTrips, key, trip))
    ensures e == TripEnded(db, trip, Desks.CancelTrip(db.desk, trip).value, db.records, key, now)
  {}
}
