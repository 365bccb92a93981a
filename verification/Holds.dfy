/** A hold is honoured: until it ends nobody else gets the seat, and its user gets it at the price seen. */
module Holds {
  import opened Wrappers
  import opened Idempotency
  import Desks = TripDesk
  import DI = DeskInvariants
  import Selling
  import Sums
  import Cancelling
  import opened Backend
  import opened BackendInvariants
  import BackendProofs
  import PostingProofs
  import opened Runs
  import opened Orders

  /** The seat is held by this user, at least until this time. */
  predicate HeldFor(d: Desks.Desk, seat: nat, user: nat, until: int) {
    && seat < |d.seats| && d.seats[seat].status.Held?
    && d.seats[seat].status.holder == user && d.seats[seat].status.until >= until
  }

  /** A request by which the user gives the seat up or takes it. */
  predicate Ends(r: Request, user: nat, seat: nat) {
    match r
    case ReleaseSeat(who, which) => who == user && which == seat
    case PlaceOrder(order) => order.user == user && seat in order.seats
    case _ => false
  }

  predicate CancelsTrip(r: Request, trip: nat) { r.DropTrip? && r.trip == trip }

  // ---------------------------------------------------------------- one request

  lemma SeatRequestKeepsHold(db: Db, r: Request, now: int, seat: nat, user: nat, until: int)
    requires HeldFor(db.desk, seat, user, until) && now <= until <= now + Desks.HOLD_MS
    requires WellFormed(r) && BackendProofs.SeatRequest(r) && !Ends(r, user, seat)
    ensures HeldFor(Apply(db, r, now).desk, seat, user, until)
  {}

  lemma OrderKeepsHold(db: Db, o: Order, now: int, seat: nat, user: nat, until: int)
    requires HeldFor(db.desk, seat, user, until) && OrderFault(db, o, now).None? && !(o.user == user && seat in o.seats)
    ensures HeldFor(Sold(db, o, now).desk, seat, user, until)
  {
    Selling.SoldSeatsAre(db.desk, o.seats, |o.seats|);
    assert o.seats[..|o.seats|] == o.seats;
    forall k | 0 <= k < |o.seats| ensures o.seats[k] != seat {
      assert Desks.Claimable(db.desk.seats[o.seats[k]], o.user, now);
    }
  }

  lemma CancellationKeepsHold(db: Db, r: Request, now: int, seat: nat, user: nat, until: int)
    requires DI.SeatLinks(db.desk) && HeldFor(db.desk, seat, user, until) && (r.DropBooking? || r.DropTrip?)
    ensures var e := Apply(db, r, now).desk;
      HeldFor(e, seat, user, until)
      || (CancelsTrip(r, db.desk.seats[seat].trip) && seat < |e.seats| && e.seats[seat].status == Desks.Blocked)
  {
    if r.DropBooking? && Desks.CancelBooking(db.desk, r.booking).Success? { Cancelling.FreedSeats(db.desk, r.booking, seat); }
  }

  /** While the hold runs, no request of anybody else takes the seat or puts it back on sale; only the
      cancellation of its trip ends the hold. */
  lemma RequestKeepsHold(db: Db, r: Request, now: int, seat: nat, user: nat, until: int)
    requires DbInv(db) && HeldFor(db.desk, seat, user, until)
    requires now <= until <= now + Desks.HOLD_MS && !Ends(r, user, seat)
    ensures var e := Apply(db, r, now).desk;
      HeldFor(e, seat, user, until)
      || (CancelsTrip(r, db.desk.seats[seat].trip) && seat < |e.seats| && e.seats[seat].status == Desks.Blocked)
  {
    if WellFormed(r) {
      if BackendProofs.SeatRequest(r) {
        SeatRequestKeepsHold(db, r, now, seat, user, until);
      } else if r.PlaceOrder? {
        if OrderFault(db, r.order, now).None? { OrderKeepsHold(db, r.order, now, seat, user, until); }
      } else if r.DropBooking? || r.DropTrip? {
        CancellationKeepsHold(db, r, now, seat, user, until);
      } else {
        OtherRequestsMoveNoSeat(db, r, now);
      }
    }
  }

  // ---------------------------------------------------------------- a whole run

  /** Every step falls within the hold, and its user neither releases nor orders the seat. */
  predicate During(steps: seq<Step>, seat: nat, user: nat, until: int) {
    forall i :: 0 <= i < |steps| ==>
      steps[i].now <= until <= steps[i].now + Desks.HOLD_MS && !Ends(steps[i].request, user, seat)
  }

  predicate TripCancelled(steps: seq<Step>, trip: nat) {
    exists i :: 0 <= i < |steps| && CancelsTrip(steps[i].request, trip)
  }

  /** The seat is still held, or it is blocked because its trip was cancelled. */
  predicate Honoured(db: Db, steps: seq<Step>, seat: nat, user: nat, until: int)
    requires seat < |db.desk.seats|
  {
    HeldFor(Run(db, steps).desk, seat, user, until)
    || (TripCancelled(steps, db.desk.seats[seat].trip)
        && seat < |Run(db, steps).desk.seats| && Run(db, steps).desk.seats[seat].status == Desks.Blocked)
  }

  lemma {:induction false} SeatStaysOnTrip(db: Db, steps: seq<Step>, seat: nat)
    requires DbInv(db) && seat < |db.desk.seats|
    ensures seat < |Run(db, steps).desk.seats| && Run(db, steps).desk.seats[seat].trip == db.desk.seats[seat].trip
  {
    if steps != [] {
      var before, last := steps[..|steps| - 1], steps[|steps| - 1];
      SeatStaysOnTrip(db, before, seat);
      RunKeeps(db, before);
      RequestMovesSeats(Run(db, before), last.request, last.now);
      assert SeatMoves(Run(db, before).desk.seats[seat], Run(db, steps).desk.seats[seat]);
    }
  }

  lemma {:induction false} HoldKept(db: Db, steps: seq<Step>, seat: nat, user: nat, until: int)
    requires DbInv(db) && HeldFor(db.desk, seat, user, until) && During(steps, seat, user, until)
    ensures Honoured(db, steps, seat, user, until) && NeverOnSale(db, steps, seat)
  {
    hide DbInv, Grows, Apply;
    if steps != [] {
      var before, last := steps[..|steps| - 1], steps[|steps| - 1];
      HoldKept(db, before, seat, user, until);
      RunKeeps(db, before);
      SeatStaysOnTrip(db, before, seat);
      if HeldFor(Run(db, before).desk, seat, user, until) {
        RequestKeepsHold(Run(db, before), last.request, last.now, seat, user, until);
        assert CancelsTrip(steps[|steps| - 1].request, db.desk.seats[seat].trip) ==> TripCancelled(steps, db.desk.seats[seat].trip);
      } else {
        var i :| 0 <= i < |before| && CancelsTrip(before[i].request, db.desk.seats[seat].trip);
        assert CancelsTrip(steps[i].request, db.desk.seats[seat].trip);
        RequestMovesSeats(Run(db, before), last.request, last.now);
        assert SeatMoves(Run(db, before).desk.seats[seat], Run(db, steps).desk.seats[seat]);
      }
    }
  }

  // ---------------------------------------------------------------- from a hold to its order

  /** A run of requests within ten minutes of a hold, in which its user neither releases nor orders the seat. */
  predicate Following(steps: seq<Step>, seat: nat, user: nat, held: int) {
    forall i :: 0 <= i < |steps| ==> held <= steps[i].now <= held + Desks.HOLD_MS && !Ends(steps[i].request, user, seat)
  }

  function AfterHold(db: Db, user: nat, trip: nat, seat: nat, held: int): Db { Apply(db, HoldSeat(user, trip, seat), held) }

  lemma HoldTaken(db: Db, user: nat, trip: nat, seat: nat, held: int)
    requires DbInv(db) && Desks.Hold(db.desk, user, trip, seat, held).Success?
    ensures var e := AfterHold(db, user, trip, seat, held);
      && DbInv(e) && HeldFor(e.desk, seat, user, held + Desks.HOLD_MS)
      && seat < |db.desk.seats| && e.desk.seats[seat].price == db.desk.seats[seat].price && e.desk.seats[seat].trip == trip
  {
    PostingProofs.RequestKeeps(db, HoldSeat(user, trip, seat), held);
  }

  /** For ten minutes after a hold the seat stays with its user unless the trip is cancelled: nobody
      else can hold or buy it at any time, and its user can still claim it. */
  lemma {:induction false} HoldExcludes(db: Db, user: nat, trip: nat, seat: nat, held: int, steps: seq<Step>, other: nat, now: int)
    requires DbInv(db) && Desks.Hold(db.desk, user, trip, seat, held).Success? && Following(steps, seat, user, held) && other != user
    ensures var f := Run(AfterHold(db, user, trip, seat, held), steps).desk;
      && seat < |f.seats| && f.seats[seat].trip == trip
      && !Desks.Claimable(f.seats[seat], other, now)
      && (!TripCancelled(steps, trip) && now <= held + Desks.HOLD_MS ==> Desks.Claimable(f.seats[seat], user, now))
  {
    var e := AfterHold(db, user, trip, seat, held);
    HoldTaken(db, user, trip, seat, held);
    HoldKept(e, steps, seat, user, held + Desks.HOLD_MS);
    SeatStaysOnTrip(e, steps, seat);
    RunKeeps(e, steps);
    assert DI.SeatOk(Run(e, steps).desk, Run(e, steps).desk.seats[seat], seat);
  }

  lemma SoldTicketIs(db: Db, o: Order, now: int, k: nat)
    requires k < |o.seats| && OrderFault(db, o, now).None?
    ensures var d, e := db.desk, Sold(db, o, now).desk;
      && o.seats[k] < |d.seats| && |e.seats| == |d.seats| && e.seats[o.seats[k]].ticket == Some(|d.tickets| + k)
      && |e.tickets| == |d.tickets| + |o.seats| && e.tickets[|d.tickets| + k] == Desks.NewTicket(d, o.seats[k])
  {
    Selling.SoldSeatsAre(db.desk, o.seats, |o.seats|);
  }

  /** A seat that is held and ordered by the same user within ten minutes, whatever price changes and
      other requests came in between, is sold to that user at the price it had when it was held. */
  lemma {:induction false} HeldPriceCharged(db: Db, user: nat, trip: nat, seat: nat, held: int, steps: seq<Step>, o: Order, now: int, k: nat)
    requires DbInv(db) && Desks.Hold(db.desk, user, trip, seat, held).Success? && Following(steps, seat, user, held)
    requires o.user == user && k < |o.seats| && o.seats[k] == seat && held <= now <= held + Desks.HOLD_MS
    requires OrderFault(Run(AfterHold(db, user, trip, seat, held), steps), o, now).None?
    ensures var f := Run(AfterHold(db, user, trip, seat, held), steps);
      && Sold(f, o, now).desk.seats[seat].ticket == Some(|f.desk.tickets| + k)
      && Sold(f, o, now).desk.tickets[|f.desk.tickets| + k].fare == db.desk.seats[seat].price
  {
    hide DbInv, Run, Sold, OrderFault, AfterHold;
    var e := AfterHold(db, user, trip, seat, held);
    HoldTaken(db, user, trip, seat, held);
    HoldKept(e, steps, seat, user, held + Desks.HOLD_MS);
    PriceFrozen(e, steps, seat);
    SoldTicketIs(Run(e, steps), o, now, k);
  }

  lemma OnePrice(d: Desks.Desk, seat: nat)
    requires seat < |d.seats|
    ensures Desks.PriceOf(d.seats, [seat]) == d.seats[seat].price
  {
    assert Sums.Total(1, Desks.PriceAt(d.seats, [seat])) == Sums.Total(0, Desks.PriceAt(d.seats, [seat])) + Desks.PriceAt(d.seats, [seat])(0);
  }

  /** An order for just the held seat, for no agent, is accepted exactly when the trip is still scheduled or
      open, and no booking has its key. */
  lemma {:induction false} HeldSeatIsSold(db: Db, user: nat, trip: nat, seat: nat, held: int, steps: seq<Step>, key: Key, now: int)
    requires DbInv(db) && Desks.Hold(db.desk, user, trip, seat, held).Success? && Following(steps, seat, user, held)
    requires held <= now <= held + Desks.HOLD_MS && !TripCancelled(steps, trip)
    ensures var f := Run(AfterHold(db, user, trip, seat, held), steps);
      && trip < |f.desk.trips|
      && (OrderFault(f, Order(user, None, trip, [seat], None, key), now).None?
          <==> TakesBookings(f.desk, trip) && forall b :: 0 <= b < |f.desk.bookings| ==> f.desk.bookings[b].key != key)
  {
    var e := AfterHold(db, user, trip, seat, held);
    HoldTaken(db, user, trip, seat, held);
    HoldExcludes(db, user, trip, seat, held, steps, user + 1, now);
    RunKeeps(e, steps);
    SingleSeat(Run(e, steps), user, trip, seat, key, now);
  }

  lemma SingleSeat(f: Db, user: nat, trip: nat, seat: nat, key: Key, now: int)
    requires DI.References(f.desk) && DI.SeatLinks(f.desk)
    requires seat < |f.desk.seats| && f.desk.seats[seat].trip == trip && Desks.Claimable(f.desk.seats[seat], user, now)
    ensures trip < |f.desk.trips|
    ensures OrderFault(f, Order(user, None, trip, [seat], None, key), now).None?
      <==> TakesBookings(f.desk, trip) && forall b :: 0 <= b < |f.desk.bookings| ==> f.desk.bookings[b].key != key
  {
    OnePrice(f.desk, seat);
    Selling.KeySearch(f.desk.bookings, key, 0);
    assert DI.SeatOk(f.desk, f.desk.seats[seat], seat);
  }
}
