/** What holds in every state that any run of requests reaches: seats, bookings and refunds. */
module Runs {
  import opened Wrappers
  import opened Sums
  import opened Idempotency
  import Selling
  import Cancelling
  import Desks = TripDesk
  import DI = DeskInvariants
  import Agencies = Settlements
  import Ledgers = GeneralLedger
  import opened Backend
  import opened BackendInvariants
  import BackendProofs
  import PostingProofs

  datatype Step = Step(request: Request, now: int)

  function Run(db: Db, steps: seq<Step>): Db {
    if steps == [] then db
    else Apply(Run(db, steps[..|steps| - 1]), steps[|steps| - 1].request, steps[|steps| - 1].now)
  }

  lemma RunOneMore(db: Db, steps: seq<Step>, request: Request, now: int)
    ensures Run(db, steps + [Step(request, now)]) == Apply(Run(db, steps), request, now)
  {
    assert (steps + [Step(request, now)])[..|steps|] == steps;
  }

  lemma {:induction false} RunKeeps(db: Db, steps: seq<Step>)
    requires DbInv(db)
    ensures DbInv(Run(db, steps)) && Grows(db, Run(db, steps))
  {
    if steps == [] {
      PostingProofs.SelfGrows(db);
    } else {
      var before, last := Run(db, steps[..|steps| - 1]), steps[|steps| - 1];
      RunKeeps(db, steps[..|steps| - 1]);
      PostingProofs.RequestKeeps(before, last.request, last.now);
      PostingProofs.GrowsFurther(db, before, Run(db, steps));
    }
  }

  lemma EmptyTables()
    ensures DI.DeskInv(EMPTY.desk) && Agencies.AgencyInv(EMPTY.agency, EMPTY.desk.tickets) && Ledgers.LedgerInv(EMPTY.ledger)
  {
    assert Ledgers.NetsAgree(EMPTY.ledger.entries);
  }

  lemma EmptyOutbox()
    ensures CommissionsFollow(EMPTY) && OutboxExact(EMPTY) && EventsOk(EMPTY) && RecordsOk(EMPTY)
  {
    forall kind: EventKind, row: nat ensures HasEvent(EMPTY.events, kind, row) <==> Owed(EMPTY, kind, row) {}
  }

  lemma EmptyInv()
    ensures DbInv(EMPTY)
  {
    hide DI.DeskInv, Agencies.AgencyInv, Ledgers.LedgerInv, OutboxExact;
    EmptyTables();
    EmptyOutbox();
  }

  /** Every state reached from the empty database satisfies the invariants. */
  lemma {:induction false} Reached(steps: seq<Step>)
    ensures DbInv(Run(EMPTY, steps))
  {
    EmptyInv();
    RunKeeps(EMPTY, steps);
  }

  // ---------------------------------------------------------------- no seat is sold twice

  /** In every reachable state a seat is BOOKED exactly when a ticket of a confirmed booking names
      it; there is only one such ticket, and it is the one the seat refers to. */
  lemma {:induction false} NoDoubleSale(steps: seq<Step>, seat: nat)
    requires seat < |Run(EMPTY, steps).desk.seats|
    ensures var d := Run(EMPTY, steps).desk;
      && (d.seats[seat].status == Desks.Booked <==> exists t: nat :: DI.Sells(d, t, seat))
      && (forall t: nat :: DI.Sells(d, t, seat) ==> d.seats[seat].ticket == Some(t))
      && (forall t: nat, u: nat :: DI.Sells(d, t, seat) && DI.Sells(d, u, seat) ==> t == u)
  {
    Reached(steps);
    var d := Run(EMPTY, steps).desk;
    assert DI.SeatOk(d, d.seats[seat], seat);
    if d.seats[seat].status == Desks.Booked { assert DI.Sells(d, d.seats[seat].ticket.value, seat); }
    forall t: nat | DI.Sells(d, t, seat) ensures d.seats[seat].ticket == Some(t) && d.seats[seat].status == Desks.Booked {
      assert DI.SoldTo(d, d.tickets[t], t);
    }
  }

  // ---------------------------------------------------------------- refunds

  /** A payment's refunded amount is the sum of its refunds and within the payment; a booking has
      ended REFUNDED exactly when money was returned, and nothing is returned while it lives. */
  lemma {:induction false} RefundsAddUp(steps: seq<Step>, b: nat)
    requires b < |Run(EMPTY, steps).desk.bookings|
    ensures var d := Run(EMPTY, steps).desk;
      && |d.payments| == |d.bookings| && d.payments[b].booking == b
      && d.payments[b].refunded == Total(|d.refunds|, DI.RefundAt(d.refunds, b)) <= d.payments[b].amount
      && (d.bookings[b].status == Desks.Refunded <==> d.payments[b].refunded > 0)
      && (d.bookings[b].status == Desks.Refunded <==> DI.HasRefund(d.refunds, b))
  {
    Reached(steps);
    RefundedBookings(Run(EMPTY, steps).desk, b);
  }

  lemma RefundedBookings(d: Desks.Desk, b: nat)
    requires DI.DeskInv(d) && b < |d.bookings|
    ensures d.bookings[b].status == Desks.Refunded <==> d.payments[b].refunded > 0
  {
    if DI.HasRefund(d.refunds, b) {
      var r :| 0 <= r < |d.refunds| && d.refunds[r].booking == b;
      TotalOne(|d.refunds|, DI.RefundAt(d.refunds, b), r);
    } else {
      TotalZero(|d.refunds|, DI.RefundAt(d.refunds, b));
    }
  }

  lemma RefundRowStays(d: Desks.Desk, e: Desks.Desk, p: nat)
    requires DI.References(d) && DI.RefundsAgree(d) && DI.References(e) && DI.RefundsAgree(e)
    requires d.refunds <= e.refunds && |d.payments| <= |e.payments| && p < |d.payments| && DI.HasRefund(d.refunds, p)
    ensures e.payments[p].refunded == d.payments[p].refunded
  {
    var r :| 0 <= r < |d.refunds| && d.refunds[r].booking == p;
    assert e.refunds[r] == d.refunds[r];
    TotalOne(|d.refunds|, DI.RefundAt(d.refunds, p), r);
    TotalOne(|e.refunds|, DI.RefundAt(e.refunds, p), r);
  }

  /** A payment is refunded at most once: what was refunded never changes again, whatever
      cancellations of the booking or of its trip follow. */
  lemma {:induction false} RefundedOnce(db: Db, steps: seq<Step>, p: nat)
    requires DbInv(db) && p < |db.desk.payments| && db.desk.payments[p].refunded > 0
    ensures var e := Run(db, steps);
      p < |e.desk.payments| && e.desk.payments[p].refunded == db.desk.payments[p].refunded
  {
    RunKeeps(db, steps);
    RefundedBookings(db.desk, p);
    RefundRowStays(db.desk, Run(db, steps).desk, p);
  }

  /** A booking that has ended is never changed again. */
  lemma {:induction false} EndedBookingsStay(db: Db, steps: seq<Step>, b: nat)
    requires DbInv(db) && b < |db.desk.bookings| && !Desks.Live(db.desk.bookings[b])
    ensures b < |Run(db, steps).desk.bookings| && Run(db, steps).desk.bookings[b] == db.desk.bookings[b]
  {
    RunKeeps(db, steps);
    assert BookingGrows(db.desk.bookings[b], Run(db, steps).desk.bookings[b]);
  }

  // ---------------------------------------------------------------- single seats over time

  /** What one request may do to a seat. */
  predicate SeatMoves(s: Desks.Seat, r: Desks.Seat) {
    && r.trip == s.trip && r.name == s.name && r.kind == s.kind
    && (s.status == Desks.Blocked ==> r.status == Desks.Blocked)
    && (s.status != Desks.Available ==> r.price == s.price)
  }

  predicate SeatsMove(d: Desks.Desk, e: Desks.Desk) {
    |d.seats| <= |e.seats| && forall i :: 0 <= i < |d.seats| ==> SeatMoves(d.seats[i], e.seats[i])
  }

  lemma CancelMovesSeats(d: Desks.Desk, booking: nat)
    requires DI.SeatLinks(d) && Desks.CancelBooking(d, booking).Success?
    ensures SeatsMove(d, Desks.CancelBooking(d, booking).value)
  {
    var e := Desks.CancelBooking(d, booking).value;
    forall i | 0 <= i < |d.seats| ensures SeatMoves(d.seats[i], e.seats[i]) { Cancelling.FreedSeats(d, booking, i); }
  }

  lemma SellMovesSeats(d: Desks.Desk, o: Order, agent: Option<nat>, now: int)
    requires Selling.MaySell(d, o.trip, o.seats, o.user, o.key, now)
    ensures SeatsMove(d, Desks.Sell(d, o.trip, o.seats, agent, o.key))
  {
    var e := Desks.Sell(d, o.trip, o.seats, agent, o.key);
    Selling.SoldSeatsAre(d, o.seats, |o.seats|);
    assert o.seats[..|o.seats|] == o.seats;
    forall i | 0 <= i < |d.seats| ensures SeatMoves(d.seats[i], e.seats[i]) {
      assert Desks.SameSeat(d.seats[i], e.seats[i]);
      if i in o.seats {
        var k :| 0 <= k < |o.seats| && o.seats[k] == i;
        assert Desks.Claimable(d.seats[o.seats[k]], o.user, now);
      }
    }
  }

  lemma SeatRequestMovesSeats(db: Db, r: Request, now: int)
    requires WellFormed(r) && BackendProofs.SeatRequest(r)
    ensures SeatsMove(db.desk, Apply(db, r, now).desk)
  {}

  lemma RequestMovesSeats(db: Db, r: Request, now: int)
    requires DbInv(db)
    ensures SeatsMove(db.desk, Apply(db, r, now).desk)
  {
    if WellFormed(r) {
      if BackendProofs.SeatRequest(r) {
        SeatRequestMovesSeats(db, r, now);
      } else if r.PlaceOrder? {
        OrderMovesSeats(db, r, now);
      } else if r.DropBooking? || r.DropTrip? {
        CancellationMovesSeats(db, r, now);
      } else {
        OtherRequestsMoveNoSeat(db, r, now);
      }
    }
  }

  lemma OrderMovesSeats(db: Db, r: Request, now: int)
    requires WellFormed(r) && r.PlaceOrder?
    ensures SeatsMove(db.desk, Apply(db, r, now).desk)
  {
    if OrderFault(db, r.order, now).None? { SellMovesSeats(db.desk, r.order, AgentFor(r.order), now); }
  }

  lemma CancellationMovesSeats(db: Db, r: Request, now: int)
    requires DI.SeatLinks(db.desk) && (r.DropBooking? || r.DropTrip?)
    ensures SeatsMove(db.desk, Apply(db, r, now).desk)
  {
    if r.DropBooking? && Desks.CancelBooking(db.desk, r.booking).Success? { CancelMovesSeats(db.desk, r.booking); }
  }

  /** No other request touches trips, seats, bookings, tickets, payments or refunds. */
  lemma OtherRequestsMoveNoSeat(db: Db, r: Request, now: int)
    requires !BackendProofs.SeatRequest(r) && !r.PlaceOrder? && !r.DropBooking? && !r.DropTrip?
    ensures Apply(db, r, now).desk == db.desk
  {}

  /** A blocked seat is never sold, held or freed again. */
  lemma {:induction false} BlockedForever(db: Db, steps: seq<Step>, seat: nat)
    requires DbInv(db) && seat < |db.desk.seats| && db.desk.seats[seat].status == Desks.Blocked
    ensures var e := Run(db, steps).desk;
      seat < |e.seats| && e.seats[seat].status == Desks.Blocked && e.seats[seat].trip == db.desk.seats[seat].trip
  {
    if steps != [] {
      var before, last := steps[..|steps| - 1], steps[|steps| - 1];
      BlockedForever(db, before, seat);
      RunKeeps(db, before);
      RequestMovesSeats(Run(db, before), last.request, last.now);
      assert SeatMoves(Run(db, before).desk.seats[seat], Run(db, steps).desk.seats[seat]);
    }
  }

  /** The trip is cancelled: all its bookings have ended and all its seats are blocked. */
  predicate TripOver(d: Desks.Desk, trip: nat) {
    && trip < |d.trips| && d.trips[trip].status == Desks.Cancelled
    && (forall i :: 0 <= i < |d.seats| && d.seats[i].trip == trip ==> d.seats[i].status == Desks.Blocked)
    && (forall b :: 0 <= b < |d.bookings| && d.bookings[b].trip == trip ==> !Desks.Live(d.bookings[b]))
  }

  lemma CancelledTripOver(d: Desks.Desk, trip: nat)
    requires Desks.CancelTrip(d, trip).Success?
    ensures var e := Desks.CancelTrip(d, trip).value;
      && TripOver(e, trip) && |e.seats| == |d.seats| && |e.bookings| == |d.bookings|
      && (forall i :: 0 <= i < |d.seats| ==> e.seats[i].trip == d.seats[i].trip)
      && (forall b :: 0 <= b < |d.bookings| ==> e.bookings[b].trip == d.bookings[b].trip)
  {
    Cancelling.VoidTripFrame(d, trip, |d.bookings|);
  }

  /** What was over stays over: every seat the trip had then is blocked in all later states, whatever
      status the trip is given, and while it stays CANCELLED it has no live booking. */
  lemma {:induction false} OverForGood(db: Db, trip: nat, steps: seq<Step>)
    requires DbInv(db) && TripOver(db.desk, trip)
    ensures var f := Run(db, steps).desk;
      && (forall i :: 0 <= i < |db.desk.seats| && db.desk.seats[i].trip == trip ==> i < |f.seats| && f.seats[i].status == Desks.Blocked)
      && (forall b :: 0 <= b < |db.desk.bookings| && db.desk.bookings[b].trip == trip ==> b < |f.bookings| && !Desks.Live(f.bookings[b]))
      && (trip < |f.trips| && f.trips[trip].status == Desks.Cancelled ==>
            forall b :: 0 <= b < |f.bookings| && f.bookings[b].trip == trip ==> !Desks.Live(f.bookings[b]))
  {
    hide Run;
    var f := Run(db, steps);
    RunKeeps(db, steps);
    forall i | 0 <= i < |db.desk.seats| && db.desk.seats[i].trip == trip ensures i < |f.desk.seats| && f.desk.seats[i].status == Desks.Blocked {
      BlockedForever(db, steps, i);
    }
    forall b | 0 <= b < |db.desk.bookings| && db.desk.bookings[b].trip == trip ensures b < |f.desk.bookings| && !Desks.Live(f.desk.bookings[b]) {
      EndedBookingsStay(db, steps, b);
    }
  }

  lemma CancelTripReaches(db: Db, trip: nat, reason: string, key: Key, now: int)
    requires CancelTrip(db, trip, reason, key, now).Success?
    requires Begin(db.records, CancelTrips, key, TripCancelled(trip, reason), now).value.Fresh?
    ensures Desks.CancelTrip(db.desk, trip) == Success(CancelTrip(db, trip, reason, key, now).value.0.desk)
  {}

  /** After a trip is cancelled, its bookings have ended and every seat it had stays blocked in
      all later states, whatever status the trip is given afterwards; as long as it stays
      CANCELLED it has no live booking. */
  lemma CancelledTripStays(db: Db, trip: nat, reason: string, key: Key, now: int, steps: seq<Step>)
    requires DbInv(db) && CancelTrip(db, trip, reason, key, now).Success?
    requires Begin(db.records, CancelTrips, key, TripCancelled(trip, reason), now).value.Fresh?
    ensures var f := Run(CancelTrip(db, trip, reason, key, now).value.0, steps).desk;
      && TripOver(CancelTrip(db, trip, reason, key, now).value.0.desk, trip)
      && (forall i :: 0 <= i < |db.desk.seats| && db.desk.seats[i].trip == trip ==> i < |f.seats| && f.seats[i].status == Desks.Blocked)
      && (forall b :: 0 <= b < |db.desk.bookings| && db.desk.bookings[b].trip == trip ==> b < |f.bookings| && !Desks.Live(f.bookings[b]))
      && (trip < |f.trips| && f.trips[trip].status == Desks.Cancelled ==>
            forall b :: 0 <= b < |f.bookings| && f.bookings[b].trip == trip ==> !Desks.Live(f.bookings[b]))
  {
    hide DbInv, Run, CancelTrip, Begin, Desks.CancelTrip, Desks.Live;
    CancelTripReaches(db, trip, reason, key, now);
    CancelledTripOver(db.desk, trip);
    TripCancellationKeeps(db, trip, reason, key, now);
    OverForGood(CancelTrip(db, trip, reason, key, now).value.0, trip, steps);
  }

  lemma TripCancellationKeeps(db: Db, trip: nat, reason: string, key: Key, now: int)
    requires DbInv(db) && CancelTrip(db, trip, reason, key, now).Success?
    ensures DbInv(CancelTrip(db, trip, reason, key, now).value.0)
  {
    PostingProofs.RequestKeeps(db, DropTrip(trip, reason, key), now);
  }

  // ---------------------------------------------------------------- prices

  /** The seat is not on open sale in any state of the run. */
  predicate NeverOnSale(db: Db, steps: seq<Step>, seat: nat)
    decreases steps
  {
    && seat < |Run(db, steps).desk.seats| && Run(db, steps).desk.seats[seat].status != Desks.Available
    && (steps != [] ==> NeverOnSale(db, steps[..|steps| - 1], seat))
  }

  lemma {:induction false} PriceFrozen(db: Db, steps: seq<Step>, seat: nat)
    requires DbInv(db) && seat < |db.desk.seats| && NeverOnSale(db, steps, seat)
    ensures Run(db, steps).desk.seats[seat].price == db.desk.seats[seat].price
  {
    if steps != [] {
      var before, last := steps[..|steps| - 1], steps[|steps| - 1];
      PriceFrozen(db, before, seat);
      RunKeeps(db, before);
      RequestMovesSeats(Run(db, before), last.request, last.now);
      assert SeatMoves(Run(db, before).desk.seats[seat], Run(db, steps).desk.seats[seat]);
    }
  }

  /** In every reachable state a booking's total is the sum of its fares and what was paid, and a
      booked seat shows the price that was charged for it. */
  lemma {:induction false} TotalsAndPrices(steps: seq<Step>, b: nat, t: nat)
    requires b < |Run(EMPTY, steps).desk.bookings| && t < |Run(EMPTY, steps).desk.tickets|
    ensures var d := Run(EMPTY, steps).desk;
      && |d.payments| == |d.bookings| && d.bookings[b].total == Total(|d.tickets|, DI.FareAt(d.tickets, b)) == d.payments[b].amount
      && (DI.TicketLive(d, t) ==> d.tickets[t].seat < |d.seats| && d.seats[d.tickets[t].seat].price == d.tickets[t].fare)
  {
    Reached(steps);
    var d := Run(EMPTY, steps).desk;
    if DI.TicketLive(d, t) { assert DI.SoldTo(d, d.tickets[t], t); }
  }
}
