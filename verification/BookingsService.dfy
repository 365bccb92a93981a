/** Holding, booking and cancelling seats, statement by statement. */
module BookingsService {
  import opened Wrappers
  import opened Sums
  import opened Money
  import opened Idempotency
  import Selling
  import Desks = TripDesk
  import DI = DeskInvariants
  import Agencies = Settlements
  import Ledgers = GeneralLedger
  import opened Backend
  import opened BackendInvariants
  import PostingProofs
  import opened Database
  import opened Refunding

  class Bookings {
    const db: Tables

    constructor (db: Tables)
      ensures this.db == db
    {
      this.db := db;
    }

    /** A seat is held for ten minutes, if nobody else has it. */
    method Hold(user: nat, trip: nat, seat: nat, now: int) returns (r: Result<int>)
      requires db.Valid()
      modifies db
      ensures db.Valid() && Serves(old(db.State()), HoldSeat(user, trip, seat), now, db.State(), r)
      ensures r.Success? ==> r.value == now + Desks.HOLD_MS
    {
      hide DbInv, Grows;
      PostingProofs.RequestKeeps(db.State(), HoldSeat(user, trip, seat), now);
      if trip >= |db.trips| { return Failure(NotFound); }
      if !Desks.Bookable(db.trips[trip].status) { return Failure(Conflict); }
      var count := 0;
      if seat < |db.seats| && db.seats[seat].trip == trip && Desks.Claimable(db.seats[seat], user, now) {
        db.seats := db.seats[seat := db.seats[seat].(status := Desks.Held(user, now + Desks.HOLD_MS))];
        count := 1;
      }
      if count == 0 { return Failure(Conflict); }
      return Success(now + Desks.HOLD_MS);
    }

    method Release(user: nat, seat: nat, now: int) returns (r: Result<bool>)
      requires db.Valid()
      modifies db
      ensures db.Valid() && Serves(old(db.State()), ReleaseSeat(user, seat), now, db.State(), r)
      ensures r == Success(old(db.State()) != db.State())
    {
      hide DbInv, Grows;
      PostingProofs.RequestKeeps(db.State(), ReleaseSeat(user, seat), now);
      if seat < |db.seats| && db.seats[seat].status.Held? && db.seats[seat].status.holder == user {
        db.seats := db.seats[seat := db.seats[seat].(status := Desks.Available)];
        assert old(db.seats)[seat] != db.seats[seat];
        return Success(true);
      }
      return Success(false);
    }

    // -------------------------------------------------------------- booking

    /** Claims the seats one by one and adds up their prices; the first seat that somebody else has
        stops it. */
    method ClaimSeats(ids: seq<nat>, user: nat, now: int) returns (r: Result<nat>)
      requires Desks.Distinct(ids) && forall k :: 0 <= k < |ids| ==> ids[k] < |db.seats|
      modifies db`seats
      ensures r.Success? <==> Desks.AllClaimable(old(db.Desk()), ids, user, now)
      ensures r.Success? ==> r.value == Desks.PriceOf(old(db.seats), ids) && Marked(old(db.seats), db.seats, ids, |ids|)
      ensures r.Failure? ==> r.error == Conflict
    {
      hide Desks.Claimable;
      var total: nat := 0;
      ghost var before := db.seats;
      for k := 0 to |ids|
        invariant Marked(before, db.seats, ids, k)
        invariant forall j :: 0 <= j < k ==> Desks.Claimable(before[ids[j]], user, now)
        invariant total == Total(k, Desks.PriceAt(before, ids))
      {
        NotYetMarked(before, db.seats, ids, k);
        var count := db.BookSeat(ids[k], user, now);
        if count == 0 { return Failure(Conflict); }
        total := total + db.seats[ids[k]].price;
      }
      return Success(total);
    }

    /** Inserts the booking, a ticket for each claimed seat at the price of the seat, and the payment. */
    method InsertBooking(trip: nat, ids: seq<nat>, agent: Option<nat>, key: Key, total: nat) returns (r: Result<nat>)
      requires forall k :: 0 <= k < |ids| ==> ids[k] < |db.seats|
      modifies db`bookings, db`tickets, db`payments
      ensures r.Failure? <==> Desks.BookingWithKey(old(db.bookings), key, 0).Some? || total == 0
      ensures r.Failure? ==> r.error == Constraint
      ensures r.Success? ==> r.value == |old(db.bookings)|
      ensures r.Success? ==> db.bookings == old(db.bookings) + [Desks.Booking(trip, agent, key, total, Desks.Confirmed)]
      ensures r.Success? ==> db.tickets == old(db.tickets) + Desks.NewTickets(old(db.Desk()), ids, |ids|)
      ensures r.Success? ==> db.payments == old(db.payments) + [Desks.Payment(|old(db.bookings)|, total, 0, Desks.Paid)]
    {
      if Desks.BookingWithKey(db.bookings, key, 0).Some? { return Failure(Constraint); }
      if total == 0 { return Failure(Constraint); }
      var booking := |db.bookings|;
      var tickets := Desks.NewTickets(db.Desk(), ids, |ids|);
      db.bookings := db.bookings + [Desks.Booking(trip, agent, key, total, Desks.Confirmed)];
      db.tickets := db.tickets + tickets;
      db.payments := db.payments + [Desks.Payment(booking, total, 0, Desks.Paid)];
      return Success(booking);
    }

    /** Each seat sold is given the number of its ticket. */
    method LinkTickets(first: nat, ids: seq<nat>)
      requires Desks.Distinct(ids) && first + |ids| <= |db.tickets|
      requires forall k :: 0 <= k < |ids| ==> ids[k] < |db.seats| && db.tickets[first + k].seat == ids[k]
      modifies db`seats
      ensures Linked(old(db.seats), db.seats, ids, |ids|, first)
    {
      for k := 0 to |ids|
        invariant Linked(old(db.seats), db.seats, ids, k, first)
      {
        var seat := db.tickets[first + k].seat;
        assert seat == ids[k] && seat !in ids[..k];
        db.seats := db.seats[seat := db.seats[seat].(ticket := Some(first + k))];
        assert ids[..k + 1] == ids[..k] + [ids[k]];
      }
    }

    /** The agent earns a commission on each ticket from number first on. */
    method EarnCommissions(agent: nat, rate: Rate, first: nat, now: int)
      requires first <= |db.tickets|
      modifies db`commissions
      ensures db.commissions == old(db.commissions) + Agencies.Earned(rate, agent, db.tickets, first, |db.tickets| - first, now)
    {
      for t := first to |db.tickets|
        invariant db.commissions == old(db.commissions) + Agencies.Earned(rate, agent, db.tickets, first, t - first, now)
      {
        var amount := match rate
          case Percent(share) => HalfUp(db.tickets[t].fare * share)
          case Fixed(amount) => amount;
        db.commissions := db.commissions + [Agencies.Commission(agent, db.tickets[t].booking, t, amount, false, now)];
      }
    }

    /** Inserts the booking of seats already claimed and links seats and tickets. */
    method InsertAndLink(trip: nat, ids: seq<nat>, agent: Option<nat>, key: Key, total: nat, ghost before: Desks.Desk) returns (r: Result<nat>)
      requires Desks.Distinct(ids) && Marked(before.seats, db.seats, ids, |ids|) && db.Desk() == before.(seats := db.seats)
      modifies db`seats, db`bookings, db`tickets, db`payments
      ensures r.Failure? <==> Desks.BookingWithKey(before.bookings, key, 0).Some? || total == 0
      ensures r.Failure? ==> r.error == Constraint
      ensures r.Success? ==> r.value == |before.bookings|
      ensures r.Success? ==> db.seats == Desks.SoldSeats(before, ids, |ids|)
      ensures r.Success? ==> db.bookings == before.bookings + [Desks.Booking(trip, agent, key, total, Desks.Confirmed)]
      ensures r.Success? ==> db.tickets == before.tickets + Desks.NewTickets(before, ids, |ids|)
      ensures r.Success? ==> db.payments == before.payments + [Desks.Payment(|before.bookings|, total, 0, Desks.Paid)]
    {
      ghost var marked := db.seats;
      SameTickets(before, db.Desk(), ids, |ids|);
      var first := |db.tickets|;
      var booking :- InsertBooking(trip, ids, agent, key, total);
      assert forall k :: 0 <= k < |ids| ==> db.tickets[first + k] == Desks.NewTicket(before, ids[k]);
      LinkTickets(first, ids);
      MarkedAndLinked(before, marked, db.seats, ids);
      return Success(booking);
    }

    /** Claims the seats of an order and books them. */
    method SellSeats(trip: nat, ids: seq<nat>, user: nat, agent: Option<nat>, key: Key, now: int) returns (r: Result<nat>)
      requires trip < |db.trips| && Desks.AllFound(db.Desk(), trip, ids)
      modifies db`seats, db`bookings, db`tickets, db`payments
      ensures r.Success? <==> SaleGoes(old(db.Desk()), ids, user, key, now)
      ensures r.Failure? ==> r.error == if Desks.AllClaimable(old(db.Desk()), ids, user, now) then Constraint else Conflict
      ensures r.Success? ==> r.value == |old(db.bookings)|
      ensures r.Success? ==> db.Desk() == Desks.Sell(old(db.Desk()), trip, ids, agent, key).(trips := db.trips)
    {
      ghost var before := db.Desk();
      var total :- ClaimSeats(ids, user, now);
      r := InsertAndLink(trip, ids, agent, key, total, before);
    }

    /** What follows the checks of the order: everything that is written. */
    method WriteSale(o: Order, now: int) returns (r: Result<nat>)
      requires o.trip < |db.trips| && Desks.AllFound(db.Desk(), o.trip, o.seats)
      requires AgentFor(o).Some? ==> AgentFor(o).value < |db.agents|
      modifies db`seats, db`bookings, db`tickets, db`payments, db`events, db`commissions, db`trips
      ensures r.Success? <==> SaleGoes(old(db.Desk()), o.seats, o.user, o.key, now)
      ensures r.Failure? ==> r.error == if Desks.AllClaimable(old(db.Desk()), o.seats, o.user, now) then Constraint else Conflict
      ensures r.Success? ==> r.value == |old(db.bookings)| && db.Desk() == Desks.Sell(old(db.Desk()), o.trip, o.seats, AgentFor(o), o.key)
      ensures r.Success? ==> db.Agency() == Commissioned(old(db.Agency()), AgentFor(o), db.tickets, |old(db.tickets)|, now)
      ensures r.Success? ==> db.events == Enqueue(old(db.events), Ledgers.PaymentReceived, |old(db.payments)|, now)
    {
      hide SaleGoes, Desks.SoldSeats, Desks.NewTickets, Desks.SoldOut, Enqueue, Agencies.Earned;
      ghost var sold := Desks.Sell(db.Desk(), o.trip, o.seats, AgentFor(o), o.key);
      var booking :- SellSeats(o.trip, o.seats, o.user, AgentFor(o), o.key, now);
      assert |db.tickets| == |old(db.tickets)| + |o.seats| && |db.payments| == |old(db.payments)| + 1;
      db.EnqueueEvent(Ledgers.PaymentReceived, |db.payments| - 1, now);
      if AgentFor(o).Some? {
        EarnCommissions(AgentFor(o).value, db.agents[AgentFor(o).value].rate, |db.tickets| - |o.seats|, now);
      }
      if Desks.SoldOut(db.seats, o.trip) {
        db.trips := db.trips[o.trip := db.trips[o.trip].(status := Desks.Full)];
      }
      assert db.Desk() == sold;
      return Success(booking);
    }

    /** An order is answered with the booking its key already has, or it is carried out in full, or
        it is refused and leaves no seat claimed. */
    method CreateBooking(o: Order, now: int) returns (r: Result<nat>)
      requires db.Valid() && o.seats != []
      modifies db
      ensures db.Valid() && Serves(old(db.State()), PlaceOrder(o), now, db.State(), r)
      ensures Book(old(db.State()), o, now).Success? ==> r == Success(Book(old(db.State()), o, now).value.1)
    {
      hide DbInv, Grows;
      var saved := db.State();
      PostingProofs.RequestKeeps(saved, PlaceOrder(o), now);
      if !ValidKey(o.key) { return Failure(BadRequest); }
      var replay := Replayed(saved, o);
      if replay.Some? { return Success(replay.value); }
      r := Carry(o, now);
      if r.Failure? { db.Rollback(saved); }
    }

    /** The checks of an order once the trip is locked. */
    method CheckOrder(o: Order, ghost now: int) returns (fault: Option<Error>)
      ensures fault.Some? ==> OrderFault(db.State(), o, now) == fault
      ensures fault.None? ==> Acceptable(db.State(), o)
    {
      if o.trip >= |db.trips| { return Some(NotFound); }
      if !Desks.Bookable(db.trips[o.trip].status) { return Some(Conflict); }
      if o.principal.Some? && o.agent.Some? && o.agent != o.principal { return Some(NotFound); }
      var agent := if o.principal.Some? then o.principal else o.agent;
      if agent.Some? && (agent.value >= |db.agents| || !db.agents[agent.value].active) { return Some(NotFound); }
      if !Desks.AllFound(db.Desk(), o.trip, o.seats) { return Some(NotFound); }
      return None;
    }

    method Carry(o: Order, now: int) returns (r: Result<nat>)
      modifies db
      ensures match OrderFault(old(db.State()), o, now)
        case Some(fault) => r == Failure(fault)
        case None => r == Success(|old(db.bookings)|) && db.State() == Sold(old(db.State()), o, now)
    {
      ghost var before := db.State();
      var fault := CheckOrder(o, now);
      if fault.Some? { return Failure(fault.value); }
      AcceptableFault(before, o, now);
      r := WriteSale(o, now);
      if r.Success? { SoldAssembled(before, o, now, db.State()); }
    }

    // -------------------------------------------------------------- cancelling

    /** The seats of a booking go back on sale. */
    method FreeSeatsOf(booking: nat)
      requires forall t :: 0 <= t < |db.tickets| ==> db.tickets[t].seat < |db.seats|
      modifies db`seats
      ensures db.seats == Desks.FreeSeats(old(db.Desk()), booking)
    {
      for t := 0 to |db.tickets|
        invariant |db.seats| == |old(db.seats)|
        invariant forall i :: 0 <= i < |db.seats| ==>
          db.seats[i] == (if SeatAmong(db.tickets, booking, i, t) then old(db.seats)[i].(status := Desks.Available, ticket := None) else old(db.seats)[i])
      {
        var ticket := db.tickets[t];
        if ticket.booking == booking {
          db.seats := db.seats[ticket.seat := db.seats[ticket.seat].(status := Desks.Available, ticket := None)];
        }
        assert forall i :: SeatAmong(db.tickets, booking, i, t + 1) <==>
          (SeatAmong(db.tickets, booking, i, t) || (ticket.booking == booking && ticket.seat == i));
      }
      assert forall i :: SeatAmong(db.tickets, booking, i, |db.tickets|) <==> Desks.SeatOf(db.tickets, booking, i);
    }

    /** A confirmed booking is refunded and ended, and its seats are freed. */
    method WriteCancellation(booking: nat, now: int)
      requires booking < |db.bookings| && db.bookings[booking].trip < |db.trips|
      requires forall t :: 0 <= t < |db.tickets| ==> db.tickets[t].seat < |db.seats|
      modifies db`payments, db`refunds, db`events, db`seats, db`bookings, db`tickets, db`commissions, db`trips
      ensures db.Desk() == Desks.Void(old(db.Desk()), booking).(seats := Desks.FreeSeats(old(db.Desk()), booking),
        trips := Reopened(old(db.trips), old(db.bookings)[booking].trip))
      ensures db.commissions == Agencies.Reverse(old(db.commissions), booking)
      ensures db.events == EnqueueRefunds(old(db.events), |old(db.refunds)|, |db.refunds|, now)
    {
      ghost var before := db.Desk();
      var trip := db.bookings[booking].trip;
      var total := RefundPayments(db, booking, now);
      EndedIsVoid(before, booking, total > 0);
      FreeSeatsOf(booking);
      assert db.seats == Desks.FreeSeats(before, booking);
      EndBooking(db, booking, total > 0);
      if db.trips[trip].status == Desks.Full {
        db.trips := db.trips[trip := db.trips[trip].(status := Desks.Open)];
      }
    }

    method Cancel(booking: nat, reason: string, key: Key, principal: Option<nat>, now: int) returns (r: Result<nat>)
      requires db.Valid()
      modifies db
      ensures db.Valid() && Serves(old(db.State()), DropBooking(booking, reason, key, principal), now, db.State(), r)
      ensures CancelBooking(old(db.State()), booking, reason, key, principal, now).Success? ==>
        r == Success(CancelBooking(old(db.State()), booking, reason, key, principal, now).value.1)
    {
      var saved := db.State();
      TicketsHaveSeats(saved);
      hide DbInv, Serves, CancelBooking;
      r := CancelUnder(booking, reason, key, principal, now);
      if r.Failure? { db.Rollback(saved); }
      Cancelled(saved, booking, reason, key, principal, now, db.State(), r);
    }

    /** The cancellation of a booking up to its commit or its failure. */
    method CancelUnder(booking: nat, reason: string, key: Key, principal: Option<nat>, now: int) returns (r: Result<nat>)
      requires forall b :: 0 <= b < |db.bookings| ==> db.bookings[b].trip < |db.trips|
      requires forall t :: 0 <= t < |db.tickets| ==> db.tickets[t].seat < |db.seats|
      modifies db
      ensures match CancelBooking(old(db.State()), booking, reason, key, principal, now)
        case Failure(error) => r == Failure(error)
        case Success(pair) => r == Success(pair.1) && db.State() == pair.0
    {
      if !ValidKey(key) { return Failure(BadRequest); }
      if booking >= |db.bookings| { return Failure(NotFound); }
      if principal.Some? && db.bookings[booking].agent != principal { return Failure(NotFound); }
      var replay :- db.BeginOperation(CancelBookings, key, BookingCancelled(booking, reason), now);
      if replay.Some? { return Success(if replay.value.Some? then replay.value.value else booking); }
      r := CancelFresh(booking, key, now);
    }

    method CancelFresh(booking: nat, key: Key, now: int) returns (r: Result<nat>)
      requires booking < |db.bookings| && db.bookings[booking].trip < |db.trips| && (CancelBookings, key) in db.records
      requires forall t :: 0 <= t < |db.tickets| ==> db.tickets[t].seat < |db.seats|
      modifies db
      ensures match Desks.CancelBooking(old(db.Desk()), booking)
        case Failure(error) => r == Failure(error)
        case Success(desk) => r == Success(booking) && db.State() == BookingEnded(old(db.State()), booking, desk, old(db.records), key, now)
    {
      ghost var before := db.State();
      if db.bookings[booking].status != Desks.Confirmed { return Failure(Conflict); }
      if db.trips[db.bookings[booking].trip].status in {Desks.Departed, Desks.Completed} { return Failure(Conflict); }
      WriteCancellation(booking, now);
      db.CompleteOperation(CancelBookings, key, booking);
      CancellationAssembled(before, booking, before.records, key, now, db.State());
      return Success(booking);
    }
  }

  lemma Cancelled(db: Db, booking: nat, reason: string, key: Key, principal: Option<nat>, now: int, e: Db, r: Result<nat>)
    requires DbInv(db)
    requires match CancelBooking(db, booking, reason, key, principal, now)
      case Failure(error) => r == Failure(error) && e == db
      case Success(pair) => r == Success(pair.1) && e == pair.0
    ensures DbInv(e) && Serves(db, DropBooking(booking, reason, key, principal), now, e, r)
  {
    hide DbInv, Grows, CancelBooking;
    PostingProofs.RequestKeeps(db, DropBooking(booking, reason, key, principal), now);
  }

  lemma CancellationAssembled(db: Db, booking: nat, records: Records<Payload>, key: Key, now: int, e: Db)
    requires Desks.CancelBooking(db.desk, booking).Success? && (CancelBookings, key) in records
    requires e.desk == Desks.Void(db.desk, booking).(seats := Desks.FreeSeats(db.desk, booking),
                                                     trips := Reopened(db.desk.trips, db.desk.bookings[booking].trip))
    requires e == db.(desk := e.desk, agency := db.agency.(commissions := Agencies.Reverse(db.agency.commissions, booking)),
                      events := EnqueueRefunds(db.events, |db.desk.refunds|, |e.desk.refunds|, now),
                      records := Complete(records, CancelBookings, key, booking))
    ensures e == BookingEnded(db, booking, Desks.CancelBooking(db.desk, booking).value, records, key, now)
  {}

  /** An order that only the state of its seats, its key or its price can still stop. */
  predicate Acceptable(db: Db, o: Order) {
    && o.trip < |db.desk.trips| && Desks.Bookable(db.desk.trips[o.trip].status)
    && (o.principal.Some? && o.agent.Some? ==> o.agent == o.principal)
    && (AgentFor(o).Some? ==> AgentFor(o).value < |db.agency.agents| && db.agency.agents[AgentFor(o).value].active)
    && Desks.AllFound(db.desk, o.trip, o.seats)
  }

  lemma AcceptableFault(db: Db, o: Order, now: int)
    requires Acceptable(db, o)
    ensures OrderFault(db, o, now) == if SaleGoes(db.desk, o.seats, o.user, o.key, now) then None
      else Some(if Desks.AllClaimable(db.desk, o.seats, o.user, now) then Constraint else Conflict)
  {}

  lemma SoldAssembled(db: Db, o: Order, now: int, e: Db)
    requires OrderFault(db, o, now).None? && e.desk == Desks.Sell(db.desk, o.trip, o.seats, AgentFor(o), o.key)
    requires e == db.(desk := e.desk, agency := Commissioned(db.agency, AgentFor(o), e.desk.tickets, |db.desk.tickets|, now),
                      events := Enqueue(db.events, Ledgers.PaymentReceived, |db.desk.payments|, now))
    ensures e == Sold(db, o, now)
  {}

  /** A ticket among the first n is of this booking and for this seat. */
  predicate SeatAmong(tickets: seq<Desks.Ticket>, booking: nat, seat: nat, n: nat) {
    exists t :: 0 <= t < n && t < |tickets| && tickets[t].booking == booking && tickets[t].seat == seat
  }

  function Reopened(trips: seq<Desks.Trip>, trip: nat): seq<Desks.Trip> {
    if trip < |trips| && trips[trip].status == Desks.Full then trips[trip := trips[trip].(status := Desks.Open)] else trips
  }

  lemma TicketsHaveSeats(db: Db)
    requires DbInv(db)
    ensures forall t :: 0 <= t < |db.desk.tickets| ==> db.desk.tickets[t].seat < |db.desk.seats|
    ensures forall b :: 0 <= b < |db.desk.bookings| ==> db.desk.bookings[b].trip < |db.desk.trips|
  {
    forall t | 0 <= t < |db.desk.tickets| ensures db.desk.tickets[t].seat < |db.desk.seats| {
      assert DI.TicketOk(db.desk, db.desk.tickets[t]);
    }
  }

  predicate SaleGoes(d: Desks.Desk, ids: seq<nat>, user: nat, key: Key, now: int) {
    Desks.AllClaimable(d, ids, user, now) && Desks.BookingWithKey(d.bookings, key, 0).None? && Desks.PriceOf(d.seats, ids) > 0
  }

  function Commissioned(ag: Agencies.Agency, agent: Option<nat>, tickets: seq<Desks.Ticket>, first: nat, now: int): Agencies.Agency
    requires first <= |tickets| && (agent.Some? ==> agent.value < |ag.agents|)
  {
    if agent.None? then ag
    else ag.(commissions := ag.commissions
      + Agencies.Earned(ag.agents[agent.value].rate, agent.value, tickets, first, |tickets| - first, now))
  }

  /** Seats marked and then linked to their tickets are the seats of the sale. */
  lemma {:induction false} MarkedAndLinked(d: Desks.Desk, marked: seq<Desks.Seat>, linked: seq<Desks.Seat>, ids: seq<nat>)
    requires Desks.Distinct(ids) && Marked(d.seats, marked, ids, |ids|) && Linked(marked, linked, ids, |ids|, |d.tickets|)
    ensures linked == Desks.SoldSeats(d, ids, |ids|)
  {
    Selling.SoldSeatsAre(d, ids, |ids|);
    assert ids[..|ids|] == ids;
    forall i | 0 <= i < |linked| ensures linked[i] == Desks.SoldSeats(d, ids, |ids|)[i] {
      if i in ids { var k :| 0 <= k < |ids| && ids[k] == i; assert linked[ids[k]] == Desks.SoldSeats(d, ids, |ids|)[ids[k]]; }
    }
  }

  lemma {:induction false} SameTickets(d: Desks.Desk, e: Desks.Desk, ids: seq<nat>, n: nat)
    requires e == d.(seats := e.seats) && Marked(d.seats, e.seats, ids, |ids|) && n <= |ids|
    ensures Desks.NewTickets(e, ids, n) == Desks.NewTickets(d, ids, n)
  {
    if n > 0 { SameTickets(d, e, ids, n - 1); }
  }

  lemma NotYetMarked(before: seq<Desks.Seat>, after: seq<Desks.Seat>, ids: seq<nat>, k: nat)
    requires Marked(before, after, ids, k) && Desks.Distinct(ids) && k < |ids|
    ensures after[ids[k]] == before[ids[k]]
    ensures Marked(before, after[ids[k] := after[ids[k]].(status := Desks.Booked)], ids, k + 1)
  {
    assert ids[k] !in ids[..k];
    assert ids[..k + 1] == ids[..k] + [ids[k]];
  }

  /** The first n seats of an order are booked, and nothing else differs. */
  predicate Marked(before: seq<Desks.Seat>, after: seq<Desks.Seat>, ids: seq<nat>, n: nat) {
    && |after| == |before| && n <= |ids| && (forall k :: 0 <= k < |ids| ==> ids[k] < |before|)
    && (forall k :: 0 <= k < n ==> after[ids[k]] == before[ids[k]].(status := Desks.Booked))
    && (forall i :: 0 <= i < |before| && i !in ids[..n] ==> after[i] == before[i])
  }

  /** The first n seats of an order name their tickets, which are numbered from first on. */
  predicate Linked(before: seq<Desks.Seat>, after: seq<Desks.Seat>, ids: seq<nat>, n: nat, first: nat) {
    && |after| == |before| && n <= |ids| && (forall k :: 0 <= k < |ids| ==> ids[k] < |before|)
    && (forall k :: 0 <= k < n ==> after[ids[k]] == before[ids[k]].(ticket := Some(first + k)))
    && (forall i :: 0 <= i < |before| && i !in ids[..n] ==> after[i] == before[i])
  }
}
