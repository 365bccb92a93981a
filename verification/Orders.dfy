/** On which trips and seats orders and holds are accepted, and what exactly they do. */
module Orders {
  import opened Wrappers
  import opened Money
  import Sums
  import Desks = TripDesk
  import DI = DeskInvariants
  import Selling
  import Agencies = Settlements
  import opened Backend
  import BackendProofs
  import opened Runs

  // ---------------------------------------------------------------- which seats and trips

  /** A trip takes bookings while it is scheduled or open; not when full, departed, completed or cancelled. */
  predicate TakesBookings(d: Desks.Desk, trip: nat) {
    trip < |d.trips| && (d.trips[trip].status == Desks.Scheduled || d.trips[trip].status == Desks.Open)
  }

  /** A passenger seat of the trip that is available, or held by this user and not yet run out. */
  predicate ForUser(d: Desks.Desk, trip: nat, seat: nat, user: nat, now: int) {
    && seat < |d.seats| && d.seats[seat].trip == trip
    && (d.seats[seat].kind == Desks.Regular || d.seats[seat].kind == Desks.Vip)
    && match d.seats[seat].status
       case Available => true
       case Held(holder, until) => holder == user && now <= until
       case Booked => false
       case Blocked => false
  }

  /** A user may hold a seat exactly when the trip takes bookings and the seat is for that user. The seat is
      then held until ten minutes later, and nothing else changes. */
  lemma HoldExactly(d: Desks.Desk, user: nat, trip: nat, seat: nat, now: int)
    ensures var r := Desks.Hold(d, user, trip, seat, now);
      && (r.Success? <==> TakesBookings(d, trip) && ForUser(d, trip, seat, user, now))
      && (r.Success? ==>
            && r.value == d.(seats := r.value.seats) && |r.value.seats| == |d.seats|
            && r.value.seats[seat] == d.seats[seat].(status := Desks.Held(user, now + 600000))
            && forall i :: 0 <= i < |d.seats| && i != seat ==> r.value.seats[i] == d.seats[i])
      && (r == Failure(NotFound) <==> trip >= |d.trips|)
      && (r.Failure? ==> r.error == NotFound || r.error == Conflict)
  {}

  /** Releasing ends the user's own hold, whether it has run out or not, and touches nothing else. */
  lemma ReleaseExactly(d: Desks.Desk, user: nat, seat: nat)
    ensures var e := Desks.Release(d, user, seat);
      && e == d.(seats := e.seats) && |e.seats| == |d.seats|
      && forall i :: 0 <= i < |d.seats| ==>
           e.seats[i] == if i == seat && d.seats[i].status.Held? && d.seats[i].status.holder == user
                         then d.seats[i].(status := Desks.Available) else d.seats[i]
  {}

  /** Expiry puts back on sale exactly the seats of the trip whose holds ended before now. */
  lemma ExpiryExactly(d: Desks.Desk, trip: nat, now: int)
    ensures var e := Desks.ExpireHolds(d, trip, now);
      && e == d.(seats := e.seats) && |e.seats| == |d.seats|
      && forall i :: 0 <= i < |d.seats| ==>
           e.seats[i] == if d.seats[i].trip == trip && d.seats[i].status.Held? && d.seats[i].status.until < now
                         then d.seats[i].(status := Desks.Available) else d.seats[i]
  {}

  // ---------------------------------------------------------------- orders

  /** The agent a booking is made through: the agent who orders, or the one named in the order. */
  predicate AgentOk(db: Db, o: Order) {
    match (o.principal, o.agent)
    case (None, None) => true
    case (Some(a), None) => a < |db.agency.agents| && db.agency.agents[a].active
    case (None, Some(a)) => a < |db.agency.agents| && db.agency.agents[a].active
    case (Some(a), Some(b)) => a == b && a < |db.agency.agents| && db.agency.agents[a].active
  }

  predicate SeatsFound(d: Desks.Desk, o: Order) {
    && (forall k :: 0 <= k < |o.seats| ==> o.seats[k] < |d.seats| && d.seats[o.seats[k]].trip == o.trip)
    && (forall j, k :: 0 <= j < k < |o.seats| ==> o.seats[j] != o.seats[k])
  }

  /** An order under a new key is accepted exactly when the trip takes bookings, the agent, if there is one, is
      active, and the seats are different seats of the trip and for this user; otherwise the first of these
      that fails decides the error. */
  lemma OrderExactly(db: Db, o: Order, now: int)
    requires DI.SeatLinks(db.desk) && o.seats != []
    ensures OrderFault(db, o, now) ==
      if o.trip >= |db.desk.trips| then Some(NotFound)
      else if !TakesBookings(db.desk, o.trip) then Some(Conflict)
      else if !AgentOk(db, o) || !SeatsFound(db.desk, o) then Some(NotFound)
      else if !(forall k :: 0 <= k < |o.seats| ==> ForUser(db.desk, o.trip, o.seats[k], o.user, now)) then Some(Conflict)
      else if !(forall b :: 0 <= b < |db.desk.bookings| ==> db.desk.bookings[b].key != o.key) then Some(Constraint)
      else None
  {
    Selling.KeySearch(db.desk.bookings, o.key, 0);
    if forall k :: 0 <= k < |o.seats| ==> o.seats[k] < |db.desk.seats| { Selling.PricePositive(db.desk, o.seats); }
    assert SeatsFound(db.desk, o) <==> Desks.AllFound(db.desk, o.trip, o.seats);
    forall k | 0 <= k < |o.seats| && SeatsFound(db.desk, o)
      ensures ForUser(db.desk, o.trip, o.seats[k], o.user, now) <==> Desks.Claimable(db.desk.seats[o.seats[k]], o.user, now)
    {}
  }

  predicate NothingAvailable(seats: seq<Desks.Seat>, trip: nat) {
    forall i :: 0 <= i < |seats| && seats[i].trip == trip && (seats[i].kind == Desks.Regular || seats[i].kind == Desks.Vip) ==>
      seats[i].status != Desks.Available
  }

  /** What an accepted order writes: one confirmed booking for its agent under its key, one issued ticket
      per seat at the seat's price, one payment of the total; the seats are booked under their tickets, and
      the trip is full exactly when no passenger seat is available any more. Nothing else changes. */
  lemma OrderWrites(db: Db, o: Order, now: int)
    requires OrderFault(db, o, now).None?
    ensures var d, e := db.desk, Sold(db, o, now).desk;
      && e.bookings == d.bookings + [Desks.Booking(o.trip, if o.principal.Some? then o.principal else o.agent, o.key,
                                                   Desks.PriceOf(d.seats, o.seats), Desks.Confirmed)]
      && e.payments == d.payments + [Desks.Payment(|d.bookings|, Desks.PriceOf(d.seats, o.seats), 0, Desks.Paid)]
      && |e.tickets| == |d.tickets| + |o.seats| && d.tickets <= e.tickets && e.refunds == d.refunds && e.fee == d.fee
      && (forall k :: 0 <= k < |o.seats| ==> o.seats[k] < |d.seats|)
      && (forall k :: 0 <= k < |o.seats| ==>
            e.tickets[|d.tickets| + k] == Desks.Ticket(|d.bookings|, o.seats[k], d.seats[o.seats[k]].price, Desks.Issued))
  {
    forall k | 0 <= k < |o.seats|
      ensures Sold(db, o, now).desk.tickets[|db.desk.tickets| + k]
        == Desks.Ticket(|db.desk.bookings|, o.seats[k], db.desk.seats[o.seats[k]].price, Desks.Issued)
    {
      assert Sold(db, o, now).desk.tickets[|db.desk.tickets| + k] == Desks.NewTicket(db.desk, o.seats[k]);
    }
  }

  lemma OrderBooksSeats(db: Db, o: Order, now: int)
    requires OrderFault(db, o, now).None?
    ensures var d, e := db.desk, Sold(db, o, now).desk;
      && |e.seats| == |d.seats| && |e.trips| == |d.trips|
      && (forall k :: 0 <= k < |o.seats| ==> o.seats[k] < |d.seats|)
      && (forall k :: 0 <= k < |o.seats| ==>
            e.seats[o.seats[k]] == d.seats[o.seats[k]].(status := Desks.Booked, ticket := Some(|d.tickets| + k)))
      && (forall i :: 0 <= i < |d.seats| && i !in o.seats ==> e.seats[i] == d.seats[i])
      && (forall t :: 0 <= t < |d.trips| ==>
            e.trips[t] == if t == o.trip && NothingAvailable(e.seats, o.trip) then d.trips[t].(status := Desks.Full) else d.trips[t])
  {
    Selling.SoldSeatsAre(db.desk, o.seats, |o.seats|);
    assert o.seats[..|o.seats|] == o.seats;
    hide OrderFault, Desks.SoldSeats, Desks.NewTickets;
  }

  /** The agent of an order, and only that agent, earns on it: a commission per ticket at the agent's rate. */
  lemma OrderPaysAgent(db: Db, o: Order, now: int)
    requires OrderFault(db, o, now).None?
    ensures var x, y := db.agency.commissions, Sold(db, o, now).agency.commissions;
      && Sold(db, o, now).agency == db.agency.(commissions := y)
      && (o.principal.None? && o.agent.None? ==> y == x)
      && (o.principal.Some? || o.agent.Some? ==>
            var agent := if o.principal.Some? then o.principal.value else o.agent.value;
            && |y| == |x| + |o.seats| && x <= y && agent < |db.agency.agents|
            && (forall k :: 0 <= k < |o.seats| ==> o.seats[k] < |db.desk.seats|)
            && (forall k :: 0 <= k < |o.seats| ==>
                  y[|x| + k] == Agencies.Commission(agent, |db.desk.bookings|, |db.desk.tickets| + k,
                                  CommissionDue(db.agency.agents[agent].rate, db.desk.seats[o.seats[k]].price), false, now)))
  {
    OrderWrites(db, o, now);
    hide Desks.Sell, Desks.AllClaimable;
  }

  /** A fixed-rate agent earns the fixed amount on every ticket, whatever the fares. */
  lemma {:induction false} FixedCommissions(amount: nat, fares: seq<nat>, n: nat)
    requires n <= |fares|
    ensures Sums.Total(n, CommissionAt(Fixed(amount), fares)) == n * amount
  {
    if n > 0 { FixedCommissions(amount, fares, n - 1); }
  }

  // ---------------------------------------------------------------- every step of every run

  predicate NewlyTaken(s: Desks.Seat, r: Desks.Seat) { r.status != s.status && (r.status.Held? || r.status.Booked?) }

  /** Whatever is requested, a booking is only added to, and a seat only newly held or sold on, a trip that
      is scheduled or open at that moment. */
  predicate OpensOnSaleOnly(d: Desks.Desk, e: Desks.Desk) {
    && (forall b :: |d.bookings| <= b < |e.bookings| ==> TakesBookings(d, e.bookings[b].trip))
    && (forall i :: 0 <= i < |d.seats| && i < |e.seats| && NewlyTaken(d.seats[i], e.seats[i]) ==> TakesBookings(d, d.seats[i].trip))
    && (forall i :: |d.seats| <= i < |e.seats| ==> !e.seats[i].status.Held? && !e.seats[i].status.Booked?)
  }

  lemma SeatRequestsOnSaleOnly(db: Db, r: Request, now: int)
    requires WellFormed(r) && BackendProofs.SeatRequest(r)
    ensures OpensOnSaleOnly(db.desk, Apply(db, r, now).desk)
  {
    hide Desks.MissingSeats, Desks.FirstPrice, Desks.HasLabel;
    if r.HoldSeat? { HoldExactly(db.desk, r.user, r.trip, r.seat, now); }
  }

  lemma OrdersOnSaleOnly(db: Db, o: Order, now: int)
    requires OrderFault(db, o, now).None?
    ensures OpensOnSaleOnly(db.desk, Sold(db, o, now).desk)
  {
    OrderWrites(db, o, now);
    OrderBooksSeats(db, o, now);
    forall i | 0 <= i < |db.desk.seats| && i in o.seats ensures db.desk.seats[i].trip == o.trip {
      var k :| 0 <= k < |o.seats| && o.seats[k] == i;
      assert db.desk.seats[o.seats[k]].trip == o.trip;
    }
    hide Sold;
  }

  lemma CancellationsOpenNothing(db: Db, r: Request, now: int)
    requires r.DropBooking? || r.DropTrip?
    ensures OpensOnSaleOnly(db.desk, Apply(db, r, now).desk)
  {}

  lemma RequestOpensOnSaleOnly(db: Db, r: Request, now: int)
    ensures OpensOnSaleOnly(db.desk, Apply(db, r, now).desk)
  {
    if WellFormed(r) {
      if BackendProofs.SeatRequest(r) {
        SeatRequestsOnSaleOnly(db, r, now);
      } else if r.PlaceOrder? {
        if OrderFault(db, r.order, now).None? { OrdersOnSaleOnly(db, r.order, now); }
      } else if r.DropBooking? || r.DropTrip? {
        CancellationsOpenNothing(db, r, now);
      } else {
        OtherRequestsMoveNoSeat(db, r, now);
      }
    }
  }
}
