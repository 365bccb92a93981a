/** Every request keeps the invariants of the whole database, and only lets history grow. */
module BackendProofs {
  import opened Wrappers
  import opened Idempotency
  import AP = SettlementProofs
  import Desks = TripDesk
  import DI = DeskInvariants
  import Agencies = Settlements
  import Ledgers = GeneralLedger
  import opened Backend
  import opened BackendInvariants
  import Selling
  import Cancelling

  predicate SameKeys(x: seq<Event>, y: seq<Event>) {
    |x| == |y| && forall i :: 0 <= i < |x| ==> y[i].kind == x[i].kind && y[i].row == x[i].row
  }

  lemma SameKeysSameEvents(x: seq<Event>, y: seq<Event>)
    requires SameKeys(x, y)
    ensures forall kind: EventKind, row: nat :: HasEvent(y, kind, row) <==> HasEvent(x, kind, row)
  {
    forall kind: EventKind, row: nat ensures HasEvent(y, kind, row) <==> HasEvent(x, kind, row) {
      if HasEvent(x, kind, row) { var i :| 0 <= i < |x| && x[i].kind == kind && x[i].row == row; assert y[i].kind == kind && y[i].row == row; }
      if HasEvent(y, kind, row) { var i :| 0 <= i < |y| && y[i].kind == kind && y[i].row == row; assert x[i].kind == kind && x[i].row == row; }
    }
  }

  /** The outbox stays exact while nothing new is owed and no event is added. */
  lemma OutboxQuiet(db: Db, e: Db)
    requires OutboxExact(db) && SameKeys(db.events, e.events)
    requires forall kind: EventKind, row: nat :: Owed(e, kind, row) <==> Owed(db, kind, row)
    ensures OutboxExact(e)
  {
    SameKeysSameEvents(db.events, e.events);
  }

  // ---------------------------------------------------------------- trips, seats and fees

  lemma DeskEditKeeps(db: Db, desk: Desks.Desk)
    requires DbInv(db) && DI.DeskInv(desk) && |db.desk.trips| <= |desk.trips|
    requires desk == db.desk.(seats := desk.seats, trips := desk.trips, fee := desk.fee)
    ensures DbInv(db.(desk := desk)) && Grows(db, db.(desk := desk))
  {
    var e := db.(desk := desk);
    QuietKeeps(db, e);
    OutboxQuiet(db, e);
    assert CommissionsFollow(e) by {
      forall c | 0 <= c < |e.agency.commissions| ensures CommissionFollows(e, e.agency.commissions[c]) {
        assert CommissionFollows(db, db.agency.commissions[c]);
      }
      forall t | 0 <= t < |e.desk.tickets| && ThroughAgent(e.desk, e.desk.tickets[t]) ensures HasCommission(e.agency.commissions, t) {
        assert ThroughAgent(db.desk, db.desk.tickets[t]);
      }
    }
  }

  predicate SeatRequest(r: Request) {
    r.CreateTrip? || r.ViewTripSeats? || r.EditTrip? || r.HoldSeat? || r.ReleaseSeat? || r.MakeManifest? || r.LockTripManifest? || r.SetFee?
  }

  lemma TripRequestsKeepDesk(db: Db, r: Request, now: int)
    requires DI.DeskInv(db.desk) && WellFormed(r) && (r.CreateTrip? || r.ViewTripSeats? || r.EditTrip? || r.SetFee?)
    ensures DI.DeskInv(Apply(db, r, now).desk)
  {
    hide DI.DeskInv, Desks.AddTrip, Desks.Repair, Desks.ExpireHolds, Desks.Edit;
    var d := db.desk;
    if r.CreateTrip? {
      DI.AddTripKeepsInv(d, r.template, r.price, r.status);
    } else if r.ViewTripSeats? {
      if r.trip < |d.trips| {
        DI.RepairKeepsInv(d, r.trip, r.template);
        DI.ExpiryKeepsInv(Desks.Repair(d, r.trip, r.template), r.trip, now);
      }
    } else if r.EditTrip? {
      if r.trip < |d.trips| && r.newStatus != Some(Desks.Cancelled) { DI.EditingKeepsInv(d, r.trip, r.newPrice, r.newStatus); }
    } else {
      DI.FeeKeepsInv(d, r.fee);
    }
  }

  lemma HoldRequestsKeepDesk(db: Db, r: Request, now: int)
    requires DI.DeskInv(db.desk) && (r.HoldSeat? || r.ReleaseSeat? || r.MakeManifest? || r.LockTripManifest?)
    ensures DI.DeskInv(Apply(db, r, now).desk)
  {
    hide DI.DeskInv, Desks.Hold, Desks.Release, Desks.Manifested, Desks.LockManifest;
    var d := db.desk;
    if r.HoldSeat? {
      DI.HoldKeepsInv(d, r.user, r.trip, r.seat, now);
    } else if r.ReleaseSeat? {
      DI.HoldKeepsInv(d, r.user, 0, r.seat, now);
    } else {
      DI.ManifestKeepsInv(d, r.trip);
    }
  }

  lemma SeatRequestsFrame(db: Db, r: Request, now: int)
    requires WellFormed(r) && SeatRequest(r)
    ensures var e := Apply(db, r, now);
      e == db.(desk := db.desk.(seats := e.desk.seats, trips := e.desk.trips, fee := e.desk.fee)) && |db.desk.trips| <= |e.desk.trips|
  {}

  lemma SeatRequestsKeep(db: Db, r: Request, now: int)
    requires DbInv(db) && WellFormed(r) && SeatRequest(r)
    ensures DbInv(Apply(db, r, now)) && Grows(db, Apply(db, r, now))
  {
    hide Apply, Grows, WellFormed, DI.DeskInv, Agencies.AgencyInv, Ledgers.LedgerInv, CommissionsFollow, OutboxExact, EventsOk, RecordsOk;
    SeatRequestsFrame(db, r, now);
    if r.CreateTrip? || r.ViewTripSeats? || r.EditTrip? || r.SetFee? {
      TripRequestsKeepDesk(db, r, now);
    } else {
      HoldRequestsKeepDesk(db, r, now);
    }
    DeskEditKeeps(db, Apply(db, r, now).desk);
  }

  // ---------------------------------------------------------------- orders

  lemma OrderMaySell(db: Db, o: Order, now: int)
    requires OrderFault(db, o, now).None? && o.seats != []
    ensures Selling.MaySell(db.desk, o.trip, o.seats, o.user, o.key, now)
  {}

  lemma SoldGrows(db: Db, o: Order, now: int)
    requires OrderFault(db, o, now).None?
    ensures Grows(db, Sold(db, o, now))
  {}

  lemma SoldCommissionFollows(db: Db, o: Order, now: int, c: nat)
    requires CommissionsFollow(db) && OrderFault(db, o, now).None? && c < |Sold(db, o, now).agency.commissions|
    ensures CommissionFollows(Sold(db, o, now), Sold(db, o, now).agency.commissions[c])
  {
    hide OrderFault;
    var e, n, m := Sold(db, o, now), |db.agency.commissions|, |db.desk.tickets|;
    if c < n {
      assert CommissionFollows(db, db.agency.commissions[c]);
    } else {
      var k := c - n;
      assert e.agency.commissions[n + k].booking == e.desk.tickets[m + k].booking;
      assert e.desk.tickets[m + k] == Desks.NewTicket(db.desk, o.seats[k]);
    }
  }

  lemma SoldTicketCommissioned(db: Db, o: Order, now: int, t: nat)
    requires CommissionsFollow(db) && DI.References(db.desk) && OrderFault(db, o, now).None? && t < |Sold(db, o, now).desk.tickets|
    ensures var e := Sold(db, o, now); ThroughAgent(e.desk, e.desk.tickets[t]) ==> HasCommission(e.agency.commissions, t)
  {
    hide OrderFault;
    var e, n, m := Sold(db, o, now), |db.agency.commissions|, |db.desk.tickets|;
    if ThroughAgent(e.desk, e.desk.tickets[t]) {
      if t < m {
        assert DI.TicketOk(db.desk, db.desk.tickets[t]);
        assert ThroughAgent(db.desk, db.desk.tickets[t]);
        var c :| 0 <= c < n && db.agency.commissions[c].ticket == t;
        assert e.agency.commissions[c].ticket == t;
      } else {
        var k := t - m;
        assert e.desk.tickets[m + k] == Desks.NewTicket(db.desk, o.seats[k]);
        assert e.agency.commissions[n + k].ticket == t;
      }
    }
  }

  lemma SoldCommissionsFollow(db: Db, o: Order, now: int)
    requires CommissionsFollow(db) && DI.References(db.desk) && OrderFault(db, o, now).None?
    ensures CommissionsFollow(Sold(db, o, now))
  {
    var e := Sold(db, o, now);
    forall c | 0 <= c < |e.agency.commissions| ensures CommissionFollows(e, e.agency.commissions[c]) { SoldCommissionFollows(db, o, now, c); }
    forall t | 0 <= t < |e.desk.tickets| ensures ThroughAgent(e.desk, e.desk.tickets[t]) ==> HasCommission(e.agency.commissions, t) {
      SoldTicketCommissioned(db, o, now, t);
    }
  }

  lemma SoldAgencyOk(db: Db, o: Order, now: int)
    requires Agencies.AgencyInv(db.agency, db.desk.tickets) && OrderFault(db, o, now).None?
    ensures Agencies.AgencyInv(Sold(db, o, now).agency, Sold(db, o, now).desk.tickets)
  {
    var after := Sold(db, o, now).desk.tickets;
    if AgentFor(o).Some? {
      AP.EarningKeepsInv(db.agency, db.desk.tickets, after, AgentFor(o).value, now);
    } else {
      AP.GrowthKeepsInv(db.agency, db.desk.tickets, db.agency, after);
    }
  }

  lemma SoldOutboxExact(db: Db, o: Order, now: int)
    requires OutboxExact(db) && |db.desk.payments| == |db.desk.bookings| && OrderFault(db, o, now).None?
    ensures OutboxExact(Sold(db, o, now))
  {
    hide OrderFault, HasEvent;
    Enqueued(db.events, Ledgers.PaymentReceived, |db.desk.payments|, now);
  }

  lemma SoldRecordsOk(db: Db, o: Order, now: int)
    requires EventsOk(db) && RecordsOk(db) && OrderFault(db, o, now).None?
    ensures EventsOk(Sold(db, o, now)) && RecordsOk(Sold(db, o, now))
  {
    var e := Sold(db, o, now);
    SoldGrows(db, o, now);
    hide Grows, OrderFault, RecordOk;
    EnqueueKeepsEvents(db, e, db.events, Ledgers.PaymentReceived, |db.desk.payments|, now);
    forall k | k in e.records ensures RecordOk(e, k.0, e.records[k]) { RecordStable(db, e, k.0, db.records[k]); }
  }

  lemma OrderKeeps(db: Db, o: Order, now: int)
    requires DbInv(db) && OrderFault(db, o, now).None? && o.seats != []
    ensures DbInv(Sold(db, o, now)) && Grows(db, Sold(db, o, now))
  {
    OrderMaySell(db, o, now);
    Selling.SellKeepsInv(db.desk, o.trip, o.seats, AgentFor(o), o.key, o.user, now);
    SoldGrows(db, o, now);
    SoldCommissionsFollow(db, o, now);
    SoldAgencyOk(db, o, now);
    SoldOutboxExact(db, o, now);
    SoldRecordsOk(db, o, now);
    hide OrderFault, Grows, Agencies.AgencyInv, Ledgers.LedgerInv, CommissionsFollow, OutboxExact, EventsOk, RecordsOk;
  }

  // ---------------------------------------------------------------- cancellations

  lemma VoidGrows(d: Desks.Desk, booking: nat)
    requires booking < |d.bookings| && Desks.Live(d.bookings[booking])
    ensures DeskGrows(d, Desks.Void(d, booking))
  {}

  lemma {:induction false} VoidTripGrows(d: Desks.Desk, trip: nat, n: nat)
    requires n <= |d.bookings|
    ensures DeskGrows(d, Desks.VoidTrip(d, trip, n))
  {
    if n > 0 {
      VoidTripGrows(d, trip, n - 1);
      Cancelling.LaterBookingUntouched(d, trip, n - 1);
      if d.bookings[n - 1].trip == trip && Desks.Live(d.bookings[n - 1]) {
        var p := Desks.VoidTrip(d, trip, n - 1);
        VoidGrows(p, n - 1);
        DeskGrowsFurther(d, p, Desks.Void(p, n - 1));
      }
    }
  }

  lemma DeskGrowsFurther(d: Desks.Desk, e: Desks.Desk, f: Desks.Desk)
    requires DeskGrows(d, e) && DeskGrows(e, f)
    ensures DeskGrows(d, f)
  {
    forall b | 0 <= b < |d.bookings| ensures BookingGrows(d.bookings[b], f.bookings[b]) {
      assert BookingGrows(d.bookings[b], e.bookings[b]) && BookingGrows(e.bookings[b], f.bookings[b]);
    }
  }

  /** Events and records after a cancellation. */
  lemma EndingKeeps(db: Db, e: Db, endpoint: Endpoint, key: Key, payload: Payload, row: nat, records: Records<Payload>, now: int)
    requires OutboxExact(db) && EventsOk(db) && RecordsOk(db) && DeskGrows(db.desk, e.desk) && e.ledger == db.ledger
    requires e.agency.settlements == db.agency.settlements && e.expenses == db.expenses && |e.desk.payments| == |db.desk.payments|
    requires e.events == EnqueueRefunds(db.events, |db.desk.refunds|, |e.desk.refunds|, now)
    requires Begin(db.records, endpoint, key, payload, now) == Success(Fresh(records))
    requires e.records == Complete(records, endpoint, key, row) && RecordOk(e, endpoint, Record(payload, Some(row), now + RETENTION_MS))
    ensures OutboxExact(e) && EventsOk(e) && RecordsOk(e) && Grows(db, e)
  {
    RefundsEnqueued(db.events, |db.desk.refunds|, |e.desk.refunds|, now);
    RefundEventsOk(db, db.events, |db.desk.refunds|, |e.desk.refunds|, now);
    forall i | 0 <= i < |e.events| ensures EventOk(e, e.events[i]) { EventStable(db, e, e.events[i]); }
    forall k | k in e.records ensures RecordOk(e, k.0, e.records[k]) {
      if k != (endpoint, key) { RecordStable(db, e, k.0, db.records[k]); }
    }
  }

  lemma ReversedCommissionsFollow(db: Db, e: Db, booking: nat)
    requires CommissionsFollow(db) && booking < |db.desk.bookings| && e.agency.commissions == Agencies.Reverse(db.agency.commissions, booking)
    requires |e.desk.bookings| == |db.desk.bookings| && |e.desk.tickets| == |db.desk.tickets| && DeskGrows(db.desk, e.desk)
    requires e.desk.bookings[booking].status != Desks.Confirmed
    requires forall b :: 0 <= b < |db.desk.bookings| && b != booking ==> e.desk.bookings[b].status == db.desk.bookings[b].status
    ensures CommissionsFollow(e)
  {
    forall c | 0 <= c < |e.agency.commissions| ensures CommissionFollows(e, e.agency.commissions[c]) {
      assert CommissionFollows(db, db.agency.commissions[c]);
      assert BookingGrows(db.desk.bookings[db.agency.commissions[c].booking], e.desk.bookings[db.agency.commissions[c].booking]);
    }
    CommissionsRemain(db, e);
  }

  lemma CommissionsRemain(db: Db, e: Db)
    requires CommissionsFollow(db) && DeskGrows(db.desk, e.desk)
    requires |e.desk.bookings| == |db.desk.bookings| && |e.desk.tickets| == |db.desk.tickets|
    requires |e.agency.commissions| == |db.agency.commissions|
    requires forall c :: 0 <= c < |db.agency.commissions| ==> e.agency.commissions[c].ticket == db.agency.commissions[c].ticket
    ensures forall t :: 0 <= t < |e.desk.tickets| && ThroughAgent(e.desk, e.desk.tickets[t]) ==> HasCommission(e.agency.commissions, t)
  {
    forall t | 0 <= t < |e.desk.tickets| && ThroughAgent(e.desk, e.desk.tickets[t]) ensures HasCommission(e.agency.commissions, t) {
      assert BookingGrows(db.desk.bookings[db.desk.tickets[t].booking], e.desk.bookings[db.desk.tickets[t].booking]);
      assert ThroughAgent(db.desk, db.desk.tickets[t]);
      var c :| 0 <= c < |db.agency.commissions| && db.agency.commissions[c].ticket == t;
      assert e.agency.commissions[c].ticket == t;
    }
  }

  lemma CancelledDeskGrows(d: Desks.Desk, booking: nat, desk: Desks.Desk)
    requires Desks.CancelBooking(d, booking) == Success(desk)
    ensures DeskGrows(d, desk) && |desk.payments| == |d.payments| && |desk.tickets| == |d.tickets| && |desk.bookings| == |d.bookings|
    ensures !Desks.Live(desk.bookings[booking])
    ensures forall b :: 0 <= b < |d.bookings| && b != booking ==> desk.bookings[b] == d.bookings[b]
  {
    Cancelling.VoidFrame(d, booking);
    VoidGrows(d, booking);
  }

  lemma BookingEndedAgency(db: Db, e: Db, booking: nat)
    requires CommissionsFollow(db) && Agencies.AgencyInv(db.agency, db.desk.tickets)
    requires Desks.CancelBooking(db.desk, booking) == Success(e.desk)
    requires e.agency == db.agency.(commissions := Agencies.Reverse(db.agency.commissions, booking))
    ensures CommissionsFollow(e) && Agencies.AgencyInv(e.agency, e.desk.tickets)
  {
    CancelledDeskGrows(db.desk, booking, e.desk);
    ReversedCommissionsFollow(db, e, booking);
    EndedAgency(db, e);
    AP.GrowthKeepsInv(db.agency, db.desk.tickets, e.agency, e.desk.tickets);
  }

  lemma BookingEndedKeeps(db: Db, booking: nat, desk: Desks.Desk, records: Records<Payload>, reason: string, key: Key, now: int)
    requires DbInv(db) && Desks.CancelBooking(db.desk, booking) == Success(desk)
    requires Begin(db.records, CancelBookings, key, BookingCancelled(booking, reason), now) == Success(Fresh(records))
    ensures var e := BookingEnded(db, booking, desk, records, key, now); DbInv(e) && Grows(db, e)
  {
    hide Grows, DI.DeskInv, Agencies.AgencyInv, Ledgers.LedgerInv, OutboxExact, EventsOk, RecordsOk, CommissionsFollow, DeskGrows;
    var e := BookingEnded(db, booking, desk, records, key, now);
    Cancelling.CancelKeepsInv(db.desk, booking);
    CancelledDeskGrows(db.desk, booking, desk);
    BookingEndedAgency(db, e, booking);
    EndingKeeps(db, e, CancelBookings, key, BookingCancelled(booking, reason), booking, records, now);
  }

  lemma EndedAgency(db: Db, e: Db)
    requires Agencies.AgencyInv(db.agency, db.desk.tickets) && DeskGrows(db.desk, e.desk) && |e.desk.tickets| == |db.desk.tickets|
    requires e.agency == db.agency.(commissions := e.agency.commissions) && |e.agency.commissions| == |db.agency.commissions|
    requires forall c :: 0 <= c < |db.agency.commissions| ==>
      e.agency.commissions[c].(reversed := db.agency.commissions[c].reversed) == db.agency.commissions[c]
    ensures Agencies.CommissionsOk(e.agency, e.desk.tickets) && AP.Grown(db.agency, db.desk.tickets, e.agency, e.desk.tickets)
  {
    forall c | 0 <= c < |e.agency.commissions|
      ensures e.agency.commissions[c].ticket == db.agency.commissions[c].ticket && e.agency.commissions[c].booking == db.agency.commissions[c].booking
        && e.agency.commissions[c].agent == db.agency.commissions[c].agent
    {
      assert e.agency.commissions[c].(reversed := db.agency.commissions[c].reversed) == db.agency.commissions[c];
    }
    forall t | 0 <= t < |db.desk.tickets| ensures e.desk.tickets[t].booking == db.desk.tickets[t].booking && e.desk.tickets[t].fare == db.desk.tickets[t].fare {
      assert e.desk.tickets[t].(status := db.desk.tickets[t].status) == db.desk.tickets[t];
    }
  }

  /** The commissions reversed with a trip are those of its live bookings. */
  lemma {:induction false} ReverseTripAre(commissions: seq<Agencies.Commission>, bookings: seq<Desks.Booking>, trip: nat, n: nat, c: nat)
    requires n <= |bookings| && c < |commissions|
    ensures ReverseTrip(commissions, bookings, trip, n)[c] == commissions[c].(reversed := commissions[c].reversed
      || (commissions[c].booking < n && bookings[commissions[c].booking].trip == trip && Desks.Live(bookings[commissions[c].booking])))
  {
    if n > 0 { ReverseTripAre(commissions, bookings, trip, n - 1, c); }
  }

  lemma TripCommissionsFollow(db: Db, e: Db, trip: nat)
    requires CommissionsFollow(db) && DI.RefundsAgree(db.desk)
    requires e.agency.commissions == ReverseTrip(db.agency.commissions, db.desk.bookings, trip, |db.desk.bookings|)
    requires e.desk.bookings == Desks.VoidTrip(db.desk, trip, |db.desk.bookings|).bookings
    requires |e.desk.tickets| == |db.desk.tickets| && DeskGrows(db.desk, e.desk)
    ensures CommissionsFollow(e)
  {
    Cancelling.VoidTripFrame(db.desk, trip, |db.desk.bookings|);
    forall c | 0 <= c < |e.agency.commissions|
      ensures e.agency.commissions[c].ticket == db.agency.commissions[c].ticket && CommissionFollows(e, e.agency.commissions[c])
    {
      ReverseTripAre(db.agency.commissions, db.desk.bookings, trip, |db.desk.bookings|, c);
      assert CommissionFollows(db, db.agency.commissions[c]);
    }
    CommissionsRemain(db, e);
  }

  lemma CancelledTripGrows(d: Desks.Desk, trip: nat, desk: Desks.Desk)
    requires Desks.CancelTrip(d, trip) == Success(desk)
    ensures DeskGrows(d, desk) && |desk.payments| == |d.payments| && |desk.tickets| == |d.tickets|
    ensures desk.bookings == Desks.VoidTrip(d, trip, |d.bookings|).bookings
  {
    Cancelling.VoidTripFrame(d, trip, |d.bookings|);
    VoidTripGrows(d, trip, |d.bookings|);
    VoidTripPayments(d, trip, |d.bookings|);
  }

  lemma {:induction false} VoidTripPayments(d: Desks.Desk, trip: nat, n: nat)
    requires n <= |d.bookings|
    ensures |Desks.VoidTrip(d, trip, n).payments| == |d.payments|
  {
    if n > 0 { VoidTripPayments(d, trip, n - 1); }
  }

  lemma TripEndedAgency(db: Db, e: Db, trip: nat)
    requires CommissionsFollow(db) && DI.RefundsAgree(db.desk) && Agencies.AgencyInv(db.agency, db.desk.tickets)
    requires Desks.CancelTrip(db.desk, trip) == Success(e.desk)
    requires e.agency == db.agency.(commissions := ReverseTrip(db.agency.commissions, db.desk.bookings, trip, |db.desk.bookings|))
    ensures CommissionsFollow(e) && Agencies.AgencyInv(e.agency, e.desk.tickets)
  {
    CancelledTripGrows(db.desk, trip, e.desk);
    TripCommissionsFollow(db, e, trip);
    forall c | 0 <= c < |db.agency.commissions|
      ensures e.agency.commissions[c].(reversed := db.agency.commissions[c].reversed) == db.agency.commissions[c]
    {
      ReverseTripAre(db.agency.commissions, db.desk.bookings, trip, |db.desk.bookings|, c);
    }
    EndedAgency(db, e);
    AP.GrowthKeepsInv(db.agency, db.desk.tickets, e.agency, e.desk.tickets);
  }

  lemma TripEndedKeeps(db: Db, trip: nat, desk: Desks.Desk, records: Records<Payload>, reason: string, key: Key, now: int)
    requires DbInv(db) && Desks.CancelTrip(db.desk, trip) == Success(desk)
    requires Begin(db.records, CancelTrips, key, TripCancelled(trip, reason), now) == Success(Fresh(records))
    ensures var e := TripEnded(db, trip, desk, records, key, now); DbInv(e) && Grows(db, e)
  {
    var e := TripEnded(db, trip, desk, records, key, now);
    Cancelling.CancelTripKeepsInv(db.desk, trip);
    CancelledTripGrows(db.desk, trip, desk);
    TripEndedAgency(db, e, trip);
    EndingKeeps(db, e, CancelTrips, key, TripCancelled(trip, reason), trip, records, now);
  }
}
