/** When requests under idempotency keys succeed, and what they record. */
module RequestTerms {
  import opened Wrappers
  import opened Idempotency
  import DI = DeskInvariants
  import Desks = TripDesk
  import Agencies = Settlements
  import Ledgers = GeneralLedger
  import LT = LedgerTerms
  import opened Backend
  import opened BackendInvariants
  import Selling
  import Refunds
  import TripTerms
  import BookRuns
  import Money
  import BackendProofs
  import PostingProofs
  import opened Runs

  // ---------------------------------------------------------------- keys

  /** Keys that clients send have 8 to 128 characters. */
  predicate KeyFits(key: Key) {
    match key
    case Client(text) => 8 <= |text| && |text| <= 128
    case ForEvent(_) => true
  }

  /** The key was not used for this in the last 24 hours. */
  predicate Free(db: Db, endpoint: Endpoint, key: Key, now: int) {
    (endpoint, key) in db.records ==> db.records[(endpoint, key)].expires <= now
  }

  /** The request is recorded under its key for 24 hours, and no other record changes. */
  predicate Recorded(db: Db, e: Db, endpoint: Endpoint, key: Key, payload: Payload, resource: nat, now: int) {
    e.records == db.records[(endpoint, key) := Record(payload, Some(resource), now + 86400000)]
  }

  /** A key in use is answered from its record, a free one starts a new record. */
  lemma BeginExactly(db: Db, endpoint: Endpoint, key: Key, payload: Payload, now: int)
    ensures Begin(db.records, endpoint, key, payload, now) ==
      if !KeyFits(key) then Failure(BadRequest)
      else if Free(db, endpoint, key, now) then Success(Fresh(db.records[(endpoint, key) := Record(payload, None, now + 86400000)]))
      else if db.records[(endpoint, key)].payload == payload then Success(Replay(db.records[(endpoint, key)].resource))
      else Failure(Conflict)
    ensures ValidKey(key) <==> KeyFits(key)
  {}

  /** What the invariant says about a record. */
  lemma RecordIs(db: Db, endpoint: Endpoint, key: Key)
    requires DbInv(db) && (endpoint, key) in db.records
    ensures RecordOk(db, endpoint, db.records[(endpoint, key)])
  {}

  // ---------------------------------------------------------------- cancellations

  /** The commissions on these bookings are reversed, all of them and no others. */
  predicate CommissionsReversed(x: seq<Agencies.Commission>, y: seq<Agencies.Commission>, ended: set<nat>) {
    |y| == |x| && forall c :: 0 <= c < |x| ==> y[c] == if x[c].booking in ended then x[c].(reversed := true) else x[c]
  }

  lemma ReversalIs(commissions: seq<Agencies.Commission>, booking: nat)
    ensures CommissionsReversed(commissions, Agencies.Reverse(commissions, booking), {booking})
  {}

  predicate Sees(db: Db, principal: Option<nat>, booking: nat) {
    booking < |db.desk.bookings| && (principal.None? || principal == db.desk.bookings[booking].agent)
  }

  lemma BookingEndedIs(db: Db, booking: nat, key: Key, reason: string, now: int)
    requires Desks.CancelBooking(db.desk, booking).Success?
    ensures var records := db.records[(CancelBookings, key) := Record(BookingCancelled(booking, reason), None, now + 86400000)];
      CancelledUnder(db, BookingEnded(db, booking, Desks.CancelBooking(db.desk, booking).value, records, key, now), booking, key,
                     BookingCancelled(booking, reason), now)
  {
    ReversalIs(db.agency.commissions, booking);
    hide Desks.CancelBooking, Agencies.Reverse, CommissionsReversed, EnqueueRefunds;
  }

  /** Under a free key, cancelling a booking succeeds exactly when the key fits, the user may see the booking,
      and it can be cancelled. The commissions on the booking are reversed and the key is recorded. */
  lemma FirstCancellation(db: Db, booking: nat, reason: string, key: Key, principal: Option<nat>, now: int)
    requires DbInv(db) && Free(db, CancelBookings, key, now)
    ensures var r := CancelBooking(db, booking, reason, key, principal, now);
      && (r.Success? <==> KeyFits(key) && Sees(db, principal, booking) && Refunds.CanCancel(db.desk, booking))
      && (r.Success? ==> r.value.1 == booking && CancelledUnder(db, r.value.0, booking, key, BookingCancelled(booking, reason), now))
  {
    Refunds.CancellationExactly(db.desk, booking);
    BeginExactly(db, CancelBookings, key, BookingCancelled(booking, reason), now);
    var r := CancelBooking(db, booking, reason, key, principal, now);
    if r.Success? {
      var records := db.records[(CancelBookings, key) := Record(BookingCancelled(booking, reason), None, now + 86400000)];
      assert r.value == (BookingEnded(db, booking, Desks.CancelBooking(db.desk, booking).value, records, key, now), booking);
      BookingEndedIs(db, booking, key, reason, now);
    }
    hide BookingEnded, CancelledUnder;
    hide DbInv, Desks.CancelBooking, EnqueueRefunds, Refunds.SeatsFreed, Refunds.TripReopened, Begin, ValidKey, KeyFits, Refunds.CanCancel;
  }

  predicate CancelledUnder(db: Db, e: Db, booking: nat, key: Key, payload: Payload, now: int) {
    && Desks.CancelBooking(db.desk, booking) == Success(e.desk)
    && Recorded(db, e, CancelBookings, key, payload, booking, now)
    && CommissionsReversed(db.agency.commissions, e.agency.commissions, {booking})
  }

  lemma RefusedCancellation(db: Db, booking: nat, reason: string, key: Key, principal: Option<nat>, now: int)
    requires DbInv(db) && Free(db, CancelBookings, key, now) && CancelBooking(db, booking, reason, key, principal, now).Failure?
    ensures CancelBooking(db, booking, reason, key, principal, now).error
      == if !KeyFits(key) then BadRequest else if !Sees(db, principal, booking) then NotFound else Conflict
  {
    Refunds.CancellationExactly(db.desk, booking);
    BeginExactly(db, CancelBookings, key, BookingCancelled(booking, reason), now);
    hide DbInv, Desks.CancelBooking, BookingEnded, Begin, ValidKey, KeyFits, Refunds.CanCancel, Refunds.SeatsFreed, Refunds.TripReopened;
  }

  /** Under a used key the same cancellation changes nothing and any other is refused. */
  lemma RepeatedCancellation(db: Db, booking: nat, reason: string, key: Key, principal: Option<nat>, now: int)
    requires DbInv(db) && !Free(db, CancelBookings, key, now)
    ensures CancelBooking(db, booking, reason, key, principal, now) ==
      if !KeyFits(key) then Failure(BadRequest)
      else if !Sees(db, principal, booking) then Failure(NotFound)
      else if db.records[(CancelBookings, key)].payload == BookingCancelled(booking, reason) then Success((db, booking))
      else Failure(Conflict)
  {
    BeginExactly(db, CancelBookings, key, BookingCancelled(booking, reason), now);
    RecordIs(db, CancelBookings, key);
    hide DbInv, Begin, ValidKey, KeyFits, Desks.CancelBooking;
  }

  function LiveBookings(d: Desks.Desk, trip: nat, n: nat): set<nat> { set b: nat | b < n && Refunds.LiveOn(d, trip, b) }

  lemma {:induction false} TripReversalIs(commissions: seq<Agencies.Commission>, d: Desks.Desk, trip: nat, n: nat)
    requires n <= |d.bookings|
    ensures CommissionsReversed(commissions, ReverseTrip(commissions, d.bookings, trip, n), LiveBookings(d, trip, n))
  {
    if n > 0 {
      TripReversalIs(commissions, d, trip, n - 1);
      var before, last := LiveBookings(d, trip, n - 1), LiveBookings(d, trip, n);
      assert last == if Refunds.LiveOn(d, trip, n - 1) then before + {n - 1} else before;
    }
  }

  /** Under a free key, cancelling a trip succeeds exactly when the key fits and the trip is neither cancelled
      nor completed. The commissions on the live bookings of the trip are reversed and the key is recorded. */
  lemma FirstTripCancellation(db: Db, trip: nat, reason: string, key: Key, now: int)
    requires Free(db, CancelTrips, key, now)
    ensures var r := CancelTrip(db, trip, reason, key, now);
      && (r.Success? <==> KeyFits(key) && Refunds.CanCancelTrip(db.desk, trip))
      && (r.Failure? ==> r.error == if !KeyFits(key) then BadRequest else if trip < |db.desk.trips| then Conflict else NotFound)
      && (r.Success? ==> r.value.1 == trip && TripCancelledUnder(db, r.value.0, trip, key, Payload.TripCancelled(trip, reason), now))
  {
    Refunds.TripCancellationExactly(db.desk, trip);
    TripReversalIs(db.agency.commissions, db.desk, trip, |db.desk.bookings|);
    BeginExactly(db, CancelTrips, key, Payload.TripCancelled(trip, reason), now);
    hide Desks.CancelTrip, EnqueueRefunds, ReverseTrip, CommissionsReversed, Begin, ValidKey, KeyFits, LiveBookings, Refunds.CanCancelTrip;
  }

  predicate TripCancelledUnder(db: Db, e: Db, trip: nat, key: Key, payload: Payload, now: int) {
    && Desks.CancelTrip(db.desk, trip) == Success(e.desk)
    && Recorded(db, e, CancelTrips, key, payload, trip, now)
    && CommissionsReversed(db.agency.commissions, e.agency.commissions, LiveBookings(db.desk, trip, |db.desk.bookings|))
  }

  lemma RepeatedTripCancellation(db: Db, trip: nat, reason: string, key: Key, now: int)
    requires DbInv(db) && !Free(db, CancelTrips, key, now)
    ensures CancelTrip(db, trip, reason, key, now) ==
      if !KeyFits(key) then Failure(BadRequest)
      else if db.records[(CancelTrips, key)].payload == Payload.TripCancelled(trip, reason) then Success((db, trip))
      else Failure(Conflict)
  {
    BeginExactly(db, CancelTrips, key, Payload.TripCancelled(trip, reason), now);
    RecordIs(db, CancelTrips, key);
    hide DbInv, Begin, ValidKey, KeyFits, Desks.CancelTrip, ReverseTrip;
  }

  // ---------------------------------------------------------------- orders

  /** The booking carries the key and the user may see it. */
  predicate Repeats(db: Db, o: Order, booking: nat) {
    booking < |db.desk.bookings| && db.desk.bookings[booking].key == o.key
    && (o.principal.None? || o.principal == db.desk.bookings[booking].agent)
  }

  /** A fitting key that a booking carries already brings that booking back, if the user may see it, and
      changes nothing; an order under a key that no booking carries is accepted on its merits. */
  lemma OrderRequest(db: Db, o: Order, now: int)
    requires DI.SeatLinks(db.desk) && DI.KeysUnique(db.desk) && o.seats != []
    ensures var r := Book(db, o, now);
      && (!KeyFits(o.key) ==> r == Failure(BadRequest))
      && (forall b: nat :: KeyFits(o.key) && Repeats(db, o, b) ==> r == Success((db, b)))
      && (KeyFits(o.key) && (forall b: nat :: !Repeats(db, o, b)) ==>
            r == if OrderFault(db, o, now).None? then Success((Sold(db, o, now), |db.desk.bookings|)) else Failure(OrderFault(db, o, now).value))
  {
    hide OrderFault, Sold, DI.SeatLinks;
    Selling.KeySearch(db.desk.bookings, o.key, 0);
    assert Replayed(db, o).Some? ==> Repeats(db, o, Replayed(db, o).value);
  }

  // ---------------------------------------------------------------- viewing and editing trips

  predicate Expired(s: Desks.Seat, trip: nat, now: int) { s.trip == trip && s.status.Held? && s.status.until < now }

  /** Anybody can view an existing trip. Its holds that have run out end, the seats it lacks are added, and
      nothing else changes. */
  lemma ViewExactly(db: Db, trip: nat, template: seq<Desks.TemplateSeat>, now: int)
    ensures var r, d, n := ViewSeats(db, trip, template, now), db.desk, |db.desk.seats|;
      && (r.Success? <==> trip < |d.trips|)
      && (r.Success? ==>
            var seats := r.value.desk.seats;
            && r.value == db.(desk := d.(seats := seats)) && n <= |seats|
            && (forall i :: 0 <= i < n ==> seats[i] == if Expired(d.seats[i], trip, now) then d.seats[i].(status := Desks.Available) else d.seats[i])
            && seats[n..] == Desks.Repair(d, trip, template).seats[n..])
  {
    if trip < |db.desk.trips| {
      var n, seats := |db.desk.seats|, ViewSeats(db, trip, template, now).value.desk.seats;
      assert forall i :: n <= i < |seats| ==> seats[i] == Desks.Repair(db.desk, trip, template).seats[i];
    }
  }

  /** So afterwards no hold on the trip has run out, and a trip that had a seat has every seat of its template. */
  lemma ViewLeaves(db: Db, trip: nat, template: seq<Desks.TemplateSeat>, now: int, s: Desks.TemplateSeat)
    requires DI.NamesDiffer(template) && s in template
    requires ViewSeats(db, trip, template, now).Success? && exists i :: 0 <= i < |db.desk.seats| && db.desk.seats[i].trip == trip
    ensures var seats := ViewSeats(db, trip, template, now).value.desk.seats;
      && (forall i :: 0 <= i < |seats| ==> !Expired(seats[i], trip, now))
      && exists i :: 0 <= i < |seats| && seats[i].trip == trip && seats[i].name == s.name
  {
    var seats, repaired := ViewSeats(db, trip, template, now).value.desk.seats, Desks.Repair(db.desk, trip, template).seats;
    TripTerms.RepairCompletes(db.desk, trip, template, s);
    hide Desks.Repair;
    var i :| 0 <= i < |repaired| && repaired[i].trip == trip && repaired[i].name == s.name;
    assert seats[i].trip == trip && seats[i].name == s.name;
  }

  /** A trip can be edited exactly when it exists and is not to become CANCELLED by the edit. */
  lemma EditAccepted(db: Db, trip: nat, price: Option<nat>, status: Option<Desks.TripStatus>)
    ensures var r := UpdateTrip(db, trip, price, status);
      && (r.Success? <==> trip < |db.desk.trips| && status != Some(Desks.Cancelled))
      && (r.Success? ==> r.value == db.(desk := Desks.Edit(db.desk, trip, price, status)))
      && (r.Failure? ==> r.error == if status == Some(Desks.Cancelled) then BadRequest else NotFound)
  {}

  // ---------------------------------------------------------------- reversals and postings

  /** Under a free key, reversing an entry succeeds exactly when the key fits, the entry is posted, the period
      is open on the date, and number and source are new. The reversal is added and the key is recorded. */
  lemma FirstReversal(db: Db, id: nat, period: nat, number: Ledgers.EntryNumber, date: int, reason: string, key: Key, now: int)
    requires DbInv(db) && Free(db, ReverseEntries, key, now)
    ensures var r, l := ReverseEntry(db, id, period, number, date, reason, key, now), db.ledger;
      && (r.Success? <==> KeyFits(key) && id < |l.entries| && l.entries[id].status == Ledgers.Posted
                          && LT.OpenOn(l, period, date) && LT.Unused(l, number, Ledgers.Reversal(id)))
      && (r.Success? ==> r.value.1 == |l.entries| && LT.ReversalAdded(l, r.value.0.ledger, id, period, number, date)
                         && Recorded(db, r.value.0, ReverseEntries, key, EntryReversed(id, period, number, date, reason), |l.entries|, now))
  {
    LT.ReversalExactly(db.ledger, id, period, number, date);
    BeginExactly(db, ReverseEntries, key, EntryReversed(id, period, number, date, reason), now);
    hide DbInv, Ledgers.ReverseEntry, LT.ReversalAdded, LT.Unused, LT.OpenOn, Begin, ValidKey, KeyFits;
  }

  lemma RepeatedReversal(db: Db, id: nat, period: nat, number: Ledgers.EntryNumber, date: int, reason: string, key: Key, now: int)
    requires DbInv(db) && !Free(db, ReverseEntries, key, now)
    ensures var r, record := ReverseEntry(db, id, period, number, date, reason, key, now), db.records[(ReverseEntries, key)];
      && (r.Success? <==> KeyFits(key) && record.payload == EntryReversed(id, period, number, date, reason))
      && (r.Success? ==> r.value.0 == db && Some(r.value.1) == record.resource && r.value.1 < |db.ledger.entries|
                         && db.ledger.entries[r.value.1].reversalOf == Some(id))
  {
    BeginExactly(db, ReverseEntries, key, EntryReversed(id, period, number, date, reason), now);
    RecordIs(db, ReverseEntries, key);
    hide DbInv, Begin, ValidKey, KeyFits, Ledgers.ReverseEntry;
  }

  lemma PostedLines(db: Db, kind: EventKind, row: nat, period: nat, number: Ledgers.EntryNumber, date: int)
    requires Ledgers.PoliciesOk(db.ledger) && kind in db.ledger.policies && Resolve(db, kind, row).Success?
    ensures Ledgers.CreateEntry(db.ledger, period, number, date, Ledgers.Business(kind, row),
                                EventLines(db.ledger.policies[kind], Resolve(db, kind, row).value)).Success?
      <==> Resolve(db, kind, row).value > 0 && LT.OpenOn(db.ledger, period, date) && LT.Unused(db.ledger, number, Ledgers.Business(kind, row))
  {
    var amount, lines := Resolve(db, kind, row).value, EventLines(db.ledger.policies[kind], Resolve(db, kind, row).value);
    BookRuns.CarriedTotals(lines, amount);
    hide Resolve, Ledgers.Debits, Ledgers.Credits;
    if amount > 0 { LT.DraftExactly(db.ledger, period, number, date, Ledgers.Business(kind, row), lines); }
  }

  /** Posting an event under a free key succeeds exactly when its type has a policy, there is an amount above
      zero to post, the period is open on the date, and number and source are new; otherwise at most an
      unfinished record of the key is left behind. */
  lemma FreshPosting(db: Db, kind: EventKind, row: nat, period: nat, number: Ledgers.EntryNumber, date: int, description: string, key: Key, now: int)
    requires DbInv(db) && Free(db, PostEvents, key, now)
    ensures var r, l := Post(db, kind, row, period, number, date, description, key, now), db.ledger;
      && (r.Posted? <==>
            && KeyFits(key) && kind in l.policies && Resolve(db, kind, row).Success? && Resolve(db, kind, row).value > 0
            && LT.OpenOn(l, period, date) && LT.Unused(l, number, Ledgers.Business(kind, row)))
      && (r.Stopped? ==> r.records == if !KeyFits(key) then db.records
            else db.records[(PostEvents, key) := Record(EventPosted(kind, row, period, number, date, description), None, now + 86400000)])
  {
    BeginExactly(db, PostEvents, key, EventPosted(kind, row, period, number, date, description), now);
    assert Ledgers.PoliciesOk(db.ledger);
    hide DbInv, Resolve, Begin, KeyFits, Ledgers.PoliciesOk;
    if kind in db.ledger.policies && Resolve(db, kind, row).Success? {
      var lines := EventLines(db.ledger.policies[kind], Resolve(db, kind, row).value);
      PostedLines(db, kind, row, period, number, date);
      if Ledgers.CreateEntry(db.ledger, period, number, date, Ledgers.Business(kind, row), lines).Success? {
        FreshDraftPosts(db.ledger, period, number, date, Ledgers.Business(kind, row), lines);
      }
    }
    hide EventLines, Ledgers.CreateEntry, Ledgers.PostEntry, LT.OpenOn, LT.Unused, MarkPosted, Free;
  }

  predicate EventsMarked(x: seq<Event>, y: seq<Event>, kind: EventKind, row: nat, entry: nat) {
    |y| == |x| && forall e :: 0 <= e < |x| ==>
      y[e] == if x[e].kind == kind && x[e].row == row
              then Event(kind, row, Done, x[e].attempts, Some(entry), x[e].availableAt, None, x[e].createdAt) else x[e]
  }

  /** It adds one posted entry under the number, on the date and in the period asked for, marks the event of
      this source as posted under it and frees its lease, and records the key. */
  lemma FreshPostingWrites(db: Db, kind: EventKind, row: nat, period: nat, number: Ledgers.EntryNumber, date: int, description: string, key: Key, now: int)
    requires Free(db, PostEvents, key, now) && Post(db, kind, row, period, number, date, description, key, now).Posted?
    ensures var r, l := Post(db, kind, row, period, number, date, description, key, now), db.ledger;
      && r.entry == |l.entries| && |r.db.ledger.entries| == |l.entries| + 1 && l.entries <= r.db.ledger.entries
      && r.db.ledger.entries[r.entry]
         == Ledgers.Entry(period, number, date, Ledgers.Business(kind, row), Ledgers.Posted, None, r.db.ledger.entries[r.entry].lines)
      && EventsMarked(db.events, r.db.events, kind, row, r.entry)
      && Recorded(db, r.db, PostEvents, key, EventPosted(kind, row, period, number, date, description), r.entry, now)
      && r.db == db.(ledger := l.(entries := r.db.ledger.entries), events := r.db.events, records := r.db.records)
  {
    BeginExactly(db, PostEvents, key, EventPosted(kind, row, period, number, date, description), now);
    hide Begin, KeyFits, PostFresh;
    var begun := Begin(db.records, PostEvents, key, EventPosted(kind, row, period, number, date, description), now);
    PostingProofs.FreshPostingIs(db, kind, row, period, number, date, key, begun.value.records);
  }

  lemma FreshDraftPosts(l: Ledgers.Ledger, period: nat, number: Ledgers.EntryNumber, date: int, source: Ledgers.Source, lines: seq<Ledgers.Line>)
    requires Ledgers.CreateEntry(l, period, number, date, source, lines).Success?
    ensures Ledgers.PostEntry(Ledgers.CreateEntry(l, period, number, date, source, lines).value, |l.entries|).Success?
  {}

  // ---------------------------------------------------------------- the fee

  lemma RequestKeepsFee(db: Db, r: Request, now: int)
    ensures Apply(db, r, now).desk.fee == if r.SetFee? then r.fee else db.desk.fee
  {
    hide OrderFault, ReverseTrip, Desks.SoldSeats, Desks.NewTickets;
    if !BackendProofs.SeatRequest(r) && !r.PlaceOrder? && !r.DropBooking? && !r.DropTrip? {
      OtherRequestsMoveNoSeat(db, r, now);
      hide Apply;
    }
  }

  lemma {:induction false} FeeStays(db: Db, steps: seq<Step>)
    requires forall i :: 0 <= i < |steps| ==> !steps[i].request.SetFee?
    ensures Run(db, steps).desk.fee == db.desk.fee
  {
    if steps != [] {
      FeeStays(db, steps[..|steps| - 1]);
      RequestKeepsFee(Run(db, steps[..|steps| - 1]), steps[|steps| - 1].request, steps[|steps| - 1].now);
    }
  }

  /** Once a fee is set it is what every cancellation of a booking keeps, to within half a cent, through any run
      until it is set again. */
  lemma {:induction false} FeeIsKept(db: Db, fee: Money.Fee, start: int, steps: seq<Step>, booking: nat)
    requires DbInv(db) && forall i :: 0 <= i < |steps| ==> !steps[i].request.SetFee?
    requires Desks.CancelBooking(Run(Apply(db, SetFee(fee), start), steps).desk, booking).Success?
    ensures var d := Run(Apply(db, SetFee(fee), start), steps).desk;
      var e := Desks.CancelBooking(d, booking).value;
      booking < |d.payments| && booking < |e.payments| && Refunds.PaidBackNearly(d.payments[booking].amount, e.payments[booking].refunded, fee)
  {
    var first := Apply(db, SetFee(fee), start);
    PostingProofs.RequestKeeps(db, SetFee(fee), start);
    RequestKeepsFee(db, SetFee(fee), start);
    RunKeeps(first, steps);
    FeeStays(first, steps);
    hide Apply, Desks.CancelBooking, Refunds.PaidBackNearly;
    Refunds.BookingRefundNearly(Run(first, steps).desk, booking);
  }

  // ---------------------------------------------------------------- expenses and events

  // ---------------------------------------------------------------- what requests leave behind

  function Kept(db: Db, r: Result<Db>): Db { if r.Success? then r.value else db }

  /** What requests of the counter leave behind: a trip with its seats, the edit, the seat given back, the
      manifest, the departure. A refused request leaves nothing. */
  lemma CounterRequests(db: Db, r: Request, now: int)
    requires WellFormed(r)
    ensures r.CreateTrip? ==> Apply(db, r, now) == db.(desk := Desks.AddTrip(db.desk, r.template, r.price, r.status))
    ensures r.ViewTripSeats? ==> Apply(db, r, now) == Kept(db, ViewSeats(db, r.trip, r.template, now))
    ensures r.EditTrip? ==> Apply(db, r, now) == Kept(db, UpdateTrip(db, r.trip, r.newPrice, r.newStatus))
    ensures r.ReleaseSeat? ==> Apply(db, r, now) == db.(desk := Desks.Release(db.desk, r.user, r.seat))
    ensures r.MakeManifest? && r.trip < |db.desk.trips| ==> Apply(db, r, now) == db.(desk := Desks.Manifested(db.desk, r.trip))
    ensures r.LockTripManifest? ==>
      Apply(db, r, now) == if Desks.LockManifest(db.desk, r.trip).Success? then db.(desk := Desks.LockManifest(db.desk, r.trip).value) else db
  {
    hide WellFormed, Desks.AddTrip, ViewSeats, UpdateTrip, Desks.Release, Desks.Manifested, Desks.LockManifest;
  }

  /** And those of the office: new agents, expenses and accounts get the next number, an edit replaces the data
      of one agent, and settlements, expenses, periods and events change as described. */
  lemma OfficeRequests(db: Db, r: Request, now: int)
    requires WellFormed(r)
    ensures r.AddAgent? ==> Apply(db, r, now) == db.(agency := db.agency.(agents := db.agency.agents + [r.agent]))
    ensures r.EditAgent? && r.agentId < |db.agency.agents| ==>
      Apply(db, r, now) == db.(agency := db.agency.(agents := db.agency.agents[r.agentId := r.agent]))
    ensures r.AddExpense? ==> Apply(db, r, now) == db.(expenses := db.expenses + [Expense(r.amount, Drafted, [])])
    ensures r.AddAccount? ==> Apply(db, r, now) == db.(ledger := db.ledger.(accounts := db.ledger.accounts + 1))
    ensures r.ChangeExpense? ==> Apply(db, r, now) == Kept(db, EditExpense(db, r.expense, r.amount))
    ensures r.SettleSettlement? ==> Apply(db, r, now) == Kept(db, Settle(db, r.settlement, now))
    ensures r.RequeueEvent? ==> Apply(db, r, now) == Kept(db, Requeue(db, r.event, now))
    ensures r.CloseFiscalPeriod? && Ledgers.ClosePeriod(db.ledger, r.period).Success? ==>
      Apply(db, r, now) == db.(ledger := Ledgers.ClosePeriod(db.ledger, r.period).value)
    ensures r.DrawUpSettlement? && Agencies.Generate(db.agency, db.desk.tickets, r.agentId, r.fromDay, r.toDay).Success? ==>
      Apply(db, r, now) == db.(agency := Agencies.Generate(db.agency, db.desk.tickets, r.agentId, r.fromDay, r.toDay).value.0)
  {
    hide WellFormed, EditExpense, Settle, Requeue, Ledgers.ClosePeriod, Agencies.Generate;
  }

  /** Only drafts of expenses are approved or edited and only approved expenses are adjusted; each changes the
      one expense and nothing else of it. */
  lemma ExpensesExactly(db: Db, id: nat, amount: nat, adjustment: Adjustment, now: int)
    ensures var known, x := id < |db.expenses|, if id < |db.expenses| then db.expenses[id] else Expense(0, Drafted, []);
      && ApproveExpense(db, id, now) == (if !known then Failure(NotFound) else if x.status != Drafted then Failure(Conflict)
           else Success(db.(expenses := db.expenses[id := Expense(x.amount, Approved, x.adjustments)],
                            events := Enqueue(db.events, Ledgers.ExpenseApproved, id, now))))
      && EditExpense(db, id, amount) == (if !known then Failure(NotFound) else if x.status != Drafted then Failure(Conflict)
           else Success(db.(expenses := db.expenses[id := Expense(amount, Drafted, x.adjustments)])))
      && AdjustExpense(db, id, adjustment) == (if !known then Failure(NotFound) else if x.status == Drafted then Failure(Conflict)
           else Success(db.(expenses := db.expenses[id := Expense(x.amount, Adjusted, x.adjustments + [adjustment])])))
  {}

  /** Only a failed event can be requeued: it waits again with no attempts counted and can be claimed at once. */
  lemma RequeueExactly(db: Db, id: nat, now: int)
    ensures var r := Requeue(db, id, now);
      && (r.Success? <==> id < |db.events| && db.events[id].status == Failed) && (r.Failure? ==> r.error == Conflict)
      && (r.Success? ==>
            && r.value == db.(events := r.value.events) && |r.value.events| == |db.events|
            && r.value.events[id] == Event(db.events[id].kind, db.events[id].row, Waiting, 0, db.events[id].entry, now, None, db.events[id].createdAt)
            && Claimable(r.value.events[id], now)
            && forall e :: 0 <= e < |db.events| && e != id ==> r.value.events[e] == db.events[e])
  {}
}
