/** Repeating a request: its idempotency record decides for a day what a retry does. */
module Retries {
  import opened Wrappers
  import opened Idempotency
  import Sums
  import Desks = TripDesk
  import DI = DeskInvariants
  import Selling
  import Agencies = Settlements
  import Ledgers = GeneralLedger
  import PostingProofs
  import opened Backend
  import opened BackendInvariants
  import opened Runs

  type RecordKey = (Endpoint, Key)

  // ---------------------------------------------------------------- records last

  predicate Alive(records: Records<Payload>, k: RecordKey, now: int) { k in records && records[k].expires > now }

  lemma BeginKeeps(records: Records<Payload>, endpoint: Endpoint, key: Key, payload: Payload, now: int, k: RecordKey)
    requires Alive(records, k, now) && Begin(records, endpoint, key, payload, now).Success?
    requires Begin(records, endpoint, key, payload, now).value.Fresh?
    ensures k != (endpoint, key) && var after := Begin(records, endpoint, key, payload, now).value.records; k in after && after[k] == records[k]
  {}

  predicate Kept(db: Db, e: Db, k: RecordKey) { k in db.records && k in e.records && e.records[k] == db.records[k] }

  lemma PostKeepsRecord(db: Db, kind: EventKind, row: nat, period: nat, number: Ledgers.EntryNumber, date: int, description: string, key: Key, now: int, k: RecordKey)
    requires Alive(db.records, k, now)
    ensures var p := Post(db, kind, row, period, number, date, description, key, now);
      if p.Posted? then Kept(db, p.db, k) else k in p.records && p.records[k] == db.records[k]
  {
    var begun := Begin(db.records, PostEvents, key, EventPosted(kind, row, period, number, date, description), now);
    if begun.Success? && begun.value.Fresh? {
      BeginKeeps(db.records, PostEvents, key, EventPosted(kind, row, period, number, date, description), now, k);
      if PostFresh(db, kind, row, period, number, date, key, begun.value.records).Posted? {
        PostingProofs.FreshPostingIs(db, kind, row, period, number, date, key, begun.value.records);
      }
    }
  }

  lemma ProcessKeepsRecord(db: Db, id: nat, now: int, k: RecordKey)
    requires Alive(db.records, k, now)
    ensures var p := ProcessEvent(db, id, now); if p.Posted? then Kept(db, p.db, k) else k in p.records && p.records[k] == db.records[k]
  {
    if id < |db.events| && !(db.events[id].status == Done && db.events[id].entry.Some?) {
      var event := db.events[id];
      var period := Ledgers.OpenPeriodFor(db.ledger.periods, DayOf(event.createdAt), |db.ledger.periods|);
      if period.Some? {
        PostKeepsRecord(db, event.kind, event.row, period.value, Ledgers.Auto(id), DayOf(event.createdAt), "auto", ForEvent(id), now, k);
      }
    }
  }

  predicate Recording(r: Request) {
    r.DropBooking? || r.DropTrip? || r.UndoEntry? || r.PostByHand? || r.WorkerProcesses? || r.ProcessNextEvent?
  }

  predicate OfDesk(r: Request) {
    r.CreateTrip? || r.ViewTripSeats? || r.EditTrip? || r.HoldSeat? || r.ReleaseSeat? || r.PlaceOrder? || r.MakeManifest?
    || r.LockTripManifest? || r.SetFee?
  }

  lemma DeskRequestKeepsRecords(db: Db, r: Request, now: int)
    requires OfDesk(r)
    ensures Apply(db, r, now).records == db.records
  {
    hide OrderFault, Desks.Sell, Desks.Hold, Desks.LockManifest, Desks.Edit, Desks.Repair, WellFormed;
  }

  lemma QuietRequestKeepsRecords(db: Db, r: Request, now: int)
    requires !Recording(r)
    ensures Apply(db, r, now).records == db.records
  {
    hide WellFormed, Agencies.Generate, Agencies.Settle, Ledgers.CreateEntry, Ledgers.PostEntry, Ledgers.ClosePeriod;
    if OfDesk(r) { DeskRequestKeepsRecords(db, r, now); }
  }

  lemma CancellationKeepsRecord(db: Db, r: Request, now: int, k: RecordKey)
    requires Alive(db.records, k, now) && (r.DropBooking? || r.DropTrip? || r.UndoEntry?)
    ensures Kept(db, Apply(db, r, now), k)
  {
    hide Desks.CancelBooking, Desks.CancelTrip, Ledgers.ReverseEntry;
  }

  lemma PostingKeepsRecord(db: Db, r: Request, now: int, k: RecordKey)
    requires Alive(db.records, k, now) && (r.PostByHand? || r.WorkerProcesses? || r.ProcessNextEvent?)
    ensures Kept(db, Apply(db, r, now), k)
  {
    hide Post, ProcessEvent;
    if r.PostByHand? {
      PostKeepsRecord(db, r.kind, r.row, r.period, r.number, r.date, r.description, r.key, now, k);
    } else if r.WorkerProcesses? {
      ProcessKeepsRecord(db, r.event, now, k);
    } else {
      var next := NextEvent(db.events, r.locked, now, 0);
      if next.Some? { ProcessKeepsRecord(Claim(db, next.value, r.user, now), next.value, now, k); }
    }
  }

  /** No request changes a record before the record expires. */
  lemma RequestKeepsRecord(db: Db, r: Request, now: int, k: RecordKey)
    requires Alive(db.records, k, now)
    ensures Kept(db, Apply(db, r, now), k)
  {
    hide Apply;
    if r.DropBooking? || r.DropTrip? || r.UndoEntry? {
      CancellationKeepsRecord(db, r, now, k);
    } else if r.PostByHand? || r.WorkerProcesses? || r.ProcessNextEvent? {
      PostingKeepsRecord(db, r, now, k);
    } else {
      QuietRequestKeepsRecords(db, r, now);
    }
  }

  predicate Before(steps: seq<Step>, time: int) { forall i :: 0 <= i < |steps| ==> steps[i].now < time }

  lemma {:induction false} RecordLasts(db: Db, steps: seq<Step>, k: RecordKey)
    requires k in db.records && Before(steps, db.records[k].expires)
    ensures Kept(db, Run(db, steps), k)
  {
    if steps != [] {
      var before, last := steps[..|steps| - 1], steps[|steps| - 1];
      RecordLasts(db, before, k);
      RequestKeepsRecord(Run(db, before), last.request, last.now, k);
    }
  }

  /** While its record lives, a key takes effect once: the same payload replays the first resource,
      another payload is refused. */
  lemma {:induction false} RecordDecides(db: Db, steps: seq<Step>, endpoint: Endpoint, key: Key, again: Payload, now: int)
    requires ValidKey(key) && (endpoint, key) in db.records && Before(steps, db.records[(endpoint, key)].expires)
    requires now < db.records[(endpoint, key)].expires
    ensures Begin(Run(db, steps).records, endpoint, key, again, now)
      == if again == db.records[(endpoint, key)].payload then Success(Replay(db.records[(endpoint, key)].resource)) else Failure(Conflict)
  {
    RecordLasts(db, steps, (endpoint, key));
  }

  // ---------------------------------------------------------------- the four endpoints

  predicate TookEffect(db: Db, endpoint: Endpoint, key: Key, payload: Payload, now: int) {
    Begin(db.records, endpoint, key, payload, now).Success? && Begin(db.records, endpoint, key, payload, now).value.Fresh?
  }

  lemma {:induction false} GrowsAfter(db: Db, r: Request, now: int, steps: seq<Step>)
    requires DbInv(db)
    ensures Grows(db, Run(Apply(db, r, now), steps)) && Grows(Apply(db, r, now), Run(Apply(db, r, now), steps))
  {
    PostingProofs.RequestKeeps(db, r, now);
    RunKeeps(Apply(db, r, now), steps);
    PostingProofs.GrowsFurther(db, Apply(db, r, now), Run(Apply(db, r, now), steps));
  }

  lemma BookingStillVisible(db: Db, f: Db, booking: nat, principal: Option<nat>)
    requires Grows(db, f) && booking < |db.desk.bookings| && (principal.Some? ==> db.desk.bookings[booking].agent == principal)
    ensures booking < |f.desk.bookings| && (principal.Some? ==> f.desk.bookings[booking].agent == principal)
  {
    assert BookingGrows(db.desk.bookings[booking], f.desk.bookings[booking]);
  }

  lemma CancelledRecord(db: Db, booking: nat, reason: string, key: Key, principal: Option<nat>, now: int)
    requires CancelBooking(db, booking, reason, key, principal, now).Success?
    requires TookEffect(db, CancelBookings, key, BookingCancelled(booking, reason), now)
    ensures var e := CancelBooking(db, booking, reason, key, principal, now).value.0;
      && e == Apply(db, DropBooking(booking, reason, key, principal), now) && ValidKey(key)
      && booking < |db.desk.bookings| && (principal.Some? ==> db.desk.bookings[booking].agent == principal)
      && (CancelBookings, key) in e.records
      && e.records[(CancelBookings, key)] == Record(BookingCancelled(booking, reason), Some(booking), now + RETENTION_MS)
  {}

  /** A booking cancelled under a key: for 24 hours a retry changes nothing and yields the booking,
      and a different cancellation under the key is refused. */
  lemma BookingCancelledOnce(db: Db, booking: nat, reason: string, key: Key, principal: Option<nat>, now: int,
                             steps: seq<Step>, other: nat, words: string, later: int)
    requires DbInv(db) && CancelBooking(db, booking, reason, key, principal, now).Success?
    requires TookEffect(db, CancelBookings, key, BookingCancelled(booking, reason), now)
    requires Before(steps, now + RETENTION_MS) && later < now + RETENTION_MS
    ensures var f := Run(CancelBooking(db, booking, reason, key, principal, now).value.0, steps);
      && CancelBooking(f, booking, reason, key, principal, later) == Success((f, booking))
      && ((other, words) != (booking, reason) ==> CancelBooking(f, other, words, key, principal, later).Failure?)
  {
    hide DbInv;
    var e := CancelBooking(db, booking, reason, key, principal, now).value.0;
    CancelledRecord(db, booking, reason, key, principal, now);
    GrowsAfter(db, DropBooking(booking, reason, key, principal), now, steps);
    BookingStillVisible(db, Run(e, steps), booking, principal);
    RecordDecides(e, steps, CancelBookings, key, BookingCancelled(booking, reason), later);
    RecordDecides(e, steps, CancelBookings, key, BookingCancelled(other, words), later);
  }

  lemma TripRecord(db: Db, trip: nat, reason: string, key: Key, now: int)
    requires CancelTrip(db, trip, reason, key, now).Success?
    requires TookEffect(db, CancelTrips, key, TripCancelled(trip, reason), now)
    ensures var e := CancelTrip(db, trip, reason, key, now).value.0;
      && e == Apply(db, DropTrip(trip, reason, key), now) && ValidKey(key) && trip < |e.desk.trips|
      && (CancelTrips, key) in e.records
      && e.records[(CancelTrips, key)] == Record(TripCancelled(trip, reason), Some(trip), now + RETENTION_MS)
  {
    hide Desks.VoidTrip, ReverseTrip;
  }

  lemma {:induction false} TripCancelledOnce(db: Db, trip: nat, reason: string, key: Key, now: int, steps: seq<Step>, other: nat, words: string, later: int)
    requires DbInv(db) && CancelTrip(db, trip, reason, key, now).Success?
    requires TookEffect(db, CancelTrips, key, TripCancelled(trip, reason), now)
    requires Before(steps, now + RETENTION_MS) && later < now + RETENTION_MS
    ensures var f := Run(CancelTrip(db, trip, reason, key, now).value.0, steps);
      && CancelTrip(f, trip, reason, key, later) == Success((f, trip))
      && ((other, words) != (trip, reason) ==> CancelTrip(f, other, words, key, later) == Failure(Conflict))
  {
    hide DbInv, Run, Apply, Desks.CancelTrip, TripEnded;
    var e := CancelTrip(db, trip, reason, key, now).value.0;
    TripRecord(db, trip, reason, key, now);
    GrowsAfter(db, DropTrip(trip, reason, key), now, steps);
    RecordDecides(e, steps, CancelTrips, key, TripCancelled(trip, reason), later);
    RecordDecides(e, steps, CancelTrips, key, TripCancelled(other, words), later);
  }

  lemma ReversedRecord(db: Db, entry: nat, period: nat, number: Ledgers.EntryNumber, date: int, reason: string, key: Key, now: int)
    requires ReverseEntry(db, entry, period, number, date, reason, key, now).Success?
    requires TookEffect(db, ReverseEntries, key, EntryReversed(entry, period, number, date, reason), now)
    ensures var (e, reversal) := ReverseEntry(db, entry, period, number, date, reason, key, now).value;
      && e == Apply(db, UndoEntry(entry, period, number, date, reason, key), now) && ValidKey(key)
      && reversal == |db.ledger.entries| < |e.ledger.entries| && (ReverseEntries, key) in e.records
      && e.records[(ReverseEntries, key)] == Record(EntryReversed(entry, period, number, date, reason), Some(reversal), now + RETENTION_MS)
  {}

  /** The same for reversals: a retry yields the first reversal, and a reversal of another entry, into
      another period, under another number, date or reason, is refused. */
  lemma EntryReversedOnce(db: Db, entry: nat, period: nat, number: Ledgers.EntryNumber, date: int, reason: string, key: Key, now: int,
                          steps: seq<Step>, other: Payload, later: int)
    requires DbInv(db) && ReverseEntry(db, entry, period, number, date, reason, key, now).Success?
    requires TookEffect(db, ReverseEntries, key, EntryReversed(entry, period, number, date, reason), now)
    requires Before(steps, now + RETENTION_MS) && later < now + RETENTION_MS
    requires other.EntryReversed? && other != EntryReversed(entry, period, number, date, reason)
    ensures var (e, reversal) := ReverseEntry(db, entry, period, number, date, reason, key, now).value;
      var f := Run(e, steps);
      && reversal == |db.ledger.entries|
      && ReverseEntry(f, entry, period, number, date, reason, key, later) == Success((f, reversal))
      && ReverseEntry(f, other.entry, other.period, other.number, other.date, other.reason, key, later) == Failure(Conflict)
  {
    hide DbInv, Run, Apply, Ledgers.ReverseEntry;
    var e := ReverseEntry(db, entry, period, number, date, reason, key, now).value.0;
    ReversedRecord(db, entry, period, number, date, reason, key, now);
    GrowsAfter(db, UndoEntry(entry, period, number, date, reason, key), now, steps);
    RecordDecides(e, steps, ReverseEntries, key, EntryReversed(entry, period, number, date, reason), later);
    RecordDecides(e, steps, ReverseEntries, key, other, later);
  }

  lemma PostedRecord(db: Db, kind: EventKind, row: nat, period: nat, number: Ledgers.EntryNumber, date: int, description: string, key: Key, now: int)
    requires Post(db, kind, row, period, number, date, description, key, now).Posted?
    requires TookEffect(db, PostEvents, key, EventPosted(kind, row, period, number, date, description), now)
    ensures var p := Post(db, kind, row, period, number, date, description, key, now);
      && p.db == Apply(db, PostByHand(kind, row, period, number, date, description, key), now) && ValidKey(key)
      && p.entry < |p.db.ledger.entries| && (PostEvents, key) in p.db.records
      && p.db.records[(PostEvents, key)] == Record(EventPosted(kind, row, period, number, date, description), Some(p.entry), now + RETENTION_MS)
  {
    var payload := EventPosted(kind, row, period, number, date, description);
    PostingProofs.FreshPostingIs(db, kind, row, period, number, date, key, Begin(db.records, PostEvents, key, payload, now).value.records);
  }

  /** The same for postings: a retry yields the first entry, and a posting that differs in anything is refused. */
  lemma EventPostedOnce(db: Db, kind: EventKind, row: nat, period: nat, number: Ledgers.EntryNumber, date: int, description: string,
                        key: Key, now: int, steps: seq<Step>, other: Payload, later: int)
    requires DbInv(db) && Post(db, kind, row, period, number, date, description, key, now).Posted?
    requires TookEffect(db, PostEvents, key, EventPosted(kind, row, period, number, date, description), now)
    requires Before(steps, now + RETENTION_MS) && later < now + RETENTION_MS
    requires other.EventPosted? && other != EventPosted(kind, row, period, number, date, description)
    ensures var p := Post(db, kind, row, period, number, date, description, key, now);
      var f := Run(p.db, steps);
      && Post(f, kind, row, period, number, date, description, key, later) == Posted(f, p.entry)
      && Post(f, other.kind, other.row, other.period, other.number, other.date, other.description, key, later) == Stopped(Conflict, f.records)
  {
    hide DbInv, Run, Apply, PostFresh;
    var p := Post(db, kind, row, period, number, date, description, key, now);
    var payload := EventPosted(kind, row, period, number, date, description);
    PostedRecord(db, kind, row, period, number, date, description, key, now);
    GrowsAfter(db, PostByHand(kind, row, period, number, date, description, key), now, steps);
    RecordDecides(p.db, steps, PostEvents, key, payload, later);
    RecordDecides(p.db, steps, PostEvents, key, other, later);
  }

  // ---------------------------------------------------------------- orders

  /** A key finds the one booking that was made with it. */
  lemma KeyFinds(d: Desks.Desk, booking: nat)
    requires DI.KeysUnique(d) && booking < |d.bookings|
    ensures Desks.BookingWithKey(d.bookings, d.bookings[booking].key, 0) == Some(booking)
  {
    var key := d.bookings[booking].key;
    Selling.KeySearch(d.bookings, key, 0);
    var found := Desks.BookingWithKey(d.bookings, key, 0);
    assert found.Some? && d.bookings[found.value].key == d.bookings[booking].key;
  }

  lemma {:induction false} KeysStayUnique(db: Db, r: Request, now: int, steps: seq<Step>)
    requires DbInv(db)
    ensures DI.KeysUnique(Run(Apply(db, r, now), steps).desk)
  {
    PostingProofs.RequestKeeps(db, r, now);
    RunKeeps(Apply(db, r, now), steps);
  }

  lemma OrderApplied(db: Db, o: Order, now: int)
    requires ValidKey(o.key) && o.seats != [] && Replayed(db, o).None? && OrderFault(db, o, now).None?
    ensures var e, booking := Sold(db, o, now), |db.desk.bookings|;
      && Apply(db, PlaceOrder(o), now) == e && booking < |e.desk.bookings|
      && e.desk.bookings[booking].agent == AgentFor(o) && e.desk.bookings[booking].key == o.key
  {}

  lemma {:induction false} KeyFindsLater(db: Db, o: Order, now: int, steps: seq<Step>)
    requires DbInv(db) && ValidKey(o.key) && o.seats != [] && Replayed(db, o).None? && OrderFault(db, o, now).None?
    ensures var f, booking := Run(Sold(db, o, now), steps), |db.desk.bookings|;
      && booking < |f.desk.bookings| && f.desk.bookings[booking].agent == AgentFor(o)
      && Desks.BookingWithKey(f.desk.bookings, o.key, 0) == Some(booking)
  {
    var e, booking := Sold(db, o, now), |db.desk.bookings|;
    OrderApplied(db, o, now);
    GrowsAfter(db, PlaceOrder(o), now, steps);
    KeysStayUnique(db, PlaceOrder(o), now, steps);
    assert BookingGrows(e.desk.bookings[booking], Run(e, steps).desk.bookings[booking]);
    KeyFinds(Run(e, steps).desk, booking);
  }

  /** The key of a booking is used up for good: a later order with it, whatever it asks for, gets
      the first booking back, or is refused to an agent who did not make it. */
  lemma OrderTakenOnce(db: Db, o: Order, now: int, steps: seq<Step>, again: Order, later: int)
    requires DbInv(db) && ValidKey(o.key) && o.seats != [] && Replayed(db, o).None? && OrderFault(db, o, now).None? && again.key == o.key
    ensures var f, booking := Run(Sold(db, o, now), steps), |db.desk.bookings|;
      && booking < |f.desk.bookings|
      && (again.principal.None? || again.principal == AgentFor(o) ==> Book(f, again, later) == Success((f, booking)))
      && (again.principal.Some? && again.principal != AgentFor(o) ==> Book(f, again, later).Failure?)
  {
    KeyFindsLater(db, o, now, steps);
    KeyRefuses(Run(Sold(db, o, now), steps), again, later);
  }

  lemma KeyRefuses(f: Db, o: Order, now: int)
    requires Desks.BookingWithKey(f.desk.bookings, o.key, 0).Some?
    ensures OrderFault(f, o, now).Some?
  {}

  // ---------------------------------------------------------------- a retry that cannot work

  /** Nothing stands in the way of posting an event: it has no entry, its period is open, its kind
      has a policy, its source has a positive amount, and no entry took its number or source. */
  predicate Ready(db: Db, id: nat) {
    && id < |db.events| && db.events[id].entry.None?
    && Ledgers.OpenPeriodFor(db.ledger.periods, DayOf(db.events[id].createdAt), |db.ledger.periods|).Some?
    && db.events[id].kind in db.ledger.policies
    && Resolve(db, db.events[id].kind, db.events[id].row).Success? && Resolve(db, db.events[id].kind, db.events[id].row).value > 0
    && !Ledgers.NumberTaken(db.ledger.entries, Ledgers.Auto(id))
    && !Ledgers.SourceTaken(db.ledger.entries, Ledgers.Business(db.events[id].kind, db.events[id].row))
  }

  lemma EventLinesFine(policy: Ledgers.Policy, amount: int)
    requires amount > 0
    ensures Ledgers.Balanced(EventLines(policy, amount))
  {
    var lines := EventLines(policy, amount);
    Sums.TotalTwo(Ledgers.DebitAt(lines));
    Sums.TotalTwo(Ledgers.CreditAt(lines));
  }

  lemma ReadyCreates(db: Db, id: nat)
    requires Ledgers.LedgerInv(db.ledger) && Ready(db, id)
    ensures var event := db.events[id];
      var period := Ledgers.OpenPeriodFor(db.ledger.periods, DayOf(event.createdAt), |db.ledger.periods|).value;
      var created := Ledgers.CreateEntry(db.ledger, period, Ledgers.Auto(id), DayOf(event.createdAt),
        Ledgers.Business(event.kind, event.row), EventLines(db.ledger.policies[event.kind], Resolve(db, event.kind, event.row).value));
      created.Success? && Ledgers.PostEntry(created.value, |db.ledger.entries|).Success?
  {
    var event := db.events[id];
    EventLinesFine(db.ledger.policies[event.kind], Resolve(db, event.kind, event.row).value);
  }

  /** A worker that processes an event which is ready succeeds exactly when no live idempotency
      record exists under the event's key: a record left by an earlier failed attempt of a user
      blocks the event for 24 hours, even after the cause of the failure was removed. */
  lemma ReadyEventPostsExactly(db: Db, id: nat, now: int)
    requires DbInv(db) && Ready(db, id)
    ensures ProcessEvent(db, id, now).Posted? && ProcessEvent(db, id, now).db.events[id].status == Done
      <==> !Alive(db.records, (PostEvents, ForEvent(id)), now)
  {
    var event := db.events[id];
    assert EventOk(db, event);
    var period := Ledgers.OpenPeriodFor(db.ledger.periods, DayOf(event.createdAt), |db.ledger.periods|).value;
    var payload := EventPosted(event.kind, event.row, period, Ledgers.Auto(id), DayOf(event.createdAt), "auto");
    var begun := Begin(db.records, PostEvents, ForEvent(id), payload, now);
    if Alive(db.records, (PostEvents, ForEvent(id)), now) {
      var record := db.records[(PostEvents, ForEvent(id))];
      assert RecordOk(db, PostEvents, record);
      assert record.payload == payload && record.resource.Some? ==> Ledgers.SourceTaken(db.ledger.entries, Ledgers.Business(event.kind, event.row));
    } else {
      ReadyCreates(db, id);
      PostingProofs.FreshPostingIs(db, event.kind, event.row, period, Ledgers.Auto(id), DayOf(event.createdAt), ForEvent(id), begun.value.records);
    }
  }

  const UNPOSTED: Db := EMPTY.(ledger := Ledgers.Ledger(2, [Ledgers.Period(0, 100, false)], map[], []),
    expenses := [Expense(100, Approved, [])], events := [Event(Ledgers.ExpenseApproved, 0, Waiting, 0, None, 0, None, 0)])

  const PREPARED: seq<Step> := [] + [Step(AddAccount, 0)] + [Step(AddAccount, 0)] + [Step(AddFiscalPeriod(0, 100), 0)] + [Step(AddExpense(100), 0)]
    + [Step(ApproveTheExpense(0), 0)]

  /** An approved expense is processed by a user before its policy is set up. */
  const BLOCKED: seq<Step> := PREPARED + [Step(ProcessNextEvent(1, {}), 1000)] + [Step(SetPolicy(Ledgers.ExpenseApproved, 0, 1), 2000)]

  lemma LedgerSetUp()
    ensures var one, two := EMPTY.(ledger := EMPTY.ledger.(accounts := 1)), EMPTY.(ledger := EMPTY.ledger.(accounts := 2));
      && Apply(EMPTY, AddAccount, 0) == one && Apply(one, AddAccount, 0) == two
      && Apply(two, AddFiscalPeriod(0, 100), 0) == EMPTY.(ledger := UNPOSTED.ledger)
  {}

  lemma ExpenseSetUp()
    ensures var three := EMPTY.(ledger := UNPOSTED.ledger);
      Apply(Apply(three, AddExpense(100), 0), ApproveTheExpense(0), 0) == UNPOSTED
  {
    var three := EMPTY.(ledger := UNPOSTED.ledger);
    assert Apply(three, AddExpense(100), 0) == three.(expenses := [Expense(100, Drafted, [])]);
  }

  const FAILED: Db := UNPOSTED.(events := [Event(Ledgers.ExpenseApproved, 0, Failed, 1, None, 61000, None, 0)],
    records := map[(PostEvents, ForEvent(0)) := Record(EventPosted(Ledgers.ExpenseApproved, 0, 0, Ledgers.Auto(0), 0, "auto"), None, 1000 + RETENTION_MS)])

  lemma StoppedAttempt()
    ensures NextEvent(UNPOSTED.events, {}, 1000, 0) == Some(0)
    ensures ProcessEvent(Claim(UNPOSTED, 0, 1, 1000), 0, 1000) == Stopped(Conflict, FAILED.records)
  {
    assert Ledgers.OpenPeriodFor(UNPOSTED.ledger.periods, 0, 1) == Some(0) by { assert Ledgers.OpenPeriodFor(UNPOSTED.ledger.periods, 0, 0) == None; }
  }

  lemma FailedAttempt()
    ensures Apply(UNPOSTED, ProcessNextEvent(1, {}), 1000) == FAILED
  {
    StoppedAttempt();
    assert MarkFailed(Claim(UNPOSTED, 0, 1, 1000).(records := FAILED.records), 0, 1000) == FAILED;
  }

  lemma PolicyMended()
    ensures Apply(FAILED, SetPolicy(Ledgers.ExpenseApproved, 0, 1), 2000)
      == FAILED.(ledger := FAILED.ledger.(policies := map[Ledgers.ExpenseApproved := Ledgers.Policy(0, 1)]))
  {}

  lemma AfterPreparation()
    ensures Run(EMPTY, PREPARED) == UNPOSTED
  {
    var a := [] + [Step(AddAccount, 0)];
    var b := a + [Step(AddAccount, 0)];
    var c := b + [Step(AddFiscalPeriod(0, 100), 0)];
    LedgerSetUp();
    ExpenseSetUp();
    RunOneMore(EMPTY, [], AddAccount, 0);
    RunOneMore(EMPTY, a, AddAccount, 0);
    RunOneMore(EMPTY, b, AddFiscalPeriod(0, 100), 0);
    RunOneMore(EMPTY, c, AddExpense(100), 0);
    RunOneMore(EMPTY, c + [Step(AddExpense(100), 0)], ApproveTheExpense(0), 0);
    assert Run(EMPTY, []) == EMPTY;
  }

  lemma AfterBlocking()
    ensures Run(EMPTY, BLOCKED) == FAILED.(ledger := FAILED.ledger.(policies := map[Ledgers.ExpenseApproved := Ledgers.Policy(0, 1)]))
  {
    AfterPreparation();
    FailedAttempt();
    PolicyMended();
    RunOneMore(EMPTY, PREPARED, ProcessNextEvent(1, {}), 1000);
    RunOneMore(EMPTY, PREPARED + [Step(ProcessNextEvent(1, {}), 1000)], SetPolicy(Ledgers.ExpenseApproved, 0, 1), 2000);
  }

  /** A reachable state in which an event is ready and yet a worker's attempt is refused. */
  lemma BlockedEvent(now: int)
    requires now < 1000 + RETENTION_MS
    ensures Ready(Run(EMPTY, BLOCKED), 0) && ProcessEvent(Run(EMPTY, BLOCKED), 0, now).Stopped?
  {
    hide DbInv;
    AfterBlocking();
    var db := Run(EMPTY, BLOCKED);
    assert Ledgers.OpenPeriodFor(db.ledger.periods, 0, 1) == Some(0) by { assert Ledgers.OpenPeriodFor(db.ledger.periods, 0, 0) == None; }
    assert Ready(db, 0) by { assert Sums.Total(0, AdjustmentAt(db.expenses[0].adjustments)) == 0; }
    Reached(BLOCKED);
    ReadyEventPostsExactly(db, 0, now);
    assert Begin(db.records, PostEvents, ForEvent(0), db.records[(PostEvents, ForEvent(0))].payload, now) == Success(Replay(None));
  }
}
