/** What every request keeps true of the database as a whole, across its tables. */
module BackendInvariants {
  import opened Wrappers
  import opened Idempotency
  import DI = DeskInvariants
  import Desks = TripDesk
  import Agencies = Settlements
  import Ledgers = GeneralLedger
  import opened Backend

  // ---------------------------------------------------------------- history only grows

  predicate DeskGrows(d: Desks.Desk, e: Desks.Desk) {
    && |d.trips| <= |e.trips| && |d.bookings| <= |e.bookings| && |d.tickets| <= |e.tickets| && |d.payments| <= |e.payments|
    && d.refunds <= e.refunds
    && (forall b :: 0 <= b < |d.bookings| ==> BookingGrows(d.bookings[b], e.bookings[b]))
    && (forall t :: 0 <= t < |d.tickets| ==> e.tickets[t].(status := d.tickets[t].status) == d.tickets[t])
    && (forall p :: 0 <= p < |d.payments| ==> e.payments[p].booking == d.payments[p].booking && e.payments[p].amount == d.payments[p].amount)
  }

  /** A booking changes its status only, and once ended it stays as it ended. */
  predicate BookingGrows(b: Desks.Booking, c: Desks.Booking) {
    c.(status := b.status) == b && (!Desks.Live(b) ==> c.status == b.status)
  }

  predicate SettlementsGrow(s: seq<Agencies.Settlement>, r: seq<Agencies.Settlement>) {
    |s| <= |r| && forall i :: 0 <= i < |s| && s[i].settled ==> r[i] == s[i]
  }

  predicate ExpensesGrow(x: seq<Expense>, y: seq<Expense>) {
    |x| <= |y| && forall i :: 0 <= i < |x| && x[i].status != Drafted ==>
      y[i].status != Drafted && y[i].amount == x[i].amount && x[i].adjustments <= y[i].adjustments
  }

  /** A journal entry never changes but for its status, which moves forward only. */
  predicate EntriesGrow(x: seq<Ledgers.Entry>, y: seq<Ledgers.Entry>) {
    |x| <= |y| && forall i :: 0 <= i < |x| ==> EntryGrows(x[i], y[i])
  }

  predicate EntryGrows(x: Ledgers.Entry, y: Ledgers.Entry) {
    y.(status := x.status) == x && (x.status != Ledgers.Draft ==> y.status != Ledgers.Draft)
    && (x.status == Ledgers.Reversed ==> y.status == Ledgers.Reversed)
  }

  /** An event keeps what it is about, and once linked to an entry it keeps that entry. */
  predicate EventsGrow(x: seq<Event>, y: seq<Event>) {
    |x| <= |y| && forall i :: 0 <= i < |x| ==> EventGrows(x[i], y[i])
  }

  predicate EventGrows(x: Event, y: Event) {
    y.kind == x.kind && y.row == x.row && y.createdAt == x.createdAt && (x.entry.Some? ==> y.entry == x.entry)
  }

  predicate Grows(db: Db, e: Db) {
    EventsGrow(db.events, e.events) && DeskGrows(db.desk, e.desk) && SettlementsGrow(db.agency.settlements, e.agency.settlements)
    && ExpensesGrow(db.expenses, e.expenses) && EntriesGrow(db.ledger.entries, e.ledger.entries)
  }

  // ---------------------------------------------------------------- commissions follow bookings

  predicate CommissionFollows(db: Db, c: Agencies.Commission) {
    && c.booking < |db.desk.bookings| && db.desk.bookings[c.booking].agent == Some(c.agent)
    && (c.reversed <==> db.desk.bookings[c.booking].status != Desks.Confirmed)
  }

  predicate HasCommission(commissions: seq<Agencies.Commission>, ticket: nat) {
    exists c :: 0 <= c < |commissions| && commissions[c].ticket == ticket
  }

  predicate ThroughAgent(d: Desks.Desk, t: Desks.Ticket) {
    t.booking < |d.bookings| && d.bookings[t.booking].agent.Some?
  }

  /** A commission is unreversed exactly while its booking is confirmed, and every ticket sold
      through an agent has one. */
  predicate CommissionsFollow(db: Db) {
    && (forall c :: 0 <= c < |db.agency.commissions| ==> CommissionFollows(db, db.agency.commissions[c]))
    && (forall t :: 0 <= t < |db.desk.tickets| && ThroughAgent(db.desk, db.desk.tickets[t]) ==> HasCommission(db.agency.commissions, t))
  }

  // ---------------------------------------------------------------- the outbox is exact

  /** The business facts that owe the books an entry. */
  predicate Owed(db: Db, kind: EventKind, row: nat) {
    match kind
    case PaymentReceived => row < |db.desk.payments|
    case RefundCompleted => row < |db.desk.refunds|
    case ExpenseApproved => row < |db.expenses| && db.expenses[row].status != Drafted
    case AgentSettlement => row < |db.agency.settlements| && db.agency.settlements[row].settled
  }

  ghost predicate OutboxExact(db: Db) {
    && (forall kind: EventKind, row: nat :: HasEvent(db.events, kind, row) <==> Owed(db, kind, row))
    && EventsUnique(db.events)
  }

  predicate EventsUnique(events: seq<Event>) {
    forall e, f :: 0 <= e < f < |events| ==> events[e].kind != events[f].kind || events[e].row != events[f].row
  }

  // ---------------------------------------------------------------- events and their entries

  predicate CarriesAmount(lines: seq<Ledgers.Line>, amount: int) {
    |lines| == 2 && lines[0].debit == amount * 100 && lines[0].credit == 0 && lines[1].debit == 0 && lines[1].credit == amount * 100
  }

  /** An event's entry is the one entry of its source and carries the amount of the source. (An
      expense can be adjusted after it was posted.) */
  predicate LinkOk(db: Db, kind: EventKind, row: nat, entry: nat) {
    && entry < |db.ledger.entries|
    && db.ledger.entries[entry].source == Ledgers.Business(kind, row) && db.ledger.entries[entry].status != Ledgers.Draft
    && (kind != Ledgers.ExpenseApproved ==>
          Resolve(db, kind, row).Success? && CarriesAmount(db.ledger.entries[entry].lines, Resolve(db, kind, row).value))
  }

  predicate EventOk(db: Db, event: Event) {
    && event.attempts <= MAX_ATTEMPTS
    && (event.status == Failed ==> event.lease.None?)
    && (event.status == Done ==> event.entry.Some?)
    && (event.entry.Some? ==> LinkOk(db, event.kind, event.row, event.entry.value))
  }

  predicate EventsOk(db: Db) { forall e :: 0 <= e < |db.events| ==> EventOk(db, db.events[e]) }

  // ---------------------------------------------------------------- idempotency records

  /** A record tells what its request did. Only postings can leave an unfinished record. */
  predicate RecordOk(db: Db, endpoint: Endpoint, record: Record<Payload>) {
    match endpoint
    case CancelBookings => record.payload.BookingCancelled? && record.resource == Some(record.payload.booking)
      && record.payload.booking < |db.desk.bookings| && !Desks.Live(db.desk.bookings[record.payload.booking])
    case CancelTrips => record.payload.TripCancelled? && record.resource == Some(record.payload.trip) && record.payload.trip < |db.desk.trips|
    case ReverseEntries => record.payload.EntryReversed? && record.resource.Some? && record.resource.value < |db.ledger.entries|
      && db.ledger.entries[record.resource.value].reversalOf == Some(record.payload.entry)
    case PostEvents => record.payload.EventPosted? && (record.resource.Some? ==>
      record.resource.value < |db.ledger.entries| && db.ledger.entries[record.resource.value].status != Ledgers.Draft
      && db.ledger.entries[record.resource.value].source == Ledgers.Business(record.payload.kind, record.payload.row))
  }

  predicate RecordsOk(db: Db) { forall k :: k in db.records ==> RecordOk(db, k.0, db.records[k]) }

  ghost predicate DbInv(db: Db) {
    && DI.DeskInv(db.desk) && Agencies.AgencyInv(db.agency, db.desk.tickets) && Ledgers.LedgerInv(db.ledger)
    && CommissionsFollow(db) && OutboxExact(db) && EventsOk(db) && RecordsOk(db)
  }

  // ---------------------------------------------------------------- what growth preserves

  lemma ResolveStable(db: Db, e: Db, kind: EventKind, row: nat)
    requires Grows(db, e) && kind != Ledgers.ExpenseApproved && Resolve(db, kind, row).Success?
    ensures Resolve(e, kind, row) == Resolve(db, kind, row)
  {}

  lemma LinkStable(db: Db, e: Db, kind: EventKind, row: nat, entry: nat)
    requires Grows(db, e) && LinkOk(db, kind, row, entry)
    ensures LinkOk(e, kind, row, entry)
  {
    if kind != Ledgers.ExpenseApproved { ResolveStable(db, e, kind, row); }
  }

  lemma EventStable(db: Db, e: Db, event: Event)
    requires Grows(db, e) && EventOk(db, event)
    ensures EventOk(e, event)
  {
    if event.entry.Some? { LinkStable(db, e, event.kind, event.row, event.entry.value); }
  }

  lemma RecordStable(db: Db, e: Db, endpoint: Endpoint, record: Record<Payload>)
    requires Grows(db, e) && RecordOk(db, endpoint, record)
    ensures RecordOk(e, endpoint, record)
  {
    if endpoint == CancelBookings {
      assert BookingGrows(db.desk.bookings[record.payload.booking], e.desk.bookings[record.payload.booking]);
    }
  }

  /** Requests that leave events and records alone. */
  lemma QuietKeeps(db: Db, e: Db)
    requires Grows(db, e) && EventsOk(db) && RecordsOk(db) && e.events == db.events && e.records == db.records
    ensures EventsOk(e) && RecordsOk(e)
  {
    forall i | 0 <= i < |e.events| ensures EventOk(e, e.events[i]) { EventStable(db, e, db.events[i]); }
    forall k | k in e.records ensures RecordOk(e, k.0, e.records[k]) { RecordStable(db, e, k.0, db.records[k]); }
  }

  lemma EnqueueKeepsEvents(db: Db, e: Db, events: seq<Event>, kind: EventKind, row: nat, now: int)
    requires Grows(db, e) && e.events == Enqueue(events, kind, row, now)
    requires forall i :: 0 <= i < |events| ==> EventOk(db, events[i])
    ensures EventsOk(e)
  {
    forall i | 0 <= i < |e.events| ensures EventOk(e, e.events[i]) {
      if i < |events| { EventStable(db, e, events[i]); }
    }
  }

  /** An enqueued event is there afterwards, and no other event is new. */
  lemma Enqueued(events: seq<Event>, kind: EventKind, row: nat, now: int)
    requires EventsUnique(events)
    ensures var after := Enqueue(events, kind, row, now);
      && EventsUnique(after) && events <= after
      && forall k: EventKind, r: nat :: HasEvent(after, k, r) <==> HasEvent(events, k, r) || (k == kind && r == row)
  {
    var after := Enqueue(events, kind, row, now);
    forall k: EventKind, r: nat ensures HasEvent(after, k, r) <==> HasEvent(events, k, r) || (k == kind && r == row) {
      if HasEvent(events, k, r) { var i :| 0 <= i < |events| && events[i].kind == k && events[i].row == r; assert after[i] == events[i]; }
      if k == kind && r == row && !HasEvent(events, k, r) { assert after[|events|].kind == k && after[|events|].row == r; }
    }
    if after != events {
      forall e, f | 0 <= e < f < |after| ensures after[e].kind != after[f].kind || after[e].row != after[f].row {
        assert after[e] == events[e] && !HasEvent(events, kind, row);
      }
    }
  }

  lemma {:induction false} RefundsEnqueued(events: seq<Event>, first: nat, last: nat, now: int)
    requires first <= last && EventsUnique(events)
    ensures var after := EnqueueRefunds(events, first, last, now);
      && EventsUnique(after) && events <= after
      && forall k: EventKind, r: nat :: HasEvent(after, k, r) <==>
           HasEvent(events, k, r) || (k == Ledgers.RefundCompleted && first <= r < last)
    decreases last - first
  {
    hide EventsUnique, HasEvent, Enqueue;
    if first < last {
      RefundsEnqueued(events, first, last - 1, now);
      Enqueued(EnqueueRefunds(events, first, last - 1, now), Ledgers.RefundCompleted, last - 1, now);
    }
  }

  lemma {:induction false} RefundEventsOk(db: Db, events: seq<Event>, first: nat, last: nat, now: int)
    requires first <= last && forall i :: 0 <= i < |events| ==> EventOk(db, events[i])
    ensures forall i :: 0 <= i < |EnqueueRefunds(events, first, last, now)| ==> EventOk(db, EnqueueRefunds(events, first, last, now)[i])
    decreases last - first
  {
    if first < last { RefundEventsOk(db, events, first, last - 1, now); }
  }

  // ---------------------------------------------------------------- the order of the queue

  predicate Open(events: seq<Event>, locked: set<nat>, now: int, e: nat) {
    e < |events| && Claimable(events[e], now) && e !in locked
  }

  /** This event comes before any other that can be claimed; no event at all means that none can. */
  ghost predicate FirstInLine(events: seq<Event>, locked: set<nat>, now: int, from: nat, next: Option<nat>) {
    if next.None? then forall e: nat :: from <= e ==> !Open(events, locked, now, e)
    else Open(events, locked, now, next.value) && forall e: nat :: from <= e && Open(events, locked, now, e) ==>
      events[next.value].createdAt < events[e].createdAt || (events[next.value].createdAt == events[e].createdAt && next.value <= e)
  }

  /** The event taken from the queue was created no later than any other that could have been taken. */
  lemma {:induction false} OldestFirst(events: seq<Event>, locked: set<nat>, now: int, from: nat)
    requires from <= |events|
    ensures FirstInLine(events, locked, now, from, NextEvent(events, locked, now, from))
    decreases |events| - from
  {
    if from < |events| {
      OldestFirst(events, locked, now, from + 1);
      forall e: nat | from <= e && Open(events, locked, now, e) ensures e == from || from + 1 <= e {}
    }
  }
}
