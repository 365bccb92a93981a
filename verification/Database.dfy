/** The database as the services see it: tables that statements update in place. */
module Database {
  import opened Wrappers
  import opened Money
  import opened Idempotency
  import Desks = TripDesk
  import Agencies = Settlements
  import Ledgers = GeneralLedger
  import opened Backend
  import opened BackendInvariants

  class Tables {
    var trips: seq<Desks.Trip>
    var seats: seq<Desks.Seat>
    var bookings: seq<Desks.Booking>
    var tickets: seq<Desks.Ticket>
    var payments: seq<Desks.Payment>
    var refunds: seq<Desks.Refund>
    var fee: Fee
    var agents: seq<Agencies.Agent>
    var commissions: seq<Agencies.Commission>
    var settlements: seq<Agencies.Settlement>
    var lines: map<nat, Agencies.Line>
    var accounts: nat
    var periods: seq<Ledgers.Period>
    var policies: map<EventKind, Ledgers.Policy>
    var entries: seq<Ledgers.Entry>
    var events: seq<Event>
    var expenses: seq<Expense>
    var records: Records<Payload>

    function Desk(): Desks.Desk reads this { Desks.Desk(trips, seats, bookings, tickets, payments, refunds, fee) }
    function Agency(): Agencies.Agency reads this { Agencies.Agency(agents, commissions, settlements, lines) }
    function Ledger(): Ledgers.Ledger reads this { Ledgers.Ledger(accounts, periods, policies, entries) }

    /** The whole content as one value. */
    function State(): Db reads this { Db(Desk(), Agency(), Ledger(), events, expenses, records) }

    ghost predicate Valid() reads this { DbInv(State()) }

    constructor ()
      ensures State() == EMPTY
    {
      trips, seats, bookings, tickets, payments, refunds, fee := [], [], [], [], [], [], 0;
      agents, commissions, settlements, lines := [], [], [], map[];
      accounts, periods, policies, entries := 0, [], map[], [];
      events, expenses, records := [], [], map[];
    }

    /** Undoes everything since the state was saved. */
    method Rollback(saved: Db)
      modifies this
      ensures State() == saved
    {
      RestoreDesk(saved.desk);
      RestoreBooks(saved.agency, saved.ledger);
      events, expenses, records := saved.events, saved.expenses, saved.records;
    }

    method RestoreDesk(d: Desks.Desk)
      modifies `trips, `seats, `bookings, `tickets, `payments, `refunds, `fee
      ensures Desk() == d
    {
      trips, seats, bookings, tickets, payments, refunds, fee := d.trips, d.seats, d.bookings, d.tickets, d.payments, d.refunds, d.fee;
    }

    method RestoreBooks(ag: Agencies.Agency, l: Ledgers.Ledger)
      modifies `agents, `commissions, `settlements, `lines, `accounts, `periods, `policies, `entries
      ensures Agency() == ag && Ledger() == l
    {
      agents, commissions, settlements, lines := ag.agents, ag.commissions, ag.settlements, ag.lines;
      accounts, periods, policies, entries := l.accounts, l.periods, l.policies, l.entries;
    }

    /** Adds an event to the outbox unless there is one of this kind for this row. */
    method EnqueueEvent(kind: EventKind, row: nat, now: int)
      modifies this`events
      ensures events == Enqueue(old(events), kind, row, now)
    {
      if !HasEvent(events, kind, row) { events := events + [Event(kind, row, Waiting, 0, None, now, None, now)]; }
    }

    /** Inserts a refund. The trigger on refunds adds it to the payment's refunded amount and
        refuses a refund of nothing or of more than is left. */
    method InsertRefund(booking: nat, payment: nat, amount: nat) returns (ok: bool)
      modifies this`refunds, this`payments
      ensures ok == (payment < |old(payments)| && old(payments)[payment].booking == booking
                     && 0 < amount && old(payments)[payment].refunded + amount <= old(payments)[payment].amount)
      ensures ok ==> refunds == old(refunds) + [Desks.Refund(booking, payment, amount)]
      ensures ok ==> payments == old(payments)[payment := Desks.AfterRefund(old(payments)[payment], amount)]
      ensures !ok ==> refunds == old(refunds) && payments == old(payments)
    {
      ok := payment < |payments| && payments[payment].booking == booking
            && 0 < amount && payments[payment].refunded + amount <= payments[payment].amount;
      if ok {
        refunds := refunds + [Desks.Refund(booking, payment, amount)];
        payments := payments[payment := Desks.AfterRefund(payments[payment], amount)];
      }
    }

    /** The conditional update that books a seat; it says how many rows it changed. */
    method BookSeat(seat: nat, user: nat, now: int) returns (count: nat)
      modifies this`seats
      ensures count == if seat < |old(seats)| && Desks.Claimable(old(seats)[seat], user, now) then 1 else 0
      ensures seats == if count == 1 then old(seats)[seat := old(seats)[seat].(status := Desks.Booked)] else old(seats)
    {
      count := 0;
      if seat < |seats| && Desks.Claimable(seats[seat], user, now) {
        seats := seats[seat := seats[seat].(status := Desks.Booked)];
        count := 1;
      }
    }

    /** Starts an operation under an idempotency key: it is refused, or replayed, or entered as new. */
    method BeginOperation(endpoint: Endpoint, key: Key, payload: Payload, now: int) returns (r: Result<Option<Option<nat>>>)
      modifies this`records
      ensures match Begin(old(records), endpoint, key, payload, now)
        case Failure(error) => r == Failure(error) && records == old(records)
        case Success(Replay(resource)) => r == Success(Some(resource)) && records == old(records)
        case Success(Fresh(after)) => r == Success(None) && records == after
    {
      if !ValidKey(key) { return Failure(BadRequest); }
      if (endpoint, key) in records {
        if records[(endpoint, key)].expires > now {
          if records[(endpoint, key)].payload != payload { return Failure(Conflict); }
          return Success(Some(records[(endpoint, key)].resource));
        }
        records := records - {(endpoint, key)};
      }
      records := records[(endpoint, key) := Record(payload, None, now + RETENTION_MS)];
      assert records == old(records)[(endpoint, key) := Record(payload, None, now + RETENTION_MS)];
      return Success(None);
    }

    method CompleteOperation(endpoint: Endpoint, key: Key, resource: nat)
      requires (endpoint, key) in records
      modifies this`records
      ensures records == Complete(old(records), endpoint, key, resource)
    {
      records := records[(endpoint, key) := records[(endpoint, key)].(resource := Some(resource))];
    }
  }

  /** A service call did what the request does to the whole database, and reports its outcome. */
  predicate Serves<T>(before: Db, request: Request, now: int, after: Db, r: Result<T>) {
    match Handle(before, request, now)
    case Success(e) => r.Success? && after == e
    case Failure(error) => r.Failure? && r.error == error && after == before
  }
}
