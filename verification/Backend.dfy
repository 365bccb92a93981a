/** The whole database of one organisation and what every request does to it. A request is one
    database transaction: it ends in a new database, or it is refused and changes nothing. */
module Backend {
  import opened Wrappers
  import opened Sums
  import opened Money
  import opened Idempotency
  import Desks = TripDesk
  import Agencies = Settlements
  import Ledgers = GeneralLedger

  type EventKind = Ledgers.EventKind

  const LEASE_MS: int := 5 * 60000
  const MAX_ATTEMPTS: nat := 5

  datatype EventStatus = Waiting | Done | Failed
  datatype Lease = Lease(at: int, worker: nat)
  datatype Event = Event(kind: EventKind, row: nat, status: EventStatus, attempts: nat, entry: Option<nat>,
                         availableAt: int, lease: Option<Lease>, createdAt: int)

  datatype ExpenseStatus = Drafted | Approved | Adjusted
  datatype Adjustment = Increase(amount: nat) | Decrease(amount: nat)
  datatype Expense = Expense(amount: nat, status: ExpenseStatus, adjustments: seq<Adjustment>)

  datatype Payload =
    | BookingCancelled(booking: nat, reason: string)
    | TripCancelled(trip: nat, reason: string)
    | EventPosted(kind: EventKind, row: nat, period: nat, number: Ledgers.EntryNumber, date: int, description: string)
    | EntryReversed(entry: nat, period: nat, number: Ledgers.EntryNumber, date: int, reason: string)

  datatype Db = Db(desk: Desks.Desk, agency: Agencies.Agency, ledger: Ledgers.Ledger, events: seq<Event>,
                   expenses: seq<Expense>, records: Records<Payload>)

  const EMPTY: Db := Db(Desks.Desk([], [], [], [], [], [], 0), Agencies.Agency([], [], [], map[]),
                        Ledgers.Ledger(0, [], map[], []), [], [], map[])

  // ---------------------------------------------------------------- the outbox of accounting events

  predicate HasEvent(events: seq<Event>, kind: EventKind, row: nat) {
    exists e :: 0 <= e < |events| && events[e].kind == kind && events[e].row == row
  }

  function Enqueue(events: seq<Event>, kind: EventKind, row: nat, now: int): seq<Event> {
    if HasEvent(events, kind, row) then events else events + [Event(kind, row, Waiting, 0, None, now, None, now)]
  }

  /** One event for each refund from number first up to, but not including, last. */
  function EnqueueRefunds(events: seq<Event>, first: nat, last: nat, now: int): seq<Event>
    requires first <= last
    decreases last - first
  {
    if first == last then events
    else Enqueue(EnqueueRefunds(events, first, last - 1, now), Ledgers.RefundCompleted, last - 1, now)
  }

  // ---------------------------------------------------------------- bookings

  datatype Order = Order(user: nat, principal: Option<nat>, trip: nat, seats: seq<nat>, agent: Option<nat>, key: Key)

  function AgentFor(o: Order): Option<nat> { if o.principal.Some? then o.principal else o.agent }

  /** Why an order for new seats is refused, if it is. */
  function OrderFault(db: Db, o: Order, now: int): Option<Error> {
    var d, agent := db.desk, AgentFor(o);
    if o.trip >= |d.trips| then Some(NotFound)
    else if !Desks.Bookable(d.trips[o.trip].status) then Some(Conflict)
    else if o.principal.Some? && o.agent.Some? && o.agent != o.principal then Some(NotFound)
    else if agent.Some? && (agent.value >= |db.agency.agents| || !db.agency.agents[agent.value].active) then Some(NotFound)
    else if !Desks.AllFound(d, o.trip, o.seats) then Some(NotFound)
    else if !Desks.AllClaimable(d, o.seats, o.user, now) then Some(Conflict)
    else if Desks.BookingWithKey(d.bookings, o.key, 0).Some? then Some(Constraint)
    else if Desks.PriceOf(d.seats, o.seats) == 0 then Some(Constraint)
    else None
  }

  function Sold(db: Db, o: Order, now: int): Db
    requires OrderFault(db, o, now).None?
  {
    var desk := Desks.Sell(db.desk, o.trip, o.seats, AgentFor(o), o.key);
    var first := |db.desk.tickets|;
    db.(desk := desk,
        events := Enqueue(db.events, Ledgers.PaymentReceived, |db.desk.payments|, now),
        agency := if AgentFor(o).None? then db.agency
                  else db.agency.(commissions := db.agency.commissions
                    + Agencies.Earned(db.agency.agents[AgentFor(o).value].rate, AgentFor(o).value, desk.tickets, first, |o.seats|, now)))
  }

  /** The booking that an order with a used key gets back; agents see their own bookings only. */
  function Replayed(db: Db, o: Order): Option<nat> {
    var found := Desks.BookingWithKey(db.desk.bookings, o.key, 0);
    if found.Some? && found.value < |db.desk.bookings|
       && (o.principal.None? || db.desk.bookings[found.value].agent == o.principal) then found else None
  }

  function Book(db: Db, o: Order, now: int): Result<(Db, nat)> {
    if !ValidKey(o.key) then Failure(BadRequest)
    else if Replayed(db, o).Some? then Success((db, Replayed(db, o).value))
    else if OrderFault(db, o, now).Some? then Failure(OrderFault(db, o, now).value)
    else Success((Sold(db, o, now), |db.desk.bookings|))
  }

  function CancelBooking(db: Db, booking: nat, reason: string, key: Key, principal: Option<nat>, now: int): Result<(Db, nat)>
  {
    if !ValidKey(key) then Failure(BadRequest)
    else if booking >= |db.desk.bookings| then Failure(NotFound)
    else if principal.Some? && db.desk.bookings[booking].agent != principal then Failure(NotFound)
    else match Begin(db.records, CancelBookings, key, BookingCancelled(booking, reason), now)
      case Failure(error) => Failure(error)
      case Success(Replay(resource)) => Success((db, if resource.Some? then resource.value else booking))
      case Success(Fresh(records)) =>
        match Desks.CancelBooking(db.desk, booking)
        case Failure(error) => Failure(error)
        case Success(desk) => Success((BookingEnded(db, booking, desk, records, key, now), booking))
  }

  function BookingEnded(db: Db, booking: nat, desk: Desks.Desk, records: Records<Payload>, key: Key, now: int): Db {
    db.(desk := desk,
        agency := db.agency.(commissions := Agencies.Reverse(db.agency.commissions, booking)),
        events := if |db.desk.refunds| <= |desk.refunds| then EnqueueRefunds(db.events, |db.desk.refunds|, |desk.refunds|, now) else db.events,
        records := if (CancelBookings, key) in records then Complete(records, CancelBookings, key, booking) else records)
  }

  // ---------------------------------------------------------------- trips

  /** Commissions once those of the trip's live bookings among the first n are reversed. */
  function ReverseTrip(commissions: seq<Agencies.Commission>, bookings: seq<Desks.Booking>, trip: nat, n: nat): (after: seq<Agencies.Commission>)
    requires n <= |bookings|
    ensures |after| == |commissions|
  {
    if n == 0 then commissions
    else
      var after := ReverseTrip(commissions, bookings, trip, n - 1);
      if bookings[n - 1].trip == trip && Desks.Live(bookings[n - 1]) then Agencies.Reverse(after, n - 1) else after
  }

  function CancelTrip(db: Db, trip: nat, reason: string, key: Key, now: int): Result<(Db, nat)>
  {
    match Begin(db.records, CancelTrips, key, TripCancelled(trip, reason), now)
    case Failure(error) => Failure(error)
    case Success(Replay(resource)) => if trip < |db.desk.trips| then Success((db, trip)) else Failure(Conflict)
    case Success(Fresh(records)) =>
      match Desks.CancelTrip(db.desk, trip)
      case Failure(error) => Failure(error)
      case Success(desk) => Success((TripEnded(db, trip, desk, records, key, now), trip))
  }

  function TripEnded(db: Db, trip: nat, desk: Desks.Desk, records: Records<Payload>, key: Key, now: int): Db {
    db.(desk := desk,
        agency := db.agency.(commissions := ReverseTrip(db.agency.commissions, db.desk.bookings, trip, |db.desk.bookings|)),
        events := if |db.desk.refunds| <= |desk.refunds| then EnqueueRefunds(db.events, |db.desk.refunds|, |desk.refunds|, now) else db.events,
        records := if (CancelTrips, key) in records then Complete(records, CancelTrips, key, trip) else records)
  }

  function ViewSeats(db: Db, trip: nat, template: seq<Desks.TemplateSeat>, now: int): Result<Db> {
    if trip >= |db.desk.trips| then Failure(NotFound)
    else Success(db.(desk := Desks.ExpireHolds(Desks.Repair(db.desk, trip, template), trip, now)))
  }

  function UpdateTrip(db: Db, trip: nat, price: Option<nat>, status: Option<Desks.TripStatus>): Result<Db> {
    if status == Some(Desks.Cancelled) then Failure(BadRequest)
    else if trip >= |db.desk.trips| then Failure(NotFound)
    else Success(db.(desk := Desks.Edit(db.desk, trip, price, status)))
  }

  // ---------------------------------------------------------------- settlements and expenses

  function Settle(db: Db, s: nat, now: int): Result<Db> {
    match Agencies.Settle(db.agency, s)
    case Failure(error) => Failure(error)
    case Success(agency) => Success(db.(agency := agency, events := Enqueue(db.events, Ledgers.AgentSettlement, s, now)))
  }

  function ApproveExpense(db: Db, id: nat, now: int): Result<Db> {
    if id >= |db.expenses| then Failure(NotFound)
    else if db.expenses[id].status != Drafted then Failure(Conflict)
    else Success(db.(expenses := db.expenses[id := db.expenses[id].(status := Approved)],
                     events := Enqueue(db.events, Ledgers.ExpenseApproved, id, now)))
  }

  function AdjustExpense(db: Db, id: nat, adjustment: Adjustment): Result<Db> {
    if id >= |db.expenses| then Failure(NotFound)
    else if db.expenses[id].status == Drafted then Failure(Conflict)
    else Success(db.(expenses := db.expenses[id := db.expenses[id].(status := Adjusted, adjustments := db.expenses[id].adjustments + [adjustment])]))
  }

  function EditExpense(db: Db, id: nat, amount: nat): Result<Db> {
    if id >= |db.expenses| then Failure(NotFound)
    else if db.expenses[id].status != Drafted then Failure(Conflict)
    else Success(db.(expenses := db.expenses[id := db.expenses[id].(amount := amount)]))
  }

  // ---------------------------------------------------------------- posting events

  function AdjustmentAt(adjustments: seq<Adjustment>): nat -> int {
    (i: nat) => if i >= |adjustments| then 0 else if adjustments[i].Increase? then adjustments[i].amount else 0 - adjustments[i].amount
  }

  /** The amount an event stands for, taken from its source row. */
  function Resolve(db: Db, kind: EventKind, row: nat): Result<int> {
    match kind
    case PaymentReceived => if row < |db.desk.payments| then Success(db.desk.payments[row].amount) else Failure(NotFound)
    case RefundCompleted => if row < |db.desk.refunds| then Success(db.desk.refunds[row].amount) else Failure(NotFound)
    case ExpenseApproved =>
      if row < |db.expenses| && db.expenses[row].status != Drafted
      then Success(db.expenses[row].amount + Total(|db.expenses[row].adjustments|, AdjustmentAt(db.expenses[row].adjustments)))
      else Failure(NotFound)
    case AgentSettlement =>
      if row < |db.agency.settlements| && db.agency.settlements[row].settled
      then Success(db.agency.settlements[row].net) else Failure(NotFound)
  }

  /** Hundredths to the ledger's ten-thousandths. */
  function EventLines(policy: Ledgers.Policy, amount: int): seq<Ledgers.Line> {
    [Ledgers.Line(policy.debit, amount * 100, 0), Ledgers.Line(policy.credit, 0, amount * 100)]
  }

  function MarkPosted(events: seq<Event>, kind: EventKind, row: nat, entry: nat): (after: seq<Event>)
    ensures |after| == |events|
  {
    seq(|events|, e requires 0 <= e < |events| =>
      if events[e].kind == kind && events[e].row == row
      then events[e].(status := Done, entry := Some(entry), lease := None) else events[e])
  }

  /** A posting request that posts or replays, or that stops and leaves only its idempotency
      record behind when the surrounding transaction goes on. */
  datatype Attempt = Posted(db: Db, entry: nat) | Stopped(error: Error, records: Records<Payload>)

  function Post(db: Db, kind: EventKind, row: nat, period: nat, number: Ledgers.EntryNumber, date: int, description: string,
                key: Key, now: int): Attempt
  {
    match Begin(db.records, PostEvents, key, EventPosted(kind, row, period, number, date, description), now)
    case Failure(error) => Stopped(error, db.records)
    case Success(Replay(resource)) =>
      if resource.Some? && resource.value < |db.ledger.entries| then Posted(db, resource.value) else Stopped(Conflict, db.records)
    case Success(Fresh(records)) => PostFresh(db, kind, row, period, number, date, key, records)
  }

  function PostFresh(db: Db, kind: EventKind, row: nat, period: nat, number: Ledgers.EntryNumber, date: int, key: Key,
                     records: Records<Payload>): Attempt
  {
    if kind !in db.ledger.policies then Stopped(Conflict, records)
    else match Resolve(db, kind, row)
      case Failure(error) => Stopped(error, records)
      case Success(amount) =>
        match Ledgers.CreateEntry(db.ledger, period, number, date, Ledgers.Business(kind, row), EventLines(db.ledger.policies[kind], amount))
        case Failure(error) => Stopped(error, records)
        case Success(drafted) =>
          var entry := |db.ledger.entries|;
          match Ledgers.PostEntry(drafted, entry)
          case Failure(error) => Stopped(error, records)
          case Success(posted) =>
            Posted(db.(ledger := posted, events := MarkPosted(db.events, kind, row, entry),
                       records := if (PostEvents, key) in records then Complete(records, PostEvents, key, entry) else records), entry)
  }

  function DayOf(time: int): int { time / Agencies.DAY_MS }

  /** Automatic posting of one event into the open period of the day it was created. */
  function ProcessEvent(db: Db, id: nat, now: int): Attempt {
    if id >= |db.events| then Stopped(NotFound, db.records)
    else
      var event := db.events[id];
      if event.status == Done && event.entry.Some? then Posted(db, event.entry.value)
      else
        var period := Ledgers.OpenPeriodFor(db.ledger.periods, DayOf(event.createdAt), |db.ledger.periods|);
        if period.None? then Stopped(Conflict, db.records)
        else Post(db, event.kind, event.row, period.value, Ledgers.Auto(id), DayOf(event.createdAt), "auto", ForEvent(id), now)
  }

  predicate Claimable(event: Event, now: int) {
    && event.status in {Waiting, Failed} && event.attempts < MAX_ATTEMPTS && event.availableAt <= now
    && (event.lease.None? || event.lease.value.at < now - LEASE_MS)
  }

  /** The earliest created claimable event, among those numbered from a point on, that no concurrent
      transaction has locked; of several created at once the one with the lowest number. */
  function NextEvent(events: seq<Event>, locked: set<nat>, now: int, from: nat): (next: Option<nat>)
    requires from <= |events|
    ensures next.Some? ==> from <= next.value < |events| && Claimable(events[next.value], now) && next.value !in locked
    decreases |events| - from
  {
    if from == |events| then None
    else
      var later := NextEvent(events, locked, now, from + 1);
      if Claimable(events[from], now) && from !in locked && (later.None? || events[from].createdAt <= events[later.value].createdAt)
      then Some(from) else later
  }

  function Claim(db: Db, id: nat, worker: nat, now: int): Db
    requires id < |db.events|
  {
    db.(events := db.events[id := db.events[id].(status := Waiting, attempts := db.events[id].attempts + 1, lease := Some(Lease(now, worker)))])
  }

  function MarkFailed(db: Db, id: nat, now: int): Db {
    if id >= |db.events| then db
    else
      var attempts := db.events[id].attempts;
      db.(events := db.events[id := db.events[id].(status := Failed, lease := None,
            availableAt := now + (if attempts < MAX_ATTEMPTS then attempts else MAX_ATTEMPTS) * 60000)])
  }

  /** A user's request to process the next event. An application error marks the event as failed
      within the same transaction; an error of the database undoes the whole request. */
  function ProcessNext(db: Db, locked: set<nat>, user: nat, now: int): Result<Db> {
    var next := NextEvent(db.events, locked, now, 0);
    if next.None? then Success(db)
    else
      var claimed := Claim(db, next.value, user, now);
      match ProcessEvent(claimed, next.value, now)
      case Posted(after, _) => Success(after)
      case Stopped(error, records) =>
        if error == Constraint then Failure(Constraint)
        else Success(MarkFailed(claimed.(records := records), next.value, now))
  }

  function Requeue(db: Db, id: nat, now: int): Result<Db> {
    if id >= |db.events| || db.events[id].status != Failed then Failure(Conflict)
    else Success(db.(events := db.events[id := db.events[id].(status := Waiting, attempts := 0, availableAt := now, lease := None)]))
  }

  function ReverseEntry(db: Db, id: nat, period: nat, number: Ledgers.EntryNumber, date: int, reason: string, key: Key, now: int): Result<(Db, nat)> {
    match Begin(db.records, ReverseEntries, key, EntryReversed(id, period, number, date, reason), now)
    case Failure(error) => Failure(error)
    case Success(Replay(resource)) =>
      if resource.Some? && resource.value < |db.ledger.entries| then Success((db, resource.value)) else Failure(Conflict)
    case Success(Fresh(records)) =>
      match Ledgers.ReverseEntry(db.ledger, id, period, number, date)
      case Failure(error) => Failure(error)
      case Success(ledger) =>
        Success((db.(ledger := ledger, records := if (ReverseEntries, key) in records
                     then Complete(records, ReverseEntries, key, |db.ledger.entries|) else records), |db.ledger.entries|))
  }

  // ---------------------------------------------------------------- all requests

  datatype Request =
    | CreateTrip(template: seq<Desks.TemplateSeat>, price: nat, status: Desks.TripStatus)
    | ViewTripSeats(trip: nat, template: seq<Desks.TemplateSeat>)
    | EditTrip(trip: nat, newPrice: Option<nat>, newStatus: Option<Desks.TripStatus>)
    | DropTrip(trip: nat, reason: string, key: Key)
    | HoldSeat(user: nat, trip: nat, seat: nat)
    | ReleaseSeat(user: nat, seat: nat)
    | PlaceOrder(order: Order)
    | DropBooking(booking: nat, reason: string, key: Key, principal: Option<nat>)
    | MakeManifest(trip: nat)
    | LockTripManifest(trip: nat)
    | SetFee(fee: Fee)
    | AddAgent(agent: Agencies.Agent)
    | EditAgent(agentId: nat, agent: Agencies.Agent)
    | DrawUpSettlement(agentId: nat, fromDay: int, toDay: int)
    | SettleSettlement(settlement: nat)
    | AddExpense(amount: nat)
    | ChangeExpense(expense: nat, amount: nat)
    | ApproveTheExpense(expense: nat)
    | AdjustTheExpense(expense: nat, adjustment: Adjustment)
    | AddAccount
    | AddFiscalPeriod(starts: int, ends: int)
    | SetPolicy(kind: EventKind, debit: nat, credit: nat)
    | DraftEntry(period: nat, number: Ledgers.EntryNumber, date: int, source: Ledgers.Source, lines: seq<Ledgers.Line>)
    | PostDraft(entry: nat)
    | UndoEntry(entry: nat, period: nat, number: Ledgers.EntryNumber, date: int, reason: string, key: Key)
    | CloseFiscalPeriod(period: nat)
    | PostByHand(kind: EventKind, row: nat, period: nat, number: Ledgers.EntryNumber, date: int, description: string, key: Key)
    | WorkerClaims(worker: nat, locked: set<nat>)
    | WorkerProcesses(event: nat)
    | WorkerReportsFailure(event: nat)
    | ProcessNextEvent(user: nat, locked: set<nat>)
    | RequeueEvent(event: nat)

  /** What the request validators let through. */
  predicate WellFormed(r: Request) {
    match r
    case CreateTrip(template, price, status) => price > 0 && forall i, j :: 0 <= i < j < |template| ==> template[i].name != template[j].name
    case ViewTripSeats(trip, template) => forall i, j :: 0 <= i < j < |template| ==> template[i].name != template[j].name
    case EditTrip(trip, price, status) => price.Some? ==> price.value > 0
    case PlaceOrder(order) => order.seats != []
    case AddExpense(amount) => amount > 0
    case ChangeExpense(expense, amount) => amount > 0
    case DraftEntry(period, number, date, source, lines) =>
      forall i :: 0 <= i < |lines| ==> lines[i].debit >= 0 && lines[i].credit >= 0
    case _ => true
  }

  function First(r: Result<(Db, nat)>): Result<Db> {
    match r
    case Failure(error) => Failure(error)
    case Success(pair) => Success(pair.0)
  }

  function OnDesk(db: Db, r: Result<Desks.Desk>): Result<Db> {
    match r
    case Failure(error) => Failure(error)
    case Success(desk) => Success(db.(desk := desk))
  }

  function OnLedger(db: Db, r: Result<Ledgers.Ledger>): Result<Db> {
    match r
    case Failure(error) => Failure(error)
    case Success(ledger) => Success(db.(ledger := ledger))
  }

  function Handle(db: Db, r: Request, now: int): Result<Db>
  {
    match r
    case CreateTrip(template, price, status) => Success(db.(desk := Desks.AddTrip(db.desk, template, price, status)))
    case ViewTripSeats(trip, template) => ViewSeats(db, trip, template, now)
    case EditTrip(trip, price, status) => UpdateTrip(db, trip, price, status)
    case DropTrip(trip, reason, key) => First(CancelTrip(db, trip, reason, key, now))
    case HoldSeat(user, trip, seat) => OnDesk(db, Desks.Hold(db.desk, user, trip, seat, now))
    case ReleaseSeat(user, seat) => Success(db.(desk := Desks.Release(db.desk, user, seat)))
    case PlaceOrder(order) => First(Book(db, order, now))
    case DropBooking(booking, reason, key, principal) => First(CancelBooking(db, booking, reason, key, principal, now))
    case MakeManifest(trip) => if trip < |db.desk.trips| then Success(db.(desk := Desks.Manifested(db.desk, trip))) else Failure(NotFound)
    case LockTripManifest(trip) => OnDesk(db, Desks.LockManifest(db.desk, trip))
    case SetFee(fee) => Success(db.(desk := db.desk.(fee := fee)))
    case AddAgent(agent) => Success(db.(agency := db.agency.(agents := db.agency.agents + [agent])))
    case EditAgent(id, agent) =>
      if id < |db.agency.agents| then Success(db.(agency := db.agency.(agents := db.agency.agents[id := agent]))) else Failure(NotFound)
    case DrawUpSettlement(agent, fromDay, toDay) =>
      (match Agencies.Generate(db.agency, db.desk.tickets, agent, fromDay, toDay)
       case Failure(error) => Failure(error)
       case Success(pair) => Success(db.(agency := pair.0)))
    case SettleSettlement(s) => Settle(db, s, now)
    case AddExpense(amount) => Success(db.(expenses := db.expenses + [Expense(amount, Drafted, [])]))
    case ChangeExpense(id, amount) => EditExpense(db, id, amount)
    case ApproveTheExpense(id) => ApproveExpense(db, id, now)
    case AdjustTheExpense(id, adjustment) => AdjustExpense(db, id, adjustment)
    case AddAccount => Success(db.(ledger := db.ledger.(accounts := db.ledger.accounts + 1)))
    case AddFiscalPeriod(starts, ends) => OnLedger(db, Ledgers.AddPeriod(db.ledger, starts, ends))
    case SetPolicy(kind, debit, credit) => OnLedger(db, Ledgers.Configure(db.ledger, kind, debit, credit))
    case DraftEntry(period, number, date, source, lines) => OnLedger(db, Ledgers.CreateEntry(db.ledger, period, number, date, source, lines))
    case PostDraft(entry) => OnLedger(db, Ledgers.PostEntry(db.ledger, entry))
    case UndoEntry(entry, period, number, date, reason, key) => First(ReverseEntry(db, entry, period, number, date, reason, key, now))
    case CloseFiscalPeriod(period) => OnLedger(db, Ledgers.ClosePeriod(db.ledger, period))
    case PostByHand(kind, row, period, number, date, description, key) =>
      (match Post(db, kind, row, period, number, date, description, key, now)
       case Posted(after, _) => Success(after)
       case Stopped(error, _) => Failure(error))
    case WorkerClaims(worker, locked) =>
      var next := NextEvent(db.events, locked, now, 0);
      Success(if next.None? then db else Claim(db, next.value, worker, now))
    case WorkerProcesses(event) =>
      (match ProcessEvent(db, event, now)
       case Posted(after, _) => Success(after)
       case Stopped(error, _) => Failure(error))
    case WorkerReportsFailure(event) => Success(MarkFailed(db, event, now))
    case ProcessNextEvent(user, locked) => ProcessNext(db, locked, user, now)
    case RequeueEvent(event) => Requeue(db, event, now)
  }

  /** The database after a request: a refused request is rolled back. */
  function Apply(db: Db, r: Request, now: int): Db
  {
    if !WellFormed(r) then db
    else match Handle(db, r, now)
      case Failure(_) => db
      case Success(after) => after
  }
}
