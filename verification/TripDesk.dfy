/** Trips, their seats and what is sold on them. Row numbers are primary keys; rows of these
    tables are never deleted. Each function gives the tables after one request. */
module TripDesk {
  import opened Wrappers
  import opened Sums
  import opened Money
  import opened Idempotency

  const HOLD_MS: int := 10 * 60000

  datatype TripStatus = Scheduled | Open | Full | Departed | Completed | Cancelled
  datatype Manifest = Missing | Generated | Locked
  datatype Trip = Trip(status: TripStatus, manifest: Manifest)

  datatype SeatType = Regular | Vip | DriverSeat | Disabled | NoSeat
  /** The holder and the end of a hold are set exactly while a seat is held. */
  datatype SeatStatus = Available | Held(holder: nat, until: int) | Booked | Blocked
  datatype Seat = Seat(trip: nat, name: string, kind: SeatType, price: nat, status: SeatStatus, ticket: Option<nat>)
  datatype TemplateSeat = TemplateSeat(name: string, kind: SeatType)

  datatype BookingStatus = Pending | Confirmed | Dropped | Refunded
  datatype Booking = Booking(trip: nat, agent: Option<nat>, key: Key, total: nat, status: BookingStatus)
  datatype TicketStatus = Issued | TicketDropped | TicketRefunded
  datatype Ticket = Ticket(booking: nat, seat: nat, fare: nat, status: TicketStatus)
  datatype PaymentStatus = Paid | PartlyReturned | Returned
  datatype Payment = Payment(booking: nat, amount: nat, refunded: nat, status: PaymentStatus)
  datatype Refund = Refund(booking: nat, payment: nat, amount: nat)

  datatype Desk = Desk(trips: seq<Trip>, seats: seq<Seat>, bookings: seq<Booking>, tickets: seq<Ticket>,
                       payments: seq<Payment>, refunds: seq<Refund>, fee: Fee)

  predicate Bookable(status: TripStatus) { status == Scheduled || status == Open }
  predicate Sellable(kind: SeatType) { kind == Regular || kind == Vip }

  // ---------------------------------------------------------------- trips and their seats

  function InitialStatus(kind: SeatType): SeatStatus { if Sellable(kind) then Available else Blocked }

  function CopySeats(template: seq<TemplateSeat>, trip: nat, price: nat): (seats: seq<Seat>)
    ensures |seats| == |template|
  {
    seq(|template|, i requires 0 <= i < |template| =>
      Seat(trip, template[i].name, template[i].kind, price, InitialStatus(template[i].kind), None))
  }

  function AddTrip(d: Desk, template: seq<TemplateSeat>, price: nat, status: TripStatus): Desk {
    d.(trips := d.trips + [Trip(status, Missing)], seats := d.seats + CopySeats(template, |d.trips|, price))
  }

  predicate HasLabel(seats: seq<Seat>, trip: nat, name: string) {
    exists i :: 0 <= i < |seats| && seats[i].trip == trip && seats[i].name == name
  }

  /** The template seats whose label the trip lacks, in template order. */
  function MissingSeats(seats: seq<Seat>, trip: nat, template: seq<TemplateSeat>): seq<TemplateSeat> {
    if template == [] then []
    else (if HasLabel(seats, trip, template[0].name) then [] else [template[0]])
         + MissingSeats(seats, trip, template[1..])
  }

  function FirstPrice(seats: seq<Seat>, trip: nat, from: nat): Option<nat>
    requires from <= |seats|
    decreases |seats| - from
  {
    if from == |seats| then None
    else if seats[from].trip == trip then Some(seats[from].price)
    else FirstPrice(seats, trip, from + 1)
  }

  function Repair(d: Desk, trip: nat, template: seq<TemplateSeat>): Desk {
    match FirstPrice(d.seats, trip, 0)
    case None => d
    case Some(price) => d.(seats := d.seats + CopySeats(MissingSeats(d.seats, trip, template), trip, price))
  }

  function ExpireHolds(d: Desk, trip: nat, now: int): Desk {
    d.(seats := seq(|d.seats|, i requires 0 <= i < |d.seats| =>
      if d.seats[i].trip == trip && d.seats[i].status.Held? && d.seats[i].status.until < now
      then d.seats[i].(status := Available) else d.seats[i]))
  }

  function Edit(d: Desk, trip: nat, price: Option<nat>, status: Option<TripStatus>): Desk
    requires trip < |d.trips|
  {
    d.(seats := seq(|d.seats|, i requires 0 <= i < |d.seats| =>
         if price.Some? && d.seats[i].trip == trip && d.seats[i].status.Available?
         then d.seats[i].(price := price.value) else d.seats[i]),
       trips := if status.Some? then d.trips[trip := d.trips[trip].(status := status.value)] else d.trips)
  }

  function Manifested(d: Desk, trip: nat): Desk
    requires trip < |d.trips|
  {
    if d.trips[trip].manifest.Missing? then d.(trips := d.trips[trip := d.trips[trip].(manifest := Generated)]) else d
  }

  function LockManifest(d: Desk, trip: nat): Result<Desk> {
    if trip >= |d.trips| || d.trips[trip].manifest.Missing? then Failure(NotFound)
    else if d.trips[trip].manifest.Locked? then Failure(Conflict)
    else if d.trips[trip].status in {Cancelled, Completed, Departed} then Failure(Conflict)
    else Success(d.(trips := d.trips[trip := Trip(Departed, Locked)]))
  }

  // ---------------------------------------------------------------- holds

  /** The condition under which a user may hold or buy a seat. */
  predicate Claimable(seat: Seat, user: nat, now: int) {
    Sellable(seat.kind) &&
    (seat.status.Available? || (seat.status.Held? && seat.status.holder == user && seat.status.until >= now))
  }

  function Hold(d: Desk, user: nat, trip: nat, seat: nat, now: int): Result<Desk> {
    if trip >= |d.trips| then Failure(NotFound)
    else if !Bookable(d.trips[trip].status) then Failure(Conflict)
    else if seat >= |d.seats| || d.seats[seat].trip != trip || !Claimable(d.seats[seat], user, now) then Failure(Conflict)
    else Success(d.(seats := d.seats[seat := d.seats[seat].(status := Held(user, now + HOLD_MS))]))
  }

  function Release(d: Desk, user: nat, seat: nat): Desk {
    if seat < |d.seats| && d.seats[seat].status.Held? && d.seats[seat].status.holder == user
    then d.(seats := d.seats[seat := d.seats[seat].(status := Available)]) else d
  }

  // ---------------------------------------------------------------- selling

  predicate Distinct(ids: seq<nat>) {
    forall i, j :: 0 <= i < j < |ids| ==> ids[i] != ids[j]
  }

  function PriceAt(seats: seq<Seat>, ids: seq<nat>): nat -> int {
    (i: nat) => if i < |ids| && ids[i] < |seats| then seats[ids[i]].price else 0
  }

  function PriceOf(seats: seq<Seat>, ids: seq<nat>): (total: nat) {
    TotalNonNegative(|ids|, PriceAt(seats, ids));
    Total(|ids|, PriceAt(seats, ids))
  }

  lemma {:induction false} TotalNonNegative(n: nat, f: nat -> int)
    requires forall i: nat :: i < n ==> 0 <= f(i)
    ensures 0 <= Total(n, f)
  {
    if n > 0 { TotalNonNegative(n - 1, f); }
  }

  /** The rows that a query for these seat numbers on this trip returns are as many as the
      numbers asked for: every number names a seat of the trip and none is repeated. */
  predicate AllFound(d: Desk, trip: nat, ids: seq<nat>) {
    Distinct(ids) && forall k :: 0 <= k < |ids| ==> ids[k] < |d.seats| && d.seats[ids[k]].trip == trip
  }

  predicate AllClaimable(d: Desk, ids: seq<nat>, user: nat, now: int) {
    forall k :: 0 <= k < |ids| ==> ids[k] < |d.seats| && Claimable(d.seats[ids[k]], user, now)
  }

  predicate SoldOut(seats: seq<Seat>, trip: nat) {
    forall i :: 0 <= i < |seats| && seats[i].trip == trip && Sellable(seats[i].kind) ==> !seats[i].status.Available?
  }

  predicate SameSeat(s: Seat, r: Seat) {
    r.trip == s.trip && r.name == s.name && r.kind == s.kind && r.price == s.price
  }

  /** The seats once the first n of an order are booked, each under the next new ticket. */
  function SoldSeats(d: Desk, ids: seq<nat>, n: nat): (seats: seq<Seat>)
    requires n <= |ids|
    ensures |seats| == |d.seats| && forall i :: 0 <= i < |seats| ==> SameSeat(d.seats[i], seats[i])
  {
    if n == 0 then d.seats
    else
      var seats := SoldSeats(d, ids, n - 1);
      if ids[n - 1] < |seats|
      then seats[ids[n - 1] := seats[ids[n - 1]].(status := Booked, ticket := Some(|d.tickets| + n - 1))] else seats
  }

  /** The tickets for the first n seats of an order, one per seat at the price of the seat. */
  function NewTickets(d: Desk, ids: seq<nat>, n: nat): (tickets: seq<Ticket>)
    requires n <= |ids|
    ensures |tickets| == n
    ensures forall k :: 0 <= k < n ==> tickets[k] == NewTicket(d, ids[k])
  {
    if n == 0 then [] else NewTickets(d, ids, n - 1) + [NewTicket(d, ids[n - 1])]
  }

  function NewTicket(d: Desk, seat: nat): Ticket {
    Ticket(|d.bookings|, seat, if seat < |d.seats| then d.seats[seat].price else 0, Issued)
  }

  /** A paid and confirmed booking of these seats. */
  function Sell(d: Desk, trip: nat, ids: seq<nat>, agent: Option<nat>, key: Key): Desk
    requires trip < |d.trips|
  {
    var total := PriceOf(d.seats, ids);
    var seats := SoldSeats(d, ids, |ids|);
    d.(seats := seats,
       bookings := d.bookings + [Booking(trip, agent, key, total, Confirmed)],
       tickets := d.tickets + NewTickets(d, ids, |ids|),
       payments := d.payments + [Payment(|d.bookings|, total, 0, Paid)],
       trips := if SoldOut(seats, trip) then d.trips[trip := d.trips[trip].(status := TripStatus.Full)] else d.trips)
  }

  function BookingWithKey(bookings: seq<Booking>, key: Key, from: nat): Option<nat>
    requires from <= |bookings|
    decreases |bookings| - from
  {
    if from == |bookings| then None
    else if bookings[from].key == key then Some(from)
    else BookingWithKey(bookings, key, from + 1)
  }

  // ---------------------------------------------------------------- cancelling

  function Due(p: Payment, fee: Fee): (due: nat)
    ensures due > 0 ==> p.refunded + due <= p.amount
  {
    if p.refunded < p.amount then
      RefundWithinPayment(p.amount - p.refunded, fee);
      RefundDue(p.amount - p.refunded, fee)
    else 0
  }

  /** A payment after the refund trigger has recorded this much more. */
  function AfterRefund(p: Payment, due: nat): Payment {
    if due == 0 then p
    else p.(refunded := p.refunded + due, status := if p.refunded + due == p.amount then Returned else PartlyReturned)
  }

  /** The refunds of one booking, over its payments among the first n. */
  function RefundRows(payments: seq<Payment>, booking: nat, fee: Fee, n: nat): seq<Refund>
    requires n <= |payments|
  {
    if n == 0 then []
    else
      var rows := RefundRows(payments, booking, fee, n - 1);
      if payments[n - 1].booking == booking && Due(payments[n - 1], fee) > 0
      then rows + [Refund(booking, n - 1, Due(payments[n - 1], fee))] else rows
  }

  function RefundedPayments(payments: seq<Payment>, booking: nat, fee: Fee): (after: seq<Payment>)
    ensures |after| == |payments|
  {
    seq(|payments|, k requires 0 <= k < |payments| =>
      if payments[k].booking == booking then AfterRefund(payments[k], Due(payments[k], fee)) else payments[k])
  }

  /** A booking refunded and ended: REFUNDED if any money went back, CANCELLED otherwise. */
  function Void(d: Desk, booking: nat): (after: Desk)
    requires booking < |d.bookings|
    ensures |after.bookings| == |d.bookings|
    ensures after.fee == d.fee
  {
    var rows := RefundRows(d.payments, booking, d.fee, |d.payments|);
    d.(payments := RefundedPayments(d.payments, booking, d.fee),
       refunds := d.refunds + rows,
       tickets := seq(|d.tickets|, t requires 0 <= t < |d.tickets| =>
         if d.tickets[t].booking == booking
         then d.tickets[t].(status := if rows == [] then TicketDropped else TicketRefunded) else d.tickets[t]),
       bookings := d.bookings[booking := d.bookings[booking].(status := if rows == [] then Dropped else Refunded)])
  }

  /** The seats of a booking put back on sale. */
  function FreeSeats(d: Desk, booking: nat): (seats: seq<Seat>)
    ensures |seats| == |d.seats|
  {
    seq(|d.seats|, i requires 0 <= i < |d.seats| =>
      if SeatOf(d.tickets, booking, i) then d.seats[i].(status := Available, ticket := None) else d.seats[i])
  }

  predicate SeatOf(tickets: seq<Ticket>, booking: nat, seat: nat) {
    exists t :: 0 <= t < |tickets| && tickets[t].booking == booking && tickets[t].seat == seat
  }

  function CancelBooking(d: Desk, booking: nat): Result<Desk>
  {
    if booking >= |d.bookings| then Failure(NotFound)
    else
      var trip := d.bookings[booking].trip;
      if trip >= |d.trips| then Failure(NotFound)
      else if d.bookings[booking].status != Confirmed then Failure(Conflict)
      else if d.trips[trip].status in {Departed, Completed} then Failure(Conflict)
      else Success(Void(d, booking).(seats := FreeSeats(d, booking),
             trips := if d.trips[trip].status.Full? then d.trips[trip := d.trips[trip].(status := Open)] else d.trips))
  }

  predicate Live(b: Booking) { b.status == Pending || b.status == Confirmed }

  /** The live bookings of a trip among the first n, refunded and ended one after another. */
  function VoidTrip(d: Desk, trip: nat, n: nat): (after: Desk)
    requires n <= |d.bookings|
    ensures |after.bookings| == |d.bookings|
    ensures after.fee == d.fee
  {
    if n == 0 then d
    else
      var p := VoidTrip(d, trip, n - 1);
      if d.bookings[n - 1].trip == trip && Live(d.bookings[n - 1]) then Void(p, n - 1) else p
  }

  function BlockSeats(seats: seq<Seat>, trip: nat): (after: seq<Seat>)
    ensures |after| == |seats|
  {
    seq(|seats|, i requires 0 <= i < |seats| => if seats[i].trip == trip then seats[i].(status := Blocked) else seats[i])
  }

  function CancelTrip(d: Desk, trip: nat): Result<Desk>
  {
    if trip >= |d.trips| then Failure(NotFound)
    else if d.trips[trip].status in {Cancelled, Completed} then Failure(Conflict)
    else Success(VoidTrip(d, trip, |d.bookings|).(seats := BlockSeats(d.seats, trip),
           trips := d.trips[trip := d.trips[trip].(status := Cancelled)]))
  }
}
