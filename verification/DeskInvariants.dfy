/** What every request keeps true of the trips, seats, bookings, payments and refunds. */
module DeskInvariants {
  import opened Wrappers
  import opened Sums
  import opened Money
  import opened TripDesk

  predicate TicketLive(d: Desk, ticket: nat)
    requires ticket < |d.tickets|
  {
    d.tickets[ticket].booking < |d.bookings| && d.bookings[d.tickets[ticket].booking].status == BookingStatus.Confirmed
  }

  /** A live ticket is for this seat. */
  predicate Sells(d: Desk, ticket: nat, seat: nat) {
    ticket < |d.tickets| && d.tickets[ticket].seat == seat && TicketLive(d, ticket)
  }

  /** Foreign keys; a booking has exactly one payment, which has the booking's own number. */
  predicate References(d: Desk) {
    && (forall i :: 0 <= i < |d.seats| ==> d.seats[i].trip < |d.trips|)
    && (forall b :: 0 <= b < |d.bookings| ==> d.bookings[b].trip < |d.trips|)
    && (forall t :: 0 <= t < |d.tickets| ==> TicketOk(d, d.tickets[t]))
    && |d.payments| == |d.bookings|
    && (forall k :: 0 <= k < |d.payments| ==> d.payments[k].booking == k)
    && (forall r :: 0 <= r < |d.refunds| ==>
          d.refunds[r].payment < |d.payments| && d.refunds[r].booking == d.refunds[r].payment)
  }

  predicate TicketOk(d: Desk, t: Ticket) {
    t.booking < |d.bookings| && t.seat < |d.seats| && d.seats[t.seat].trip == d.bookings[t.booking].trip
  }

  /** Seats and the tickets of confirmed bookings name each other; seats that are not for sale are blocked. */
  predicate SeatLinks(d: Desk) {
    && (forall t :: 0 <= t < |d.tickets| && TicketLive(d, t) ==> SoldTo(d, d.tickets[t], t))
    && (forall i :: 0 <= i < |d.seats| ==> SeatOk(d, d.seats[i], i))
  }

  predicate SoldTo(d: Desk, t: Ticket, id: nat) {
    t.seat < |d.seats| && d.seats[t.seat].status == Booked && d.seats[t.seat].ticket == Some(id)
    && d.seats[t.seat].price == t.fare
  }

  predicate SeatOk(d: Desk, s: Seat, id: nat) {
    && (s.ticket.Some? ==> s.ticket.value < |d.tickets| && d.tickets[s.ticket.value].seat == id)
    && (s.status == Booked ==> s.ticket.Some? && TicketLive(d, s.ticket.value))
    && (!Sellable(s.kind) ==> s.status == Blocked)
    && s.price > 0
  }

  function FareAt(tickets: seq<Ticket>, booking: nat): nat -> int {
    (t: nat) => if t < |tickets| && tickets[t].booking == booking then tickets[t].fare else 0
  }

  /** A booking's total is the sum of its fares and the amount paid for it. */
  predicate TotalsAgree(d: Desk) {
    |d.payments| == |d.bookings| &&
    forall b :: 0 <= b < |d.bookings| ==>
      && d.bookings[b].total == Total(|d.tickets|, FareAt(d.tickets, b))
      && d.bookings[b].total == d.payments[b].amount > 0
  }

  function RefundAt(refunds: seq<Refund>, payment: nat): nat -> int {
    (r: nat) => if r < |refunds| && refunds[r].payment == payment then refunds[r].amount else 0
  }

  predicate HasRefund(refunds: seq<Refund>, booking: nat) {
    exists r :: 0 <= r < |refunds| && refunds[r].booking == booking
  }

  /** What a payment records as refunded is the sum of its refunds, of which there is at most one,
      and the state of its booking says whether there is one. */
  predicate RefundsAgree(d: Desk) {
    && |d.payments| == |d.bookings|
    && (forall k :: 0 <= k < |d.payments| ==>
          d.payments[k].refunded == Total(|d.refunds|, RefundAt(d.refunds, k)) <= d.payments[k].amount)
    && (forall k :: 0 <= k < |d.payments| ==> StatusOk(d.payments[k]))
    && (forall r :: 0 <= r < |d.refunds| ==> d.refunds[r].amount > 0)
    && (forall r, q :: 0 <= r < q < |d.refunds| ==> d.refunds[r].payment != d.refunds[q].payment)
    && (forall b :: 0 <= b < |d.bookings| ==> (d.bookings[b].status == Refunded <==> HasRefund(d.refunds, b)))
    && (forall b :: 0 <= b < |d.bookings| ==> d.bookings[b].status != Pending)
  }

  predicate StatusOk(p: Payment) {
    p.status == if p.refunded == 0 then Paid else if p.refunded == p.amount then Returned else PartlyReturned
  }

  function StatusFor(status: BookingStatus): TicketStatus {
    match status
    case Dropped => TicketDropped
    case Refunded => TicketRefunded
    case _ => Issued
  }

  predicate TicketStatuses(d: Desk) {
    forall t :: 0 <= t < |d.tickets| ==>
      d.tickets[t].booking < |d.bookings| && d.tickets[t].status == StatusFor(d.bookings[d.tickets[t].booking].status)
  }

  predicate KeysUnique(d: Desk) {
    forall b, c :: 0 <= b < c < |d.bookings| ==> d.bookings[b].key != d.bookings[c].key
  }

  predicate CancelledTripsEmpty(d: Desk) {
    forall b :: 0 <= b < |d.bookings| && d.bookings[b].trip < |d.trips| ==>
      (d.trips[d.bookings[b].trip].status == Cancelled ==> !Live(d.bookings[b]))
  }

  predicate NamesUnique(d: Desk) {
    forall i, j :: 0 <= i < j < |d.seats| && d.seats[i].trip == d.seats[j].trip ==> d.seats[i].name != d.seats[j].name
  }

  predicate DeskInv(d: Desk) {
    References(d) && SeatLinks(d) && TotalsAgree(d) && RefundsAgree(d) && TicketStatuses(d)
    && KeysUnique(d) && CancelledTripsEmpty(d) && NamesUnique(d)
  }

  // ---------------------------------------------------------------- requests that sell nothing

  /** e differs from d in trips and seats only, and treats no seat as sold or unsold. */
  predicate SeatsEdited(d: Desk, e: Desk) {
    && e == d.(seats := e.seats, trips := e.trips)
    && |d.trips| <= |e.trips| && |d.seats| <= |e.seats|
    && (forall i :: 0 <= i < |d.trips| && e.trips[i].status == Cancelled ==> d.trips[i].status == Cancelled)
    && (forall i :: 0 <= i < |d.seats| ==> SeatEdited(d.seats[i], e.seats[i]))
    && (forall i :: |d.seats| <= i < |e.seats| ==> FreshSeat(e.seats[i], |e.trips|))
  }

  predicate SeatEdited(s: Seat, r: Seat) {
    r.trip == s.trip && r.name == s.name && r.kind == s.kind && r.ticket == s.ticket
    && (r.status == Booked <==> s.status == Booked)
    && (r.status == Blocked <==> s.status == Blocked)
    && (r.price != s.price ==> s.status == Available && r.price > 0)
  }

  predicate FreshSeat(s: Seat, trips: nat) {
    s.trip < trips && s.ticket == None && s.price > 0 && s.status == InitialStatus(s.kind)
  }

  lemma EditKeepsInv(d: Desk, e: Desk)
    requires DeskInv(d) && SeatsEdited(d, e) && NamesUnique(e)
    ensures DeskInv(e)
  {
    forall t | 0 <= t < |e.tickets| ensures TicketOk(e, e.tickets[t]) {
      assert TicketOk(d, d.tickets[t]);
      assert SeatEdited(d.seats[d.tickets[t].seat], e.seats[d.tickets[t].seat]);
    }
    forall i | 0 <= i < |e.seats| ensures SeatOk(e, e.seats[i], i) && e.seats[i].trip < |e.trips| {
      if i < |d.seats| {
        assert SeatOk(d, d.seats[i], i) && SeatEdited(d.seats[i], e.seats[i]);
      } else {
        assert FreshSeat(e.seats[i], |e.trips|);
      }
    }
    forall t | 0 <= t < |e.tickets| && TicketLive(e, t) ensures SoldTo(e, e.tickets[t], t) {
      assert SoldTo(d, d.tickets[t], t);
      assert SeatEdited(d.seats[d.tickets[t].seat], e.seats[d.tickets[t].seat]);
    }
  }

  lemma ExpiryKeepsInv(d: Desk, trip: nat, now: int)
    requires DeskInv(d)
    ensures DeskInv(ExpireHolds(d, trip, now))
  {
    EditKeepsInv(d, ExpireHolds(d, trip, now));
  }

  lemma EditingKeepsInv(d: Desk, trip: nat, price: Option<nat>, status: Option<TripStatus>)
    requires DeskInv(d) && trip < |d.trips| && (price.Some? ==> price.value > 0) && status != Some(Cancelled)
    ensures DeskInv(Edit(d, trip, price, status))
  {
    EditKeepsInv(d, Edit(d, trip, price, status));
  }

  lemma HoldKeepsInv(d: Desk, user: nat, trip: nat, seat: nat, now: int)
    requires DeskInv(d)
    ensures Hold(d, user, trip, seat, now).Success? ==> DeskInv(Hold(d, user, trip, seat, now).value)
    ensures DeskInv(Release(d, user, seat))
  {
    hide References, TotalsAgree, RefundsAgree, TicketStatuses, KeysUnique, CancelledTripsEmpty;
    if Hold(d, user, trip, seat, now).Success? {
      EditKeepsInv(d, Hold(d, user, trip, seat, now).value);
    }
    EditKeepsInv(d, Release(d, user, seat));
  }

  lemma ManifestKeepsInv(d: Desk, trip: nat)
    requires DeskInv(d)
    ensures trip < |d.trips| ==> DeskInv(Manifested(d, trip))
    ensures LockManifest(d, trip).Success? ==> DeskInv(LockManifest(d, trip).value)
  {
    if trip < |d.trips| { EditKeepsInv(d, Manifested(d, trip)); }
    if LockManifest(d, trip).Success? { EditKeepsInv(d, LockManifest(d, trip).value); }
  }

  predicate NamesDiffer(template: seq<TemplateSeat>) {
    forall i, j :: 0 <= i < j < |template| ==> template[i].name != template[j].name
  }

  lemma AddTripKeepsInv(d: Desk, template: seq<TemplateSeat>, price: nat, status: TripStatus)
    requires DeskInv(d) && NamesDiffer(template) && price > 0
    ensures DeskInv(AddTrip(d, template, price, status))
  {
    EditKeepsInv(d, AddTrip(d, template, price, status));
  }

  /** The seats a repair adds: exactly the template seats whose names the trip lacks. */
  lemma {:induction false} MissingSeatsAre(seats: seq<Seat>, trip: nat, template: seq<TemplateSeat>)
    requires NamesDiffer(template)
    ensures NamesDiffer(MissingSeats(seats, trip, template))
    ensures forall s :: s in MissingSeats(seats, trip, template) <==> s in template && !HasLabel(seats, trip, s.name)
  {
    if template != [] {
      MissingSeatsAre(seats, trip, template[1..]);
      assert template == [template[0]] + template[1..];
      forall s | s in template[1..] ensures s.name != template[0].name {}
    }
  }

  lemma {:induction false} FirstPricePositive(seats: seq<Seat>, trip: nat, from: nat)
    requires from <= |seats| && forall i :: 0 <= i < |seats| ==> seats[i].price > 0
    ensures FirstPrice(seats, trip, from).Some? ==> FirstPrice(seats, trip, from).value > 0
    decreases |seats| - from
  {
    if from < |seats| { FirstPricePositive(seats, trip, from + 1); }
  }

  lemma RepairKeepsInv(d: Desk, trip: nat, template: seq<TemplateSeat>)
    requires DeskInv(d) && trip < |d.trips| && NamesDiffer(template)
    ensures DeskInv(Repair(d, trip, template))
  {
    forall i | 0 <= i < |d.seats| ensures d.seats[i].price > 0 { assert SeatOk(d, d.seats[i], i); }
    FirstPricePositive(d.seats, trip, 0);
    MissingSeatsAre(d.seats, trip, template);
    var missing, e := MissingSeats(d.seats, trip, template), Repair(d, trip, template);
    if e != d {
      forall i, j | 0 <= i < j < |e.seats| && e.seats[i].trip == e.seats[j].trip ensures e.seats[i].name != e.seats[j].name {
        if i < |d.seats| <= j {
          assert missing[j - |d.seats|] in missing;
          assert HasLabel(d.seats, d.seats[i].trip, d.seats[i].name);
        }
      }
      EditKeepsInv(d, e);
    }
  }

  lemma FeeKeepsInv(d: Desk, fee: Fee)
    requires DeskInv(d)
    ensures DeskInv(d.(fee := fee))
  {
    var e := d.(fee := fee);
    forall t | 0 <= t < |e.tickets| ensures TicketOk(e, e.tickets[t]) { assert TicketOk(d, d.tickets[t]); }
    forall i | 0 <= i < |e.seats| ensures SeatOk(e, e.seats[i], i) { assert SeatOk(d, d.seats[i], i); }
    forall t | 0 <= t < |e.tickets| && TicketLive(e, t) ensures SoldTo(e, e.tickets[t], t) {
      assert TicketLive(d, t) && SoldTo(d, d.tickets[t], t);
    }
  }
}
