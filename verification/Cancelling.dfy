/** Ending bookings: refunds are paid once and in full measure, seats are freed or blocked. */
module Cancelling {
  import opened Sums
  import opened Money
  import opened TripDesk
  import opened DeskInvariants

  /** The invariants that hold even between the steps of cancelling a trip. */
  predicate MoneyInv(d: Desk) {
    References(d) && TotalsAgree(d) && RefundsAgree(d) && TicketStatuses(d) && KeysUnique(d) && NamesUnique(d)
  }

  /** The one payment of a booking is refunded by one row, or by none when nothing is due. */
  lemma {:induction false} RowsOfBooking(payments: seq<Payment>, booking: nat, fee: Fee, n: nat)
    requires n <= |payments|
    requires forall k :: 0 <= k < |payments| ==> payments[k].booking == k
    ensures RefundRows(payments, booking, fee, n)
      == if booking < n && Due(payments[booking], fee) > 0 then [Refund(booking, booking, Due(payments[booking], fee))] else []
  {
    if n > 0 { RowsOfBooking(payments, booking, fee, n - 1); }
  }

  lemma NoRefundYet(d: Desk, booking: nat)
    requires References(d) && RefundsAgree(d) && booking < |d.bookings| && Live(d.bookings[booking])
    ensures forall r :: 0 <= r < |d.refunds| ==> d.refunds[r].payment != booking
    ensures d.payments[booking].refunded == 0
  {
    assert !HasRefund(d.refunds, booking);
    TotalZero(|d.refunds|, RefundAt(d.refunds, booking));
  }

  lemma OneMoreRefund(refunds: seq<Refund>, row: Refund, k: nat)
    ensures Total(|refunds| + 1, RefundAt(refunds + [row], k)) == Total(|refunds|, RefundAt(refunds, k)) + if row.payment == k then row.amount else 0
  {
    TotalCong(|refunds|, RefundAt(refunds, k), RefundAt(refunds + [row], k));
  }

  lemma VoidedRefunds(d: Desk, booking: nat)
    requires References(d) && booking < |d.bookings|
    ensures var due := Due(d.payments[booking], d.fee);
      Void(d, booking).refunds == if due > 0 then d.refunds + [Refund(booking, booking, due)] else d.refunds
  {
    RowsOfBooking(d.payments, booking, d.fee, |d.payments|);
  }

  lemma VoidKeepsSums(d: Desk, booking: nat, k: nat)
    requires References(d) && RefundsAgree(d)
    requires booking < |d.bookings| && Live(d.bookings[booking]) && k < |d.payments|
    ensures var e := Void(d, booking);
      e.payments[k].refunded == Total(|e.refunds|, RefundAt(e.refunds, k)) <= e.payments[k].amount && StatusOk(e.payments[k])
  {
    var row := Refund(booking, booking, Due(d.payments[booking], d.fee));
    VoidedRefunds(d, booking);
    NoRefundYet(d, booking);
    OneMoreRefund(d.refunds, row, k);
    assert StatusOk(d.payments[k]);
    assert Void(d, booking).payments[k] == if k == booking then AfterRefund(d.payments[k], row.amount) else d.payments[k];
  }

  lemma VoidKeepsRefunds(d: Desk, booking: nat)
    requires References(d) && RefundsAgree(d) && booking < |d.bookings| && Live(d.bookings[booking])
    ensures RefundsAgree(Void(d, booking))
  {
    var e := Void(d, booking);
    RowsOfBooking(d.payments, booking, d.fee, |d.payments|);
    NoRefundYet(d, booking);
    forall k | 0 <= k < |e.payments|
      ensures e.payments[k].refunded == Total(|e.refunds|, RefundAt(e.refunds, k)) <= e.payments[k].amount && StatusOk(e.payments[k])
    {
      VoidKeepsSums(d, booking, k);
    }
    forall b | 0 <= b < |e.bookings| ensures e.bookings[b].status == Refunded <==> HasRefund(e.refunds, b) {
      var n := |d.refunds|;
      assert HasRefund(d.refunds, b) ==> HasRefund(e.refunds, b) by {
        if HasRefund(d.refunds, b) { var r :| 0 <= r < n && d.refunds[r].booking == b; assert e.refunds[r].booking == b; }
      }
      if b == booking && |e.refunds| > n { assert e.refunds[n].booking == b; }
    }
  }

  lemma VoidKeepsTotals(d: Desk, booking: nat)
    requires TotalsAgree(d) && booking < |d.bookings|
    ensures TotalsAgree(Void(d, booking))
  {
    var e := Void(d, booking);
    forall b | 0 <= b < |d.bookings| ensures Total(|e.tickets|, FareAt(e.tickets, b)) == Total(|d.tickets|, FareAt(d.tickets, b)) {
      TotalCong(|d.tickets|, FareAt(d.tickets, b), FareAt(e.tickets, b));
    }
  }

  lemma VoidKeepsReferences(d: Desk, booking: nat)
    requires References(d) && booking < |d.bookings|
    ensures References(Void(d, booking))
  {
    var e := Void(d, booking);
    RowsOfBooking(d.payments, booking, d.fee, |d.payments|);
    forall t | 0 <= t < |e.tickets| ensures TicketOk(e, e.tickets[t]) { assert TicketOk(d, d.tickets[t]); }
  }

  lemma VoidKeepsRest(d: Desk, booking: nat)
    requires TicketStatuses(d) && KeysUnique(d) && booking < |d.bookings|
    ensures TicketStatuses(Void(d, booking)) && KeysUnique(Void(d, booking))
  {}

  lemma VoidKeepsMoney(d: Desk, booking: nat)
    requires MoneyInv(d) && booking < |d.bookings| && Live(d.bookings[booking])
    ensures MoneyInv(Void(d, booking))
  {
    VoidKeepsRefunds(d, booking);
    VoidKeepsTotals(d, booking);
    VoidKeepsReferences(d, booking);
    VoidKeepsRest(d, booking);
  }

  lemma VoidFrame(d: Desk, booking: nat)
    requires booking < |d.bookings|
    ensures var e := Void(d, booking);
      && e.seats == d.seats && e.trips == d.trips && |e.tickets| == |d.tickets|
      && (forall t :: 0 <= t < |d.tickets| ==> e.tickets[t].(status := d.tickets[t].status) == d.tickets[t])
      && (forall b :: 0 <= b < |d.bookings| && b != booking ==> e.bookings[b] == d.bookings[b])
      && e.bookings[booking] == d.bookings[booking].(status := e.bookings[booking].status) && !Live(e.bookings[booking])
  {}

  // ---------------------------------------------------------------- one booking

  /** The seats freed are exactly those of the cancelled booking, and no other booking sits there. */
  lemma FreedSeats(d: Desk, booking: nat, seat: nat)
    requires SeatLinks(d) && booking < |d.bookings| && d.bookings[booking].status == BookingStatus.Confirmed && seat < |d.seats|
    ensures SeatOf(d.tickets, booking, seat) ==>
      d.seats[seat].status == Booked && d.seats[seat].ticket.Some? && d.tickets[d.seats[seat].ticket.value].booking == booking
    ensures d.seats[seat].status == Booked && d.tickets[d.seats[seat].ticket.value].booking == booking ==> SeatOf(d.tickets, booking, seat)
  {
    assert SeatOk(d, d.seats[seat], seat);
    if SeatOf(d.tickets, booking, seat) {
      var t :| 0 <= t < |d.tickets| && d.tickets[t].booking == booking && d.tickets[t].seat == seat;
      assert TicketLive(d, t);
      assert SoldTo(d, d.tickets[t], t);
    }
  }

  lemma CancelKeepsSeatLinks(d: Desk, booking: nat)
    requires References(d) && SeatLinks(d) && CancelBooking(d, booking).Success?
    ensures SeatLinks(CancelBooking(d, booking).value)
  {
    var e := CancelBooking(d, booking).value;
    VoidFrame(d, booking);
    forall t | 0 <= t < |e.tickets| && TicketLive(e, t) ensures SoldTo(e, e.tickets[t], t) {
      assert TicketLive(d, t) by { assert TicketOk(d, d.tickets[t]); }
      assert SoldTo(d, d.tickets[t], t);
      FreedSeats(d, booking, d.tickets[t].seat);
    }
    forall i | 0 <= i < |e.seats| ensures SeatOk(e, e.seats[i], i) {
      assert SeatOk(d, d.seats[i], i);
      FreedSeats(d, booking, i);
    }
  }

  lemma CancelKeepsInv(d: Desk, booking: nat)
    requires DeskInv(d) && CancelBooking(d, booking).Success?
    ensures DeskInv(CancelBooking(d, booking).value)
  {
    hide MoneyInv;
    var v, e := Void(d, booking), CancelBooking(d, booking).value;
    CancelKeepsSeatLinks(d, booking);
    VoidKeepsMoney(d, booking);
    VoidFrame(d, booking);
    MoneyIgnoresSeats(v, e);
    forall b | 0 <= b < |e.bookings| && e.trips[e.bookings[b].trip].status == TripStatus.Cancelled ensures !Live(e.bookings[b]) {
      assert !Live(d.bookings[b]) || b == booking;
    }
  }

  /** The money invariants do not look at the state of seats or trips. */
  lemma MoneyIgnoresSeats(d: Desk, e: Desk)
    requires MoneyInv(d) && e == d.(seats := e.seats, trips := e.trips)
    requires |e.trips| == |d.trips| && |e.seats| == |d.seats| && forall i :: 0 <= i < |d.seats| ==> SameSeat(d.seats[i], e.seats[i])
    ensures MoneyInv(e)
  {
    forall i | 0 <= i < |e.seats| ensures e.seats[i].trip == d.seats[i].trip && e.seats[i].name == d.seats[i].name {
      assert SameSeat(d.seats[i], e.seats[i]);
    }
    forall t | 0 <= t < |e.tickets| ensures TicketOk(e, e.tickets[t]) {
      assert TicketOk(d, d.tickets[t]) && SameSeat(d.seats[d.tickets[t].seat], e.seats[d.tickets[t].seat]);
    }
  }

  // ---------------------------------------------------------------- a whole trip

  /** Ending the live bookings of a trip touches those bookings, their tickets and their money only. */
  lemma {:induction false} VoidTripFrame(d: Desk, trip: nat, n: nat)
    requires n <= |d.bookings|
    ensures var e := VoidTrip(d, trip, n);
      && e.seats == d.seats && e.trips == d.trips && |e.tickets| == |d.tickets|
      && (forall t :: 0 <= t < |d.tickets| ==> e.tickets[t].(status := d.tickets[t].status) == d.tickets[t])
      && (forall b :: 0 <= b < |d.bookings| ==>
            if b < n && d.bookings[b].trip == trip && Live(d.bookings[b])
            then !Live(e.bookings[b]) && e.bookings[b].(status := d.bookings[b].status) == d.bookings[b]
            else e.bookings[b] == d.bookings[b])
  {
    if n > 0 {
      VoidTripFrame(d, trip, n - 1);
      VoidFrame(VoidTrip(d, trip, n - 1), n - 1);
    }
  }

  lemma LaterBookingUntouched(d: Desk, trip: nat, n: nat)
    requires n < |d.bookings|
    ensures VoidTrip(d, trip, n).bookings[n] == d.bookings[n]
  {
    VoidTripFrame(d, trip, n);
  }

  lemma {:induction false} VoidTripKeepsMoney(d: Desk, trip: nat, n: nat)
    requires MoneyInv(d) && n <= |d.bookings|
    ensures MoneyInv(VoidTrip(d, trip, n))
  {
    hide MoneyInv;
    if n > 0 {
      VoidTripKeepsMoney(d, trip, n - 1);
      LaterBookingUntouched(d, trip, n - 1);
      if d.bookings[n - 1].trip == trip && Live(d.bookings[n - 1]) {
        VoidKeepsMoney(VoidTrip(d, trip, n - 1), n - 1);
      }
    }
  }

  lemma CancelTripKeepsSeatLinks(d: Desk, trip: nat)
    requires References(d) && SeatLinks(d) && CancelTrip(d, trip).Success?
    ensures SeatLinks(CancelTrip(d, trip).value)
  {
    var e := CancelTrip(d, trip).value;
    VoidTripFrame(d, trip, |d.bookings|);
    forall t | 0 <= t < |e.tickets| && TicketLive(e, t) ensures SoldTo(e, e.tickets[t], t) {
      assert TicketOk(d, d.tickets[t]);
      assert TicketLive(d, t);
      assert SoldTo(d, d.tickets[t], t);
    }
    forall i | 0 <= i < |e.seats| ensures SeatOk(e, e.seats[i], i) {
      assert SeatOk(d, d.seats[i], i);
      if d.seats[i].status == Booked { assert TicketOk(d, d.tickets[d.seats[i].ticket.value]); }
    }
  }

  lemma CancelTripKeepsInv(d: Desk, trip: nat)
    requires DeskInv(d) && CancelTrip(d, trip).Success?
    ensures DeskInv(CancelTrip(d, trip).value)
  {
    var v, e := VoidTrip(d, trip, |d.bookings|), CancelTrip(d, trip).value;
    CancelTripKeepsSeatLinks(d, trip);
    VoidTripKeepsMoney(d, trip, |d.bookings|);
    VoidTripFrame(d, trip, |d.bookings|);
    MoneyIgnoresSeats(v, e);
    forall b | 0 <= b < |e.bookings| && e.trips[e.bookings[b].trip].status == TripStatus.Cancelled ensures !Live(e.bookings[b]) {
      assert d.bookings[b].trip == trip || !Live(d.bookings[b]);
    }
  }
}
