/** Which bookings and trips can be cancelled, and what goes back to the passengers. */
module Refunds {
  import opened Wrappers
  import opened Sums
  import opened Money
  import opened TripDesk
  import opened DeskInvariants
  import opened Cancelling

  // ---------------------------------------------------------------- the amount of a refund

  /** The amount that goes back differs from what is paid less the fee by half a cent at most. */
  predicate PaidBackNearly(paid: nat, back: nat, fee: Fee) { -5000 <= 10000 * back - (10000 - fee) * paid <= 5000 }

  lemma DueNearly(p: Payment, fee: Fee)
    requires p.refunded == 0 && p.amount > 0
    ensures PaidBackNearly(p.amount, Due(p, fee), fee)
  {
    assert p.amount * (10000 - fee) == (10000 - fee) * p.amount;
  }

  /** After a cancellation the booking's payment has been paid back, less the fee, to within half a cent;
      no other payment changes. */
  lemma BookingRefundNearly(d: Desk, booking: nat)
    requires DeskInv(d) && CancelBooking(d, booking).Success?
    ensures var e := CancelBooking(d, booking).value;
      && |e.payments| == |d.payments| && booking < |d.payments|
      && PaidBackNearly(d.payments[booking].amount, e.payments[booking].refunded, d.fee)
      && (forall k :: 0 <= k < |d.payments| && k != booking ==> e.payments[k] == d.payments[k])
  {
    NoRefundYet(d, booking);
    DueNearly(d.payments[booking], d.fee);
  }

  predicate LiveOn(d: Desk, trip: nat, booking: nat) {
    booking < |d.bookings| && d.bookings[booking].trip == trip && (d.bookings[booking].status == Pending || d.bookings[booking].status == Confirmed)
  }

  function PaidBack(p: Payment, fee: Fee): Payment { AfterRefund(p, Due(p, fee)) }

  lemma VoidPayment(d: Desk, b: nat, k: nat)
    requires b < |d.bookings| && k < |d.payments| && d.payments[k].booking == k
    ensures |Void(d, b).payments| == |d.payments|
    ensures Void(d, b).payments[k] == if k == b then PaidBack(d.payments[k], d.fee) else d.payments[k]
  {}

  lemma {:induction false} VoidTripPayment(d: Desk, trip: nat, n: nat, k: nat)
    requires n <= |d.bookings| && k < |d.payments| && d.payments[k].booking == k
    ensures var e := VoidTrip(d, trip, n);
      && |e.payments| == |d.payments|
      && e.payments[k] == if k < n && LiveOn(d, trip, k) then PaidBack(d.payments[k], d.fee) else d.payments[k]
  {
    if n > 0 {
      VoidTripPayment(d, trip, n - 1, k);
      VoidPayment(VoidTrip(d, trip, n - 1), n - 1, k);
      hide Void;
    }
  }

  /** The same for each booking that ends with its trip; no payment of another booking changes. */
  lemma TripRefundsNearly(d: Desk, trip: nat, booking: nat)
    requires DeskInv(d) && CancelTrip(d, trip).Success? && booking < |d.bookings|
    ensures var e := CancelTrip(d, trip).value;
      && |e.payments| == |d.payments| && booking < |d.payments|
      && (if LiveOn(d, trip, booking) then PaidBackNearly(d.payments[booking].amount, e.payments[booking].refunded, d.fee)
          else e.payments[booking] == d.payments[booking])
  {
    VoidTripPayment(d, trip, |d.bookings|, booking);
    if LiveOn(d, trip, booking) {
      NoRefundYet(d, booking);
      DueNearly(d.payments[booking], d.fee);
    }
  }

  function PaidOn(d: Desk, trip: nat): nat -> int {
    (b: nat) => if LiveOn(d, trip, b) && b < |d.payments| then d.payments[b].amount else 0
  }
  function KeptOn(d: Desk, e: Desk, trip: nat): nat -> int {
    (b: nat) => if LiveOn(d, trip, b) && b < |d.payments| && b < |e.payments| then d.payments[b].amount - e.payments[b].refunded else 0
  }
  function CountOn(d: Desk, trip: nat): nat -> int { (b: nat) => if LiveOn(d, trip, b) then 1 else 0 }

  lemma {:induction false} KeptNearly(d: Desk, trip: nat, n: nat)
    requires DeskInv(d) && CancelTrip(d, trip).Success? && n <= |d.bookings|
    ensures var e := CancelTrip(d, trip).value;
      -5000 * Total(n, CountOn(d, trip)) <= 10000 * Total(n, KeptOn(d, e, trip)) - d.fee * Total(n, PaidOn(d, trip))
        <= 5000 * Total(n, CountOn(d, trip))
  {
    hide DeskInv, CancelTrip, KeptOn, PaidOn, CountOn;
    if n > 0 {
      var e := CancelTrip(d, trip).value;
      KeptNearly(d, trip, n - 1);
      KeptOfOne(d, trip, n - 1);
      KeptOfMore(d.fee, Total(n - 1, CountOn(d, trip)), Total(n - 1, KeptOn(d, e, trip)), Total(n - 1, PaidOn(d, trip)),
                 CountOn(d, trip)(n - 1), KeptOn(d, e, trip)(n - 1), PaidOn(d, trip)(n - 1));
    }
  }

  lemma KeptOfMore(fee: Fee, count: int, kept: int, paid: int, one: int, k: int, p: int)
    requires -5000 * count <= 10000 * kept - fee * paid <= 5000 * count && -5000 * one <= 10000 * k - fee * p <= 5000 * one
    ensures -5000 * (count + one) <= 10000 * (kept + k) - fee * (paid + p) <= 5000 * (count + one)
  {
    Distribute(fee, paid, p);
  }

  lemma KeptOfOne(d: Desk, trip: nat, b: nat)
    requires DeskInv(d) && CancelTrip(d, trip).Success? && b < |d.bookings|
    ensures var e := CancelTrip(d, trip).value;
      -5000 * CountOn(d, trip)(b) <= 10000 * KeptOn(d, e, trip)(b) - d.fee * PaidOn(d, trip)(b) <= 5000 * CountOn(d, trip)(b)
  {
    TripRefundsNearly(d, trip, b);
    hide DeskInv, CancelTrip;
    if LiveOn(d, trip, b) {
      var paid := d.payments[b].amount;
      assert (10000 - d.fee) * paid == 10000 * paid - d.fee * paid;
    }
  }

  /** Of all that was paid for the bookings that end with a trip, the fee is kept to within half a cent for
      each of them. */
  lemma TripKeepsFee(d: Desk, trip: nat)
    requires DeskInv(d) && CancelTrip(d, trip).Success?
    ensures var e, n := CancelTrip(d, trip).value, |d.bookings|;
      -5000 * Total(n, CountOn(d, trip)) <= 10000 * Total(n, KeptOn(d, e, trip)) - d.fee * Total(n, PaidOn(d, trip))
        <= 5000 * Total(n, CountOn(d, trip))
  {
    KeptNearly(d, trip, |d.bookings|);
  }

  // ---------------------------------------------------------------- what can be cancelled

  /** The seat was sold under the booking. */
  predicate SoldUnder(d: Desk, booking: nat, seat: nat) {
    seat < |d.seats| && d.seats[seat].status == Booked && d.seats[seat].ticket.Some?
    && d.seats[seat].ticket.value < |d.tickets| && d.tickets[d.seats[seat].ticket.value].booking == booking
  }

  predicate CanCancel(d: Desk, booking: nat) {
    && booking < |d.bookings| && d.bookings[booking].status == Confirmed
    && d.bookings[booking].trip < |d.trips|
    && d.trips[d.bookings[booking].trip].status != Departed && d.trips[d.bookings[booking].trip].status != Completed
  }

  /** A booking can be cancelled exactly while it is confirmed and its trip has not departed or been
      completed. Its seats go back on sale, a full trip is open again, and no other seat or trip changes. */
  lemma CancellationExactly(d: Desk, booking: nat)
    requires DeskInv(d)
    ensures var r := CancelBooking(d, booking);
      && (r.Success? <==> CanCancel(d, booking))
      && (r.Failure? ==> r.error == if booking < |d.bookings| then Conflict else NotFound)
      && (r.Success? ==> SeatsFreed(d, r.value, booking) && TripReopened(d, r.value, d.bookings[booking].trip))
  {
    if CancelBooking(d, booking).Success? {
      forall i | 0 <= i < |d.seats| ensures SeatOf(d.tickets, booking, i) <==> SoldUnder(d, booking, i) {
        assert SeatOk(d, d.seats[i], i);
        FreedSeats(d, booking, i);
      }
    }
  }

  predicate SeatsFreed(d: Desk, e: Desk, booking: nat) {
    |e.seats| == |d.seats| && forall i :: 0 <= i < |d.seats| ==>
      e.seats[i] == if SoldUnder(d, booking, i) then d.seats[i].(status := Available, ticket := None) else d.seats[i]
  }

  predicate TripReopened(d: Desk, e: Desk, trip: nat) {
    |e.trips| == |d.trips| && forall t :: 0 <= t < |d.trips| ==>
      e.trips[t] == if t == trip && d.trips[t].status == TripStatus.Full then d.trips[t].(status := Open) else d.trips[t]
  }

  predicate CanCancelTrip(d: Desk, trip: nat) {
    trip < |d.trips| && d.trips[trip].status != TripStatus.Cancelled && d.trips[trip].status != Completed
  }

  /** A trip can be cancelled exactly when it is neither cancelled nor completed already, even after it has
      departed. All its seats are blocked, it is cancelled, and no other seat or trip changes. */
  lemma TripCancellationExactly(d: Desk, trip: nat)
    ensures var r := CancelTrip(d, trip);
      && (r.Success? <==> CanCancelTrip(d, trip))
      && (r.Failure? ==> r.error == if trip < |d.trips| then Conflict else NotFound)
      && (r.Success? ==>
            && |r.value.seats| == |d.seats| && |r.value.trips| == |d.trips|
            && (forall i :: 0 <= i < |d.seats| ==>
                  r.value.seats[i] == if d.seats[i].trip == trip then d.seats[i].(status := Blocked) else d.seats[i])
            && (forall t :: 0 <= t < |d.trips| ==>
                  r.value.trips[t] == if t == trip then d.trips[t].(status := TripStatus.Cancelled) else d.trips[t]))
  {}

  /** Once its booking is cancelled a ticket is REFUNDED when money went back and CANCELLED otherwise, like
      the booking; the payment shows whether all, some or none of it went back. */
  lemma CancelledStates(d: Desk, booking: nat, t: nat)
    requires DeskInv(d) && CancelBooking(d, booking).Success? && t < |d.tickets|
    ensures var e := CancelBooking(d, booking).value;
      var back := e.payments[booking].refunded;
      && e.bookings[booking].status == (if back > 0 then Refunded else Dropped)
      && |e.tickets| == |d.tickets|
      && e.tickets[t].status == (if d.tickets[t].booking != booking then d.tickets[t].status
                                 else if back > 0 then TicketRefunded else TicketDropped)
      && e.payments[booking].status == (if back == 0 then Paid else if back == d.payments[booking].amount then Returned else PartlyReturned)
  {
    NoRefundYet(d, booking);
    RowsOfBooking(d.payments, booking, d.fee, |d.payments|);
    assert StatusOk(d.payments[booking]);
  }
}
