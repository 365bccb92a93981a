/** Selling seats keeps the desk's invariants and charges the prices of the seats sold. */
module Selling {
  import opened Wrappers
  import opened Sums
  import opened Idempotency
  import opened TripDesk
  import opened DeskInvariants

  predicate MaySell(d: Desk, trip: nat, ids: seq<nat>, user: nat, key: Key, now: int) {
    && trip < |d.trips| && Bookable(d.trips[trip].status)
    && AllFound(d, trip, ids) && AllClaimable(d, ids, user, now) && ids != []
    && BookingWithKey(d.bookings, key, 0).None?
  }

  lemma {:induction false} KeySearch(bookings: seq<Booking>, key: Key, from: nat)
    requires from <= |bookings|
    ensures var r := BookingWithKey(bookings, key, from);
      if r.Some? then from <= r.value < |bookings| && bookings[r.value].key == key
                      && forall i :: from <= i < r.value ==> bookings[i].key != key
      else forall i :: from <= i < |bookings| ==> bookings[i].key != key
    decreases |bookings| - from
  {
    if from < |bookings| { KeySearch(bookings, key, from + 1); }
  }

  /** A seat in the order becomes booked under its own ticket; every other seat is untouched. */
  lemma {:induction false} SoldSeatsAre(d: Desk, ids: seq<nat>, n: nat)
    requires Distinct(ids) && n <= |ids| && forall k :: 0 <= k < |ids| ==> ids[k] < |d.seats|
    ensures forall k :: 0 <= k < n ==>
      SoldSeats(d, ids, n)[ids[k]] == d.seats[ids[k]].(status := Booked, ticket := Some(|d.tickets| + k))
    ensures forall i :: 0 <= i < |d.seats| && i !in ids[..n] ==> SoldSeats(d, ids, n)[i] == d.seats[i]
  {
    if n > 0 {
      SoldSeatsAre(d, ids, n - 1);
      assert ids[..n] == ids[..n - 1] + [ids[n - 1]];
    }
  }

  lemma PricePositive(d: Desk, ids: seq<nat>)
    requires SeatLinks(d) && ids != [] && forall k :: 0 <= k < |ids| ==> ids[k] < |d.seats|
    ensures PriceOf(d.seats, ids) > 0
  {
    forall k: nat | k < |ids| ensures PriceAt(d.seats, ids)(k) > 0 { assert SeatOk(d, d.seats[ids[k]], ids[k]); }
    TotalNonNegative(|ids| - 1, PriceAt(d.seats, ids));
  }

  lemma OldFaresAre(d: Desk, ids: seq<nat>, booking: nat)
    requires booking < |d.bookings|
    ensures Total(|d.tickets| + |ids|, FareAt(d.tickets + NewTickets(d, ids, |ids|), booking)) == Total(|d.tickets|, FareAt(d.tickets, booking))
  {
    TotalGrow(|d.tickets|, |d.tickets| + |ids|, FareAt(d.tickets, booking), FareAt(d.tickets + NewTickets(d, ids, |ids|), booking));
  }

  lemma NewFareIs(d: Desk, ids: seq<nat>, i: nat)
    requires i < |ids|
    ensures FareAt(d.tickets + NewTickets(d, ids, |ids|), |d.bookings|)(|d.tickets| + i) == PriceAt(d.seats, ids)(i)
  {}

  lemma OldFareIs(d: Desk, ids: seq<nat>, t: nat)
    requires References(d) && t < |d.tickets|
    ensures FareAt(d.tickets + NewTickets(d, ids, |ids|), |d.bookings|)(t) == 0
  {
    assert TicketOk(d, d.tickets[t]);
  }

  lemma NewFaresAre(d: Desk, ids: seq<nat>)
    requires References(d)
    ensures Total(|d.tickets| + |ids|, FareAt(d.tickets + NewTickets(d, ids, |ids|), |d.bookings|)) == PriceOf(d.seats, ids)
  {
    var f, g := FareAt(d.tickets + NewTickets(d, ids, |ids|), |d.bookings|), PriceAt(d.seats, ids);
    forall t: nat | t < |d.tickets| ensures f(t) == 0 { OldFareIs(d, ids, t); }
    forall i: nat | i < |ids| ensures f(|d.tickets| + i) == g(i) { NewFareIs(d, ids, i); }
    TotalTail(|d.tickets|, |ids|, f, g);
  }

  lemma SellKeepsTotals(d: Desk, trip: nat, ids: seq<nat>, agent: Option<nat>, key: Key)
    requires References(d) && SeatLinks(d) && TotalsAgree(d) && AllFound(d, trip, ids) && trip < |d.trips| && ids != []
    ensures TotalsAgree(Sell(d, trip, ids, agent, key))
  {
    var e := Sell(d, trip, ids, agent, key);
    PricePositive(d, ids);
    NewFaresAre(d, ids);
    forall b | 0 <= b < |d.bookings|
      ensures e.bookings[b].total == Total(|e.tickets|, FareAt(e.tickets, b)) == e.payments[b].amount
    {
      OldFaresAre(d, ids, b);
    }
  }

  lemma SellKeepsRefunds(d: Desk, trip: nat, ids: seq<nat>, agent: Option<nat>, key: Key)
    requires References(d) && RefundsAgree(d) && trip < |d.trips|
    ensures RefundsAgree(Sell(d, trip, ids, agent, key))
  {
    var b := |d.bookings|;
    assert !HasRefund(d.refunds, b);
    TotalZero(|d.refunds|, RefundAt(d.refunds, b));
    hide References, SoldSeats, NewTickets, SoldOut;
  }

  /** No booked seat can be claimed. */
  lemma BookedNotClaimed(d: Desk, ids: seq<nat>, user: nat, now: int, seat: nat)
    requires AllClaimable(d, ids, user, now) && seat < |d.seats| && d.seats[seat].status == Booked
    ensures seat !in ids
  {}

  lemma SoldTicketStays(d: Desk, ids: seq<nat>, user: nat, now: int, t: nat)
    requires SeatLinks(d) && Distinct(ids) && AllClaimable(d, ids, user, now) && t < |d.tickets| && TicketLive(d, t)
    ensures SoldTo(d.(seats := SoldSeats(d, ids, |ids|)), d.tickets[t], t)
  {
    assert SoldTo(d, d.tickets[t], t);
    BookedNotClaimed(d, ids, user, now, d.tickets[t].seat);
    SoldSeatsAre(d, ids, |ids|);
    assert ids[..|ids|] == ids;
  }

  lemma {:induction false} NewTicketSold(d: Desk, ids: seq<nat>, user: nat, now: int, k: nat)
    requires Distinct(ids) && AllClaimable(d, ids, user, now) && k < |ids|
    ensures SoldTo(d.(seats := SoldSeats(d, ids, |ids|)), NewTicket(d, ids[k]), |d.tickets| + k)
  {
    SoldSeatsAre(d, ids, |ids|);
    assert ids[..|ids|] == ids;
  }

  lemma SoldSeatOk(d: Desk, ids: seq<nat>, user: nat, now: int, i: nat) returns (k: nat)
    requires SeatLinks(d) && Distinct(ids) && AllClaimable(d, ids, user, now) && i < |d.seats|
    ensures var s := SoldSeats(d, ids, |ids|)[i];
      && s.price > 0 && (!Sellable(s.kind) ==> s.status == Blocked)
      && if i in ids then k < |ids| && ids[k] == i && s.ticket == Some(|d.tickets| + k) else s == d.seats[i]
  {
    assert SeatOk(d, d.seats[i], i);
    SoldSeatsAre(d, ids, |ids|);
    assert ids[..|ids|] == ids;
    k := 0;
    if i in ids {
      k :| 0 <= k < |ids| && ids[k] == i;
      assert Claimable(d.seats[ids[k]], user, now);
    }
  }

  lemma SellKeepsTickets(d: Desk, trip: nat, ids: seq<nat>, agent: Option<nat>, key: Key, user: nat, now: int, t: nat)
    requires References(d) && SeatLinks(d) && MaySell(d, trip, ids, user, key, now) && t < |d.tickets| + |ids|
    ensures var e := Sell(d, trip, ids, agent, key); TicketLive(e, t) ==> SoldTo(e, e.tickets[t], t)
  {
    var e := Sell(d, trip, ids, agent, key);
    if t < |d.tickets| {
      assert TicketOk(d, d.tickets[t]);
      if TicketLive(d, t) { SoldTicketStays(d, ids, user, now, t); }
    } else {
      var k := t - |d.tickets|;
      assert e.tickets[|d.tickets| + k] == NewTicket(d, ids[k]);
      NewTicketSold(d, ids, user, now, k);
    }
  }

  lemma SellKeepsSeats(d: Desk, trip: nat, ids: seq<nat>, agent: Option<nat>, key: Key, user: nat, now: int, i: nat)
    requires SeatLinks(d) && MaySell(d, trip, ids, user, key, now) && i < |d.seats|
    ensures var e := Sell(d, trip, ids, agent, key); SeatOk(e, e.seats[i], i)
  {
    var e := Sell(d, trip, ids, agent, key);
    var k := SoldSeatOk(d, ids, user, now, i);
    if i in ids {
      assert e.tickets[|d.tickets| + k] == NewTicket(d, ids[k]);
    } else {
      assert SeatOk(d, d.seats[i], i);
    }
  }

  lemma SellKeepsSeatLinks(d: Desk, trip: nat, ids: seq<nat>, agent: Option<nat>, key: Key, user: nat, now: int)
    requires References(d) && SeatLinks(d) && MaySell(d, trip, ids, user, key, now)
    ensures SeatLinks(Sell(d, trip, ids, agent, key))
  {
    var e := Sell(d, trip, ids, agent, key);
    forall t | 0 <= t < |e.tickets| && TicketLive(e, t) ensures SoldTo(e, e.tickets[t], t) {
      SellKeepsTickets(d, trip, ids, agent, key, user, now, t);
    }
    forall i | 0 <= i < |e.seats| ensures SeatOk(e, e.seats[i], i) {
      SellKeepsSeats(d, trip, ids, agent, key, user, now, i);
    }
  }

  lemma SellKeepsReferences(d: Desk, trip: nat, ids: seq<nat>, agent: Option<nat>, key: Key)
    requires References(d) && TicketStatuses(d) && trip < |d.trips| && AllFound(d, trip, ids)
    ensures References(Sell(d, trip, ids, agent, key)) && TicketStatuses(Sell(d, trip, ids, agent, key))
  {
    var e := Sell(d, trip, ids, agent, key);
    var n := |d.tickets|;
    forall i | 0 <= i < |e.seats| ensures e.seats[i].trip < |e.trips| { assert SameSeat(d.seats[i], e.seats[i]); }
    forall t | 0 <= t < |e.tickets| ensures TicketOk(e, e.tickets[t])
      && e.tickets[t].status == StatusFor(e.bookings[e.tickets[t].booking].status)
    {
      if t < n {
        assert TicketOk(d, d.tickets[t]) && SameSeat(d.seats[d.tickets[t].seat], e.seats[d.tickets[t].seat]);
      } else {
        var k := t - n;
        assert e.tickets[n + k] == NewTicket(d, ids[k]) && SameSeat(d.seats[ids[k]], e.seats[ids[k]]);
      }
    }
  }

  lemma SellKeepsNames(d: Desk, trip: nat, ids: seq<nat>, agent: Option<nat>, key: Key)
    requires NamesUnique(d) && trip < |d.trips|
    ensures NamesUnique(Sell(d, trip, ids, agent, key))
  {
    var e := Sell(d, trip, ids, agent, key);
    forall i | 0 <= i < |e.seats| ensures e.seats[i].trip == d.seats[i].trip && e.seats[i].name == d.seats[i].name {
      assert SameSeat(d.seats[i], e.seats[i]);
    }
  }

  lemma SellKeepsBookings(d: Desk, trip: nat, ids: seq<nat>, agent: Option<nat>, key: Key)
    requires KeysUnique(d) && CancelledTripsEmpty(d) && trip < |d.trips| && Bookable(d.trips[trip].status) && BookingWithKey(d.bookings, key, 0).None?
    ensures KeysUnique(Sell(d, trip, ids, agent, key)) && CancelledTripsEmpty(Sell(d, trip, ids, agent, key))
  {
    KeySearch(d.bookings, key, 0);
  }

  lemma SellKeepsInv(d: Desk, trip: nat, ids: seq<nat>, agent: Option<nat>, key: Key, user: nat, now: int)
    requires DeskInv(d) && MaySell(d, trip, ids, user, key, now)
    ensures DeskInv(Sell(d, trip, ids, agent, key))
  {
    SellKeepsReferences(d, trip, ids, agent, key);
    SellKeepsSeatLinks(d, trip, ids, agent, key, user, now);
    SellKeepsTotals(d, trip, ids, agent, key);
    SellKeepsRefunds(d, trip, ids, agent, key);
    SellKeepsNames(d, trip, ids, agent, key);
    SellKeepsBookings(d, trip, ids, agent, key);
  }
}
