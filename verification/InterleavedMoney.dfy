/** Money adds up under every interleaving of statements, stale prices and edits included. */
module InterleavedMoney {
  import opened Sums
  import opened TripDesk
  import opened DeskInvariants
  import opened Selling
  import opened Cancelling
  import opened Interleaving

  // ---------------------------------------------------------------- a sale at the prices read

  lemma NewTicketsAt(d: Desk, ids: seq<nat>, prices: seq<nat>, k: nat)
    requires |prices| == |ids| && k < |ids|
    ensures TicketsAt(d, ids, prices)[k] == Ticket(|d.bookings|, ids[k], prices[k], Issued)
  {}

  lemma OldFares(d: Desk, ids: seq<nat>, prices: seq<nat>, b: nat)
    requires |prices| == |ids| && b < |d.bookings|
    ensures Total(|d.tickets| + |ids|, FareAt(d.tickets + TicketsAt(d, ids, prices), b)) == Total(|d.tickets|, FareAt(d.tickets, b))
  {
    TotalGrow(|d.tickets|, |d.tickets| + |ids|, FareAt(d.tickets, b), FareAt(d.tickets + TicketsAt(d, ids, prices), b));
  }

  lemma OldFareIsNone(d: Desk, ids: seq<nat>, prices: seq<nat>, t: nat)
    requires References(d) && |prices| == |ids| && t < |d.tickets|
    ensures FareAt(d.tickets + TicketsAt(d, ids, prices), |d.bookings|)(t) == 0
  {
    assert TicketOk(d, d.tickets[t]);
  }

  lemma NewFareIsPrice(d: Desk, ids: seq<nat>, prices: seq<nat>, k: nat)
    requires |prices| == |ids| && k < |ids|
    ensures FareAt(d.tickets + TicketsAt(d, ids, prices), |d.bookings|)(|d.tickets| + k) == PricesAt(prices)(k)
  {}

  lemma NewFares(d: Desk, ids: seq<nat>, prices: seq<nat>)
    requires References(d) && |prices| == |ids|
    ensures Total(|d.tickets| + |ids|, FareAt(d.tickets + TicketsAt(d, ids, prices), |d.bookings|)) == Charged(prices)
  {
    hide References, TicketsAt, FareAt, PricesAt;
    var n, f, g := |d.tickets|, FareAt(d.tickets + TicketsAt(d, ids, prices), |d.bookings|), PricesAt(prices);
    forall t: nat | t < n ensures f(t) == 0 { OldFareIsNone(d, ids, prices, t); }
    forall k: nat | k < |ids| ensures g(k) == f(n + k) { NewFareIsPrice(d, ids, prices, k); }
    TotalTail(n, |ids|, f, g);
  }

  lemma ChargedPositive(prices: seq<nat>)
    requires prices != [] && forall k :: 0 <= k < |prices| ==> prices[k] > 0
    ensures Charged(prices) > 0
  {
    TotalNonNegative(|prices| - 1, PricesAt(prices));
  }

  predicate TotalAgrees(d: Desk, b: nat) {
    b < |d.bookings| && b < |d.payments| && d.bookings[b].total == Total(|d.tickets|, FareAt(d.tickets, b))
    && d.bookings[b].total == d.payments[b].amount > 0
  }

  lemma OldTotalStays(d: Desk, trip: nat, act: Act, prices: seq<nat>, full: bool, b: nat)
    requires TotalsAgree(d) && act.Buy? && |prices| == |act.ids| && b < |d.bookings|
    ensures TotalAgrees(SellAt(d, trip, act, prices, full), b)
  {
    OldFares(d, act.ids, prices, b);
    hide TicketsAt, SoldSeats, Charged, FareAt;
  }

  lemma NewTotalAgrees(d: Desk, trip: nat, act: Act, prices: seq<nat>, full: bool)
    requires References(d) && act.Buy? && |prices| == |act.ids| && prices != []
    requires forall k :: 0 <= k < |prices| ==> prices[k] > 0
    ensures TotalAgrees(SellAt(d, trip, act, prices, full), |d.bookings|)
  {
    ChargedPositive(prices);
    NewFares(d, act.ids, prices);
    assert |d.payments| == |d.bookings|;
    hide References, TicketsAt, SoldSeats, Charged, FareAt;
  }

  lemma SaleKeepsTotal(d: Desk, trip: nat, act: Act, prices: seq<nat>, full: bool, b: nat)
    requires References(d) && TotalsAgree(d) && act.Buy? && |prices| == |act.ids| && prices != []
    requires (forall k :: 0 <= k < |prices| ==> prices[k] > 0) && b <= |d.bookings|
    ensures TotalAgrees(SellAt(d, trip, act, prices, full), b)
  {
    hide SellAt, References, TotalsAgree;
    if b < |d.bookings| { OldTotalStays(d, trip, act, prices, full, b); } else { NewTotalAgrees(d, trip, act, prices, full); }
  }

  lemma SaleKeepsTotals(d: Desk, trip: nat, act: Act, prices: seq<nat>, full: bool)
    requires References(d) && TotalsAgree(d) && OrderOk(d, trip, act, prices)
    requires forall k :: 0 <= k < |prices| ==> prices[k] > 0
    ensures TotalsAgree(SellAt(d, trip, act, prices, full))
  {
    var e := SellAt(d, trip, act, prices, full);
    forall b | 0 <= b < |e.bookings|
      ensures e.bookings[b].total == Total(|e.tickets|, FareAt(e.tickets, b)) && e.bookings[b].total == e.payments[b].amount > 0
    {
      SaleKeepsTotal(d, trip, act, prices, full, b);
    }
    hide References, TicketsAt, SoldSeats, Charged, AllFound, StillDue, FareAt;
  }

  lemma SaleKeepsRefunds(d: Desk, trip: nat, act: Act, prices: seq<nat>, full: bool)
    requires References(d) && RefundsAgree(d) && act.Buy? && |prices| == |act.ids|
    ensures RefundsAgree(SellAt(d, trip, act, prices, full))
  {
    var b := |d.bookings|;
    assert !HasRefund(d.refunds, b);
    TotalZero(|d.refunds|, RefundAt(d.refunds, b));
    hide References, SoldSeats, TicketsAt;
  }

  lemma SaleKeepsRest(d: Desk, trip: nat, act: Act, prices: seq<nat>, full: bool)
    requires TicketStatuses(d) && KeysUnique(d) && NamesUnique(d) && OrderOk(d, trip, act, prices)
    ensures var e := SellAt(d, trip, act, prices, full); TicketStatuses(e) && KeysUnique(e) && NamesUnique(e)
  {
    var e := SellAt(d, trip, act, prices, full);
    KeySearch(d.bookings, act.key, 0);
    forall i | 0 <= i < |e.seats| ensures e.seats[i].trip == d.seats[i].trip && e.seats[i].name == d.seats[i].name {
      assert SameSeat(d.seats[i], e.seats[i]);
    }
    forall t | 0 <= t < |e.tickets|
      ensures e.tickets[t].booking < |e.bookings| && e.tickets[t].status == StatusFor(e.bookings[e.tickets[t].booking].status)
    {
      if t >= |d.tickets| { NewTicketsAt(d, act.ids, prices, t - |d.tickets|); }
    }
  }

  // ---------------------------------------------------------------- the other commits

  /** Money does not look at the state or the price of seats, or at trips. */
  lemma MoneyIgnoresEdits(d: Desk, e: Desk)
    requires MoneyInv(d) && e == d.(seats := e.seats, trips := e.trips)
    requires |e.trips| == |d.trips| && |e.seats| == |d.seats|
    requires forall i :: 0 <= i < |d.seats| ==> e.seats[i].trip == d.seats[i].trip && e.seats[i].name == d.seats[i].name
    ensures MoneyInv(e)
  {
    ReseatKeepsReferences(d, e);
  }

  lemma SinglesKeepMoney(d: Desk, s: Single)
    requires MoneyInv(d)
    ensures MoneyInv(After(d, s))
  {
    hide MoneyInv;
    SinglesFrame(d, s);
    forall i | 0 <= i < |d.seats| ensures After(d, s).seats[i].trip == d.seats[i].trip && After(d, s).seats[i].name == d.seats[i].name {
      assert SeatEdited(d.seats[i], After(d, s).seats[i]);
    }
    MoneyIgnoresEdits(d, After(d, s));
  }

  predicate PricesPositive(t: Txn) {
    (t.Claiming? || t.Counted?) ==> forall k :: 0 <= k < |t.prices| ==> t.prices[k] > 0
  }

  lemma EndingKeepsMoney(d: Desk, trip: nat, t: Txn)
    requires MoneyInv(d) && ReadyToCommit(d, trip, t) && TxnOk(d, trip, t) && !t.Counted?
    ensures MoneyInv(Effect(d, trip, t))
  {
    hide References, TotalsAgree, RefundsAgree, TicketStatuses, KeysUnique, NamesUnique;
    if t.act.EndBooking? {
      VoidKeepsMoney(d, t.act.booking);
      VoidFrame(d, t.act.booking);
      MoneyIgnoresEdits(Void(d, t.act.booking), Effect(d, trip, t));
    } else if t.act.EndTrip? {
      VoidTripKeepsMoney(d, trip, |d.bookings|);
      VoidTripFrame(d, trip, |d.bookings|);
      MoneyIgnoresEdits(VoidTrip(d, trip, |d.bookings|), Effect(d, trip, t));
    } else {
      MoneyIgnoresEdits(d, Effect(d, trip, t));
    }
  }

  lemma EffectKeepsMoney(d: Desk, trip: nat, t: Txn)
    requires MoneyInv(d) && ReadyToCommit(d, trip, t) && TxnOk(d, trip, t) && PricesPositive(t)
    ensures MoneyInv(Effect(d, trip, t))
  {
    if t.Counted? {
      hide TotalsAgree, RefundsAgree, TicketStatuses, KeysUnique, NamesUnique, SellAt;
      SellKeepsTicketReferences(d, trip, t.act, t.prices, t.full);
      SaleKeepsTotals(d, trip, t.act, t.prices, t.full);
      SaleKeepsRefunds(d, trip, t.act, t.prices, t.full);
      SaleKeepsRest(d, trip, t.act, t.prices, t.full);
    } else {
      EndingKeepsMoney(d, trip, t);
    }
  }

  lemma NextKeepsPrices(w: World, s: Statement, trip: nat)
    requires Linked(w.desk) && Enabled(w, s) && trip in Next(w, s).active
    requires forall t :: t in w.active ==> PricesPositive(w.active[t])
    ensures PricesPositive(Next(w, s).active[trip])
  {
    if s.ReadSeats? && s.trip == trip {
      var ids := w.active[trip].act.ids;
      forall k | 0 <= k < |ids| ensures PricesOf(w.desk.seats, ids)[k] > 0 {
        assert SeatOk(Aligned(w.desk), w.desk.seats[ids[k]], ids[k]);
      }
    }
  }

  lemma {:induction false} ScheduleKeepsMoney(d: Desk, schedule: seq<Statement>)
    requires MoneyInv(d) && Linked(d) && Legal(d, schedule)
    ensures MoneyInv(At(d, schedule).desk)
    ensures forall trip :: trip in At(d, schedule).active ==> PricesPositive(At(d, schedule).active[trip])
  {
    if schedule != [] {
      var before := schedule[..|schedule| - 1];
      var w, s := At(d, before), schedule[|schedule| - 1];
      ScheduleKeepsMoney(d, before);
      ScheduleKeepsLinked(d, before);
      hide MoneyInv, Linked, PricesPositive, Effect, After, TxnOk;
      if s.Commit? { EffectKeepsMoney(w.desk, s.trip, w.active[s.trip]); }
      if s.Alone? { SinglesKeepMoney(w.desk, s.single); }
      forall trip | trip in Next(w, s).active ensures PricesPositive(Next(w, s).active[trip]) { NextKeepsPrices(w, s, trip); }
    }
  }

  /** Whatever the interleaving, in every committed state a booking's total is the sum of its fares and its
      payment, what was refunded is the sum of its refunds and within the payment, and the booking is
      REFUNDED exactly when there is a refund. */
  lemma MoneyAddsUpEver(d: Desk, schedule: seq<Statement>, b: nat)
    requires DeskInv(d) && Legal(d, schedule) && b < |At(d, schedule).desk.bookings|
    ensures var e := At(d, schedule).desk;
      && |e.payments| == |e.bookings|
      && e.bookings[b].total == Total(|e.tickets|, FareAt(e.tickets, b)) == e.payments[b].amount
      && e.payments[b].refunded == Total(|e.refunds|, RefundAt(e.refunds, b)) <= e.payments[b].amount
      && (e.bookings[b].status == Refunded <==> HasRefund(e.refunds, b))
  {
    LinksAlign(d);
    ScheduleKeepsMoney(d, schedule);
  }
}
