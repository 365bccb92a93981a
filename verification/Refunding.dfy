/** What the cancellation of a booking and of a whole trip have in common: the refund of a
    booking's payments, and the statements that end the booking. */
module Refunding {
  import opened Sums
  import opened Money
  import Desks = TripDesk
  import Agencies = Settlements
  import Ledgers = GeneralLedger
  import opened Backend
  import opened Database

  function RowAt(rows: seq<Desks.Refund>): nat -> int { (r: nat) => if r < |rows| then rows[r].amount else 0 }

  /** What a list of refunds gives back. */
  function GivenBack(rows: seq<Desks.Refund>): int { Total(|rows|, RowAt(rows)) }

  lemma GivenBackOneMore(rows: seq<Desks.Refund>, row: Desks.Refund)
    ensures GivenBack(rows + [row]) == GivenBack(rows) + row.amount
  {
    TotalCong(|rows|, RowAt(rows), RowAt(rows + [row]));
  }

  /** Refunds what is left of one payment, if it is the booking's. The trigger never refuses. */
  method RefundPayment(db: Tables, booking: nat, p: nat, now: int) returns (amount: nat)
    requires p < |db.payments|
    modifies db`payments, db`refunds, db`events
    ensures amount == if old(db.payments)[p].booking == booking then Desks.Due(old(db.payments)[p], db.fee) else 0
    ensures db.payments == old(db.payments)[p := Desks.AfterRefund(old(db.payments)[p], amount)]
    ensures db.refunds == if amount > 0 then old(db.refunds) + [Desks.Refund(booking, p, amount)] else old(db.refunds)
    ensures db.events == if amount > 0 then Enqueue(old(db.events), Ledgers.RefundCompleted, |old(db.refunds)|, now) else old(db.events)
  {
    var payment := db.payments[p];
    amount := 0;
    if payment.booking == booking && payment.refunded < payment.amount {
      amount := HalfUp((payment.amount - payment.refunded) * (WHOLE - db.fee));
      assert amount == Desks.Due(payment, db.fee);
      if amount > 0 {
        var ok := db.InsertRefund(booking, p, amount);
        assert ok;
        db.EnqueueEvent(Ledgers.RefundCompleted, |db.refunds| - 1, now);
      }
    }
  }

  /** The payments once those among the first n that are the booking's have been refunded. */
  predicate PartlyRefunded(before: seq<Desks.Payment>, after: seq<Desks.Payment>, booking: nat, fee: Fee, n: nat) {
    |after| == |before| && forall k :: 0 <= k < |before| ==>
      after[k] == if k < n && before[k].booking == booking then Desks.AfterRefund(before[k], Desks.Due(before[k], fee)) else before[k]
  }

  /** Refunds what is left of each payment of a booking, less the cancellation fee. */
  method RefundPayments(db: Tables, booking: nat, now: int) returns (total: nat)
    modifies db`payments, db`refunds, db`events
    ensures db.payments == Desks.RefundedPayments(old(db.payments), booking, db.fee)
    ensures db.refunds == old(db.refunds) + Desks.RefundRows(old(db.payments), booking, db.fee, |old(db.payments)|)
    ensures db.events == EnqueueRefunds(old(db.events), |old(db.refunds)|, |db.refunds|, now)
    ensures total == GivenBack(Desks.RefundRows(old(db.payments), booking, db.fee, |old(db.payments)|))
    ensures total > 0 <==> Desks.RefundRows(old(db.payments), booking, db.fee, |old(db.payments)|) != []
  {
    hide Desks.Due, Desks.AfterRefund, Enqueue;
    total := 0;
    ghost var payments, refunds, events := db.payments, db.refunds, db.events;
    var n := |db.payments|;
    for p := 0 to n
      invariant PartlyRefunded(payments, db.payments, booking, db.fee, p)
      invariant db.refunds == refunds + Desks.RefundRows(payments, booking, db.fee, p)
      invariant db.events == EnqueueRefunds(events, |refunds|, |db.refunds|, now)
      invariant total == GivenBack(Desks.RefundRows(payments, booking, db.fee, p))
      invariant total > 0 <==> Desks.RefundRows(payments, booking, db.fee, p) != []
    {
      ghost var rows := Desks.RefundRows(payments, booking, db.fee, p);
      var amount := RefundPayment(db, booking, p, now);
      NothingDue(payments[p]);
      GivenBackOneMore(rows, Desks.Refund(booking, p, amount));
      total := total + amount;
    }
  }

  lemma NothingDue(p: Desks.Payment)
    ensures Desks.AfterRefund(p, 0) == p
  {}

  /** Ends the booking, its tickets and its commissions once its payments are refunded. */
  method EndBooking(db: Tables, booking: nat, refunded: bool)
    requires booking < |db.bookings|
    modifies db`bookings, db`tickets, db`commissions
    ensures db.bookings == old(db.bookings)[booking := old(db.bookings)[booking].(status := if refunded then Desks.Refunded else Desks.Dropped)]
    ensures db.tickets == EndedTickets(old(db.tickets), booking, refunded)
    ensures db.commissions == Agencies.Reverse(old(db.commissions), booking)
  {
    db.tickets := EndedTickets(db.tickets, booking, refunded);
    db.commissions := Agencies.Reverse(db.commissions, booking);
    db.bookings := db.bookings[booking := db.bookings[booking].(status := if refunded then Desks.Refunded else Desks.Dropped)];
  }

  function EndedTickets(tickets: seq<Desks.Ticket>, booking: nat, refunded: bool): (after: seq<Desks.Ticket>)
    ensures |after| == |tickets|
  {
    seq(|tickets|, t requires 0 <= t < |tickets| =>
      if tickets[t].booking == booking
      then tickets[t].(status := if refunded then Desks.TicketRefunded else Desks.TicketDropped) else tickets[t])
  }

  /** Refund and end together are the end of the booking as one change of the desk. */
  lemma EndedIsVoid(d: Desks.Desk, booking: nat, refunded: bool)
    requires booking < |d.bookings| && (refunded <==> Desks.RefundRows(d.payments, booking, d.fee, |d.payments|) != [])
    ensures Desks.Void(d, booking) == d.(payments := Desks.RefundedPayments(d.payments, booking, d.fee),
      refunds := d.refunds + Desks.RefundRows(d.payments, booking, d.fee, |d.payments|),
      tickets := EndedTickets(d.tickets, booking, refunded),
      bookings := d.bookings[booking := d.bookings[booking].(status := if refunded then Desks.Refunded else Desks.Dropped)])
  {
    assert Desks.Void(d, booking).tickets == EndedTickets(d.tickets, booking, refunded);
  }
}
