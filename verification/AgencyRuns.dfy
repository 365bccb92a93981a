/** What stays of commissions and of final settlements through any run of requests. */
module AgencyRuns {
  import opened Sums
  import opened Money
  import opened Idempotency
  import Desks = TripDesk
  import Agencies = Settlements
  import AP = SettlementProofs
  import Ledgers = GeneralLedger
  import PostingProofs
  import opened Backend
  import opened BackendInvariants
  import BackendProofs
  import opened Runs
  import Orders

  /** Commissions keep everything but for being reversed, once and for all. */
  predicate CommissionsGrow(x: seq<Agencies.Commission>, y: seq<Agencies.Commission>) {
    |x| <= |y| && forall c :: 0 <= c < |x| ==> y[c].(reversed := x[c].reversed) == x[c] && (x[c].reversed ==> y[c].reversed)
  }

  /** The settlement has the same lines in both. */
  ghost predicate SameLines(x: map<nat, Agencies.Line>, y: map<nat, Agencies.Line>, s: nat) {
    forall c: nat {:trigger c in x} {:trigger c in y} ::
      (c in x && x[c].settlement == s ==> c in y && y[c] == x[c]) && (c in y && y[c].settlement == s ==> c in x && x[c] == y[c])
  }

  ghost predicate FinalLinesKept(ag: Agencies.Agency, e: Agencies.Agency) {
    forall s: nat :: s < |ag.settlements| && ag.settlements[s].settled ==> SameLines(ag.lines, e.lines, s)
  }

  ghost predicate AgencyGrows(ag: Agencies.Agency, e: Agencies.Agency) {
    CommissionsGrow(ag.commissions, e.commissions) && FinalLinesKept(ag, e)
  }

  predicate SameRecords(ag: Agencies.Agency, e: Agencies.Agency) { e.commissions == ag.commissions && e.lines == ag.lines }

  lemma UnchangedGrows(ag: Agencies.Agency, e: Agencies.Agency)
    requires SameRecords(ag, e)
    ensures AgencyGrows(ag, e)
  {}

  lemma GenerationKeepsFinalLines(ag: Agencies.Agency, tickets: seq<Desks.Ticket>, agent: nat, fromDay: int, toDay: int)
    requires Agencies.AgencyInv(ag, tickets) && Agencies.Generate(ag, tickets, agent, fromDay, toDay).Success?
    ensures AgencyGrows(ag, Agencies.Generate(ag, tickets, agent, fromDay, toDay).value.0)
  {
    AP.GeneratedLines(ag, tickets, agent, fromDay, toDay);
    AP.FirstOverlapIs(ag.settlements, agent, fromDay * Agencies.DAY_MS, toDay * Agencies.DAY_MS + Agencies.DAY_MS - 1, 0);
  }

  lemma CancellationsGrow(db: Db, r: Request, now: int)
    requires r.DropBooking? || r.DropTrip?
    ensures AgencyGrows(db.agency, Apply(db, r, now).agency) && |Apply(db, r, now).agency.commissions| == |db.agency.commissions|
  {
    hide Desks.CancelBooking, Desks.CancelTrip;
    var x := db.agency.commissions;
    forall c | 0 <= c < |x| && r.DropTrip?
      ensures ReverseTrip(x, db.desk.bookings, r.trip, |db.desk.bookings|)[c].(reversed := x[c].reversed) == x[c]
        && (x[c].reversed ==> ReverseTrip(x, db.desk.bookings, r.trip, |db.desk.bookings|)[c].reversed)
    {
      BackendProofs.ReverseTripAre(x, db.desk.bookings, r.trip, |db.desk.bookings|, c);
    }
  }

  predicate OfBooks(r: Request) {
    r.UndoEntry? || r.PostByHand? || r.WorkerClaims? || r.WorkerProcesses? || r.WorkerReportsFailure? || r.ProcessNextEvent? || r.RequeueEvent?
  }

  lemma BookRequestsKeepAgency(db: Db, r: Request, now: int)
    requires OfBooks(r)
    ensures Apply(db, r, now).agency == db.agency
  {
    hide Ledgers.CreateEntry, Ledgers.PostEntry, Ledgers.ReverseEntry, NextEvent, Resolve;
  }

  lemma OfficeRequestsKeepAgency(db: Db, r: Request, now: int)
    requires !r.PlaceOrder? && !r.DropBooking? && !r.DropTrip? && !r.DrawUpSettlement? && !OfBooks(r)
    requires !BackendProofs.SeatRequest(r) && !PostingProofs.LedgerRequest(r)
    ensures SameRecords(db.agency, Apply(db, r, now).agency)
  {}

  lemma OtherRequestsKeepAgency(db: Db, r: Request, now: int)
    requires !r.PlaceOrder? && !r.DropBooking? && !r.DropTrip? && !r.DrawUpSettlement?
    ensures SameRecords(db.agency, Apply(db, r, now).agency)
  {
    hide Handle;
    if OfBooks(r) {
      BookRequestsKeepAgency(db, r, now);
    } else if PostingProofs.LedgerRequest(r) {
      PostingProofs.LedgerRequestsFrame(db, r, now);
    } else if !BackendProofs.SeatRequest(r) {
      OfficeRequestsKeepAgency(db, r, now);
    } else if WellFormed(r) {
      BackendProofs.SeatRequestsFrame(db, r, now);
    }
  }

  lemma OrderGrowsAgency(db: Db, r: Request, now: int)
    requires r.PlaceOrder?
    ensures AgencyGrows(db.agency, Apply(db, r, now).agency) && ForNewBookings(db, Apply(db, r, now))
  {
    hide OrderFault, Desks.SoldSeats, Desks.SoldOut;
    if WellFormed(r) && ValidKey(r.order.key) && Replayed(db, r.order).None? && OrderFault(db, r.order, now).None? {
      var e, n := Sold(db, r.order, now), |db.agency.commissions|;
      forall c | n <= c < |e.agency.commissions| ensures e.agency.commissions[c].booking == |db.desk.bookings| {
        assert e.agency.commissions[n + (c - n)].booking == e.desk.tickets[|db.desk.tickets| + (c - n)].booking;
        assert e.desk.tickets[|db.desk.tickets| + (c - n)] == Desks.NewTicket(db.desk, r.order.seats[c - n]);
      }
    }
  }

  /** New commissions are earned on new bookings only. */
  predicate ForNewBookings(db: Db, e: Db) {
    forall c :: |db.agency.commissions| <= c < |e.agency.commissions| ==> e.agency.commissions[c].booking >= |db.desk.bookings|
  }

  lemma RequestGrowsAgency(db: Db, r: Request, now: int)
    requires Agencies.AgencyInv(db.agency, db.desk.tickets)
    ensures AgencyGrows(db.agency, Apply(db, r, now).agency) && ForNewBookings(db, Apply(db, r, now))
  {
    hide AgencyGrows;
    if r.PlaceOrder? {
      OrderGrowsAgency(db, r, now);
    } else {
      if r.DropBooking? || r.DropTrip? {
        CancellationsGrow(db, r, now);
      } else if r.DrawUpSettlement? {
        DrawingUpGrows(db, r, now);
      } else {
        hide Apply;
        OtherRequestsKeepAgency(db, r, now);
        UnchangedGrows(db.agency, Apply(db, r, now).agency);
      }
    }
  }

  lemma DrawingUpGrows(db: Db, r: Request, now: int)
    requires Agencies.AgencyInv(db.agency, db.desk.tickets) && r.DrawUpSettlement?
    ensures AgencyGrows(db.agency, Apply(db, r, now).agency) && Apply(db, r, now).agency.commissions == db.agency.commissions
  {
    hide AgencyGrows, Agencies.AgencyInv;
    if Agencies.Generate(db.agency, db.desk.tickets, r.agentId, r.fromDay, r.toDay).Success? {
      GenerationKeepsFinalLines(db.agency, db.desk.tickets, r.agentId, r.fromDay, r.toDay);
    } else {
      UnchangedGrows(db.agency, db.agency);
    }
  }

  lemma AgencyGrowsFurther(ag: Agencies.Agency, e: Agencies.Agency, f: Agencies.Agency)
    requires AgencyGrows(ag, e) && AgencyGrows(e, f) && SettlementsGrow(ag.settlements, e.settlements)
    ensures AgencyGrows(ag, f)
  {
    forall s: nat | s < |ag.settlements| && ag.settlements[s].settled ensures SameLines(ag.lines, f.lines, s) {
      assert SameLines(ag.lines, e.lines, s) && SameLines(e.lines, f.lines, s);
    }
  }

  // ---------------------------------------------------------------- runs

  /** Through every run commissions keep their agent, booking, ticket and amount and stay reversed once
      they are, settled settlements keep their lines, and no booking earns a commission after its sale. */
  lemma {:induction false} AgencyHistory(db: Db, steps: seq<Step>)
    requires DbInv(db)
    ensures AgencyGrows(db.agency, Run(db, steps).agency) && ForNewBookings(db, Run(db, steps))
  {
    if steps == [] {
      UnchangedGrows(db.agency, db.agency);
    } else {
      var before, last := Run(db, steps[..|steps| - 1]), steps[|steps| - 1];
      AgencyHistory(db, steps[..|steps| - 1]);
      RunKeeps(db, steps[..|steps| - 1]);
      assert SettlementsGrow(db.agency.settlements, before.agency.settlements) && |db.desk.bookings| <= |before.desk.bookings|;
      assert Agencies.AgencyInv(before.agency, before.desk.tickets);
      hide DbInv, Grows, Apply, AgencyGrows, Agencies.AgencyInv;
      RequestGrowsAgency(before, last.request, last.now);
      AgencyGrowsFurther(db.agency, before.agency, Run(db, steps).agency);
      LaterCommissions(db, before, Run(db, steps));
    }
  }

  lemma LaterCommissions(db: Db, e: Db, f: Db)
    requires AgencyGrows(e.agency, f.agency) && ForNewBookings(db, e) && ForNewBookings(e, f) && |db.desk.bookings| <= |e.desk.bookings|
    ensures ForNewBookings(db, f)
  {
    forall c | |db.agency.commissions| <= c < |f.agency.commissions| ensures f.agency.commissions[c].booking >= |db.desk.bookings| {
      if c < |e.agency.commissions| {
        assert f.agency.commissions[c].(reversed := e.agency.commissions[c].reversed) == e.agency.commissions[c];
      }
    }
  }

  /** What the commissions on a booking add up to, reversed or not. */
  function EarnedOn(commissions: seq<Agencies.Commission>, booking: nat): nat -> int {
    (c: nat) => if c < |commissions| && commissions[c].booking == booking then commissions[c].amount else 0
  }

  lemma {:induction false} BookingSumStays(db: Db, steps: seq<Step>, booking: nat)
    requires DbInv(db) && booking < |db.desk.bookings|
    ensures var x, y := db.agency.commissions, Run(db, steps).agency.commissions;
      Total(|y|, EarnedOn(y, booking)) == Total(|x|, EarnedOn(x, booking))
  {
    AgencyHistory(db, steps);
    hide DbInv, Run, FinalLinesKept;
    var x, y := db.agency.commissions, Run(db, steps).agency.commissions;
    forall c: nat | c < |x| ensures EarnedOn(x, booking)(c) == EarnedOn(y, booking)(c) {
      assert y[c].(reversed := x[c].reversed) == x[c];
    }
    TotalGrow(|x|, |y|, EarnedOn(x, booking), EarnedOn(y, booking));
  }

  // ---------------------------------------------------------------- the commissions of a sale

  function CommissionAmountAt(commissions: seq<Agencies.Commission>, first: nat): nat -> int {
    (k: nat) => if first + k < |commissions| then commissions[first + k].amount else 0
  }

  function Fares(d: Desks.Desk, ids: seq<nat>): (fares: seq<nat>)
    ensures |fares| == |ids| && forall k :: 0 <= k < |ids| ==> fares[k] == Desks.NewTicket(d, ids[k]).fare
  {
    seq(|ids|, k requires 0 <= k < |ids| => Desks.NewTicket(d, ids[k]).fare)
  }

  lemma SaleAmounts(db: Db, o: Order, now: int, k: nat)
    requires OrderFault(db, o, now).None? && AgentFor(o).Some? && k < |o.seats|
    ensures CommissionAmountAt(Sold(db, o, now).agency.commissions, |db.agency.commissions|)(k)
      == CommissionAt(db.agency.agents[AgentFor(o).value].rate, Fares(db.desk, o.seats))(k)
  {
    var e := Sold(db, o, now);
    assert e.desk.tickets[|db.desk.tickets| + k] == Desks.NewTicket(db.desk, o.seats[k]);
  }

  /** The commissions that a percentage agent earns on an order are, together, that percentage of the
      booking's total, give or take half a cent per ticket. */
  lemma SaleCommissionsNearShare(db: Db, o: Order, now: int, share: nat)
    requires OrderFault(db, o, now).None? && AgentFor(o).Some? && db.agency.agents[AgentFor(o).value].rate == Percent(share)
    ensures var e, n := Sold(db, o, now), |o.seats|;
      && |e.agency.commissions| == |db.agency.commissions| + n && |e.desk.bookings| == |db.desk.bookings| + 1
      && -5000 * n <= WHOLE * Total(n, CommissionAmountAt(e.agency.commissions, |db.agency.commissions|))
                      - share * e.desk.bookings[|db.desk.bookings|].total <= 5000 * n
  {
    var e, n, fares := Sold(db, o, now), |o.seats|, Fares(db.desk, o.seats);
    forall k: nat | k < n ensures CommissionAmountAt(e.agency.commissions, |db.agency.commissions|)(k) == CommissionAt(Percent(share), fares)(k) {
      SaleAmounts(db, o, now, k);
    }
    TotalCong(n, CommissionAmountAt(e.agency.commissions, |db.agency.commissions|), CommissionAt(Percent(share), fares));
    TotalCong(n, AmountAt(fares), Desks.PriceAt(db.desk.seats, o.seats));
    CommissionsNearExactShare(share, fares, n);
  }

  lemma SumOfTail(y: seq<Agencies.Commission>, n: nat, booking: nat)
    requires n <= |y|
    requires forall c :: 0 <= c < |y| ==> (y[c].booking == booking <==> n <= c)
    ensures Total(|y|, EarnedOn(y, booking)) == Total(|y| - n, CommissionAmountAt(y, n))
  {
    TotalTail(n, |y| - n, EarnedOn(y, booking), CommissionAmountAt(y, n));
  }

  lemma SumOfSale(db: Db, o: Order, now: int)
    requires CommissionsFollow(db) && OrderFault(db, o, now).None? && AgentFor(o).Some?
    ensures var y, n := Sold(db, o, now).agency.commissions, |db.agency.commissions|;
      |y| == n + |o.seats| && Total(|y|, EarnedOn(y, |db.desk.bookings|)) == Total(|o.seats|, CommissionAmountAt(y, n))
  {
    var y, n := Sold(db, o, now).agency.commissions, |db.agency.commissions|;
    Orders.OrderPaysAgent(db, o, now);
    hide OrderFault, Sold;
    forall c | 0 <= c < |y| ensures y[c].booking == |db.desk.bookings| <==> n <= c {
      if c < n { assert CommissionFollows(db, db.agency.commissions[c]); } else { assert y[n + (c - n)].booking == |db.desk.bookings|; }
    }
    SumOfTail(y, n, |db.desk.bookings|);
  }

  /** In every state after the sale of a booking through a percentage agent, whatever became of the booking
      or of the agent's rate, the commissions stored for it add up to that percentage of its total, give or
      take half a cent per ticket. */
  lemma {:induction false} CommissionsNearShareForGood(db: Db, o: Order, now: int, share: nat, steps: seq<Step>)
    requires DbInv(db) && o.seats != [] && OrderFault(db, o, now).None? && AgentFor(o).Some?
    requires db.agency.agents[AgentFor(o).value].rate == Percent(share)
    ensures var f, booking, n := Run(Sold(db, o, now), steps), |db.desk.bookings|, |o.seats|;
      && booking < |f.desk.bookings|
      && -5000 * n <= WHOLE * Total(|f.agency.commissions|, EarnedOn(f.agency.commissions, booking))
                      - share * f.desk.bookings[booking].total <= 5000 * n
  {
    var e, booking := Sold(db, o, now), |db.desk.bookings|;
    SaleCommissionsNearShare(db, o, now, share);
    SumOfSale(db, o, now);
    BackendProofs.OrderKeeps(db, o, now);
    hide Sold, OrderFault, Run;
    BookingSumStays(e, steps, booking);
    TotalStays(e, steps, booking);
  }

  lemma {:induction false} TotalStays(db: Db, steps: seq<Step>, booking: nat)
    requires DbInv(db) && booking < |db.desk.bookings|
    ensures booking < |Run(db, steps).desk.bookings| && Run(db, steps).desk.bookings[booking].total == db.desk.bookings[booking].total
  {
    hide DbInv;
    RunKeeps(db, steps);
    assert BookingGrows(db.desk.bookings[booking], Run(db, steps).desk.bookings[booking]);
  }

  /** A SETTLED settlement and its lines are the same in every later state. */
  lemma {:induction false} SettledForGood(db: Db, steps: seq<Step>, s: nat)
    requires DbInv(db) && s < |db.agency.settlements| && db.agency.settlements[s].settled
    ensures var e := Run(db, steps).agency;
      s < |e.settlements| && e.settlements[s] == db.agency.settlements[s] && SameLines(db.agency.lines, e.lines, s)
  {
    hide DbInv, Run;
    RunKeeps(db, steps);
    AgencyHistory(db, steps);
  }
}
