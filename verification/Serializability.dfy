/** Interleaved transactions have the effect of whole ones, run in the order of their commits. */
module Serializability {
  import opened Wrappers
  import opened Sums
  import opened Idempotency
  import opened TripDesk
  import opened DeskInvariants
  import opened Selling
  import opened Cancelling
  import opened Interleaving

  // ---------------------------------------------------------------- one at a time

  /** The same requests as whole transactions, one after another. */
  datatype Atomic = OnTrip(trip: nat, act: Act) | OnItsOwn(single: Single)

  function Do(d: Desk, trip: nat, act: Act): Result<Desk> {
    match act
    case Buy(user, ids, agent, key, now) =>
      if MaySell(d, trip, ids, user, key, now) then Success(Sell(d, trip, ids, agent, key)) else Failure(Conflict)
    case EndBooking(booking) =>
      if booking < |d.bookings| && d.bookings[booking].trip == trip then CancelBooking(d, booking) else Failure(NotFound)
    case EndTrip => CancelTrip(d, trip)
    case Depart => LockManifest(d, trip)
  }

  function DoAtomic(d: Desk, a: Atomic): Result<Desk> {
    match a
    case OnTrip(trip, act) => Do(d, trip, act)
    case OnItsOwn(single) => Success(After(d, single))
  }

  /** All of these in turn, none of them refused. */
  function Perform(d: Desk, acts: seq<Atomic>): Result<Desk> {
    if acts == [] then Success(d)
    else match Perform(d, acts[..|acts| - 1])
      case Failure(error) => Failure(error)
      case Success(e) => DoAtomic(e, acts[|acts| - 1])
  }

  /** What a schedule commits, in the order of the commits. */
  function Commits(d: Desk, schedule: seq<Statement>): seq<Atomic>
    requires Legal(d, schedule)
  {
    if schedule == [] then []
    else
      var w, s, earlier := At(d, schedule[..|schedule| - 1]), schedule[|schedule| - 1], Commits(d, schedule[..|schedule| - 1]);
      if s.Commit? then earlier + [OnTrip(s.trip, w.active[s.trip].act)]
      else if s.Alone? then earlier + [OnItsOwn(s.single)] else earlier
  }

  /** A single statement does not get between a lock holder's reads and its commit: it edits no
      trip that was read, and changes no seat of a trip whose available seats were counted. */
  predicate Undisturbed(d: Desk, e: Desk, trip: nat, t: Txn) {
    && (!t.Locked? ==> trip < |d.trips| && trip < |e.trips| && e.trips[trip] == d.trips[trip])
    && (t.Claiming? || t.Counted? ==> |e.seats| == |d.seats| && forall i :: 0 <= i < |d.seats| && d.seats[i].trip == trip ==>
          e.seats[i].price == d.seats[i].price && (t.Counted? ==> e.seats[i] == d.seats[i]))
  }

  predicate Quiet(d: Desk, schedule: seq<Statement>)
    requires Legal(d, schedule)
  {
    schedule == [] ||
    (Quiet(d, schedule[..|schedule| - 1]) &&
     var w, s := At(d, schedule[..|schedule| - 1]), schedule[|schedule| - 1];
     s.Alone? ==> forall trip :: trip in w.active ==> Undisturbed(w.desk, After(w.desk, s.single), trip, w.active[trip]))
  }

  /** What a transaction has read is still so. */
  predicate Current(d: Desk, trip: nat, t: Txn) {
    match t
    case Locked(act) => true
    case Seen(act, status) => trip < |d.trips| && d.trips[trip].status == status && Passes(d, trip, act)
    case Claiming(act, prices, claimed) => OnOffer(d, trip, act, prices)
    case Counted(act, prices, full) => OnOffer(d, trip, act, prices) && full == TakenUp(d.seats, trip, act.ids)
  }

  predicate OnOffer(d: Desk, trip: nat, act: Act, prices: seq<nat>) {
    && trip < |d.trips| && Bookable(d.trips[trip].status) && act.Buy? && |prices| == |act.ids|
    && forall k :: 0 <= k < |prices| ==> act.ids[k] < |d.seats| && d.seats[act.ids[k]].price == prices[k]
  }

  lemma ElsewhereKeepsCurrent(d: Desk, e: Desk, trip: nat, key: Option<Key>, t: Txn)
    requires Elsewhere(d, e, trip, key) && TxnOk(d, trip, t) && Current(d, trip, t) && (t.act.Buy? ==> Some(t.act.key) != key)
    ensures Current(e, trip, t)
  {
    ElsewhereKeepsTxn(d, e, trip, key, t);
  }

  lemma SingleKeepsCurrent(d: Desk, s: Single, trip: nat, t: Txn)
    requires TxnOk(d, trip, t) && Current(d, trip, t) && Undisturbed(d, After(d, s), trip, t)
    ensures Current(After(d, s), trip, t)
  {
    SinglesFrame(d, s);
    var e := After(d, s);
    forall i | 0 <= i < |d.seats| ensures e.seats[i].trip == d.seats[i].trip { assert SeatEdited(d.seats[i], e.seats[i]); }
  }

  lemma NextKeepsCurrent(w: World, s: Statement, trip: nat)
    requires References(w.desk) && WorldOk(w) && Enabled(w, s) && trip in Next(w, s).active
    requires forall t :: t in w.active ==> Current(w.desk, t, w.active[t])
    requires s.Alone? ==> forall t :: t in w.active ==> Undisturbed(w.desk, After(w.desk, s.single), t, w.active[t])
    ensures Current(Next(w, s).desk, trip, Next(w, s).active[trip])
  {
    if s.Alone? {
      SingleKeepsCurrent(w.desk, s.single, trip, w.active[trip]);
    } else if s.Commit? {
      EffectElsewhere(w.desk, s.trip, w.active[s.trip], trip);
      ElsewhereKeepsCurrent(w.desk, Next(w, s).desk, trip, KeyOf(w.active[s.trip].act), w.active[trip]);
    }
  }

  lemma NothingLeft(d: Desk, trip: nat, ids: seq<nat>)
    requires AllFound(d, trip, ids)
    ensures SoldOut(SoldSeats(d, ids, |ids|), trip) <==> TakenUp(d.seats, trip, ids)
  {
    SoldSeatsAre(d, ids, |ids|);
    assert ids[..|ids|] == ids;
    var seats := SoldSeats(d, ids, |ids|);
    forall i | 0 <= i < |seats| ensures SameSeat(d.seats[i], seats[i]) && (i !in ids ==> seats[i] == d.seats[i]) {}
    forall i | 0 <= i < |seats| && i in ids ensures seats[i].status == Booked {
      var k :| 0 <= k < |ids| && ids[k] == i;
      assert seats[ids[k]].status == Booked;
    }
  }

  lemma SameCharge(d: Desk, ids: seq<nat>, prices: seq<nat>)
    requires |prices| == |ids| && forall k :: 0 <= k < |ids| ==> ids[k] < |d.seats| && d.seats[ids[k]].price == prices[k]
    ensures Charged(prices) == PriceOf(d.seats, ids)
  {
    TotalCong(|ids|, PricesAt(prices), PriceAt(d.seats, ids));
  }

  lemma SameTickets(d: Desk, ids: seq<nat>, prices: seq<nat>)
    requires |prices| == |ids| && forall k :: 0 <= k < |ids| ==> ids[k] < |d.seats| && d.seats[ids[k]].price == prices[k]
    ensures TicketsAt(d, ids, prices) == NewTickets(d, ids, |ids|)
  {}

  lemma DifferentTickets(d: Desk, ids: seq<nat>, prices: seq<nat>, k: nat)
    requires |prices| == |ids| && k < |ids| && ids[k] < |d.seats| && d.seats[ids[k]].price != prices[k]
    ensures d.tickets + TicketsAt(d, ids, prices) != d.tickets + NewTickets(d, ids, |ids|)
  {
    assert (d.tickets + TicketsAt(d, ids, prices))[|d.tickets| + k].fare == prices[k];
    assert (d.tickets + NewTickets(d, ids, |ids|))[|d.tickets| + k] == NewTicket(d, ids[k]);
  }

  /** The sale that a transaction commits is the sale of one undivided request exactly when the
      prices and the count of seats left that it read are still right. */
  lemma SaleExactly(d: Desk, trip: nat, t: Txn)
    requires TxnOk(d, trip, t) && t.Counted? && Bookable(d.trips[trip].status)
    ensures SellAt(d, trip, t.act, t.prices, t.full) == Sell(d, trip, t.act.ids, t.act.agent, t.act.key)
      <==> OnOffer(d, trip, t.act, t.prices) && t.full == TakenUp(d.seats, trip, t.act.ids)
  {
    hide NewTickets, TicketsAt, AllClaimable, TakenUp, SoldOut;
    NothingLeft(d, trip, t.act.ids);
    if OnOffer(d, trip, t.act, t.prices) {
      SameCharge(d, t.act.ids, t.prices);
      SameTickets(d, t.act.ids, t.prices);
    } else {
      var k :| 0 <= k < |t.prices| && d.seats[t.act.ids[k]].price != t.prices[k];
      DifferentTickets(d, t.act.ids, t.prices, k);
    }
  }

  /** What a transaction has read may be stale when it commits. This is what has to be right still. */
  predicate StillRight(d: Desk, trip: nat, t: Txn)
    requires ReadyToCommit(d, trip, t)
  {
    var now := d.trips[trip].status;
    match t.act
    case Buy(user, ids, agent, key, time) => t.Counted? && OnOffer(d, trip, t.act, t.prices) && t.full == TakenUp(d.seats, trip, ids)
    case EndBooking(booking) =>
      t.Seen? && now !in {Departed, Completed} && if t.status.Full? then now == Open || now == TripStatus.Full else now != TripStatus.Full
    case EndTrip => now !in {Cancelled, Completed}
    case Depart => LockManifest(d, trip).Success?
  }

  lemma CancellationExactly(d: Desk, trip: nat, t: Txn)
    requires TxnOk(d, trip, t) && ReadyToCommit(d, trip, t) && t.act.EndBooking?
    ensures Do(d, trip, t.act) == Success(Effect(d, trip, t)) <==> StillRight(d, trip, t)
  {
    hide Void, FreeSeats;
    var e := CancelAt(d, t.act.booking, t.status);
    assert e.trips == (if t.status.Full? then d.trips[trip := d.trips[trip].(status := Open)] else d.trips);
    assert e.trips[trip].status == if t.status.Full? then Open else d.trips[trip].status;
    if t.status.Full? && d.trips[trip].status == Open { assert d.trips[trip := d.trips[trip].(status := Open)] == d.trips; }
  }

  /** A commit has the effect of the request run whole at that moment, and is not refused, if and only
      if what the transaction relies on is still right. */
  lemma CommitExactly(d: Desk, trip: nat, t: Txn)
    requires TxnOk(d, trip, t) && ReadyToCommit(d, trip, t)
    ensures Do(d, trip, t.act) == Success(Effect(d, trip, t)) <==> StillRight(d, trip, t)
  {
    if t.Counted? {
      if Bookable(d.trips[trip].status) { SaleExactly(d, trip, t); }
    } else if t.act.EndBooking? {
      CancellationExactly(d, trip, t);
    }
  }

  lemma CommitIsAtomic(d: Desk, trip: nat, t: Txn)
    requires TxnOk(d, trip, t) && Current(d, trip, t) && ReadyToCommit(d, trip, t)
    ensures Do(d, trip, t.act) == Success(Effect(d, trip, t))
  {
    hide Do, Effect, TxnOk, TakenUp;
    CommitExactly(d, trip, t);
  }

  lemma PerformOneMore(d: Desk, acts: seq<Atomic>, a: Atomic)
    requires Perform(d, acts).Success?
    ensures Perform(d, acts + [a]) == DoAtomic(Perform(d, acts).value, a)
  {
    assert (acts + [a])[..|acts|] == acts;
  }

  /** Orders, cancellations, trip cancellations and departures on any number of trips, cut into
      statements and interleaved with each other and with single statements that do not disturb
      them: the committed desk is the one that the same requests, run whole and one after another
      in the order of their commits, produce, and none of them is refused. */
  lemma {:induction false} Serializable(d: Desk, schedule: seq<Statement>)
    requires Linked(d) && Legal(d, schedule) && Quiet(d, schedule)
    ensures Perform(d, Commits(d, schedule)) == Success(At(d, schedule).desk)
    ensures forall trip :: trip in At(d, schedule).active ==> Current(At(d, schedule).desk, trip, At(d, schedule).active[trip])
  {
    hide Do, Effect, Current, SeatLinks, Undisturbed;
    if schedule != [] {
      var before := schedule[..|schedule| - 1];
      var w, s := At(d, before), schedule[|schedule| - 1];
      Serializable(d, before);
      ScheduleKeepsLinked(d, before);
      if s.Commit? {
        CommitIsAtomic(w.desk, s.trip, w.active[s.trip]);
        PerformOneMore(d, Commits(d, before), OnTrip(s.trip, w.active[s.trip].act));
      } else if s.Alone? {
        PerformOneMore(d, Commits(d, before), OnItsOwn(s.single));
      }
      forall trip | trip in Next(w, s).active ensures Current(Next(w, s).desk, trip, Next(w, s).active[trip]) {
        NextKeepsCurrent(w, s, trip);
      }
    }
  }

  predicate LockHoldersOnly(schedule: seq<Statement>) { forall i :: 0 <= i < |schedule| ==> !schedule[i].Alone? }

  lemma {:induction false} LockHoldersAreQuiet(d: Desk, schedule: seq<Statement>)
    requires Legal(d, schedule) && LockHoldersOnly(schedule)
    ensures Quiet(d, schedule)
  {
    if schedule != [] { LockHoldersAreQuiet(d, schedule[..|schedule| - 1]); }
  }

  /** Transactions that hold the trip lock are serializable among themselves without any condition. */
  lemma LockHoldersSerialize(d: Desk, schedule: seq<Statement>)
    requires DeskInv(d) && Legal(d, schedule) && LockHoldersOnly(schedule)
    ensures Perform(d, Commits(d, schedule)) == Success(At(d, schedule).desk) && DeskInv(At(d, schedule).desk)
  {
    LinksAlign(d);
    LockHoldersAreQuiet(d, schedule);
    Serializable(d, schedule);
    PerformKeepsInv(d, Commits(d, schedule));
  }

  lemma SinglesKeepInv(d: Desk, s: Single)
    requires DeskInv(d)
    ensures DeskInv(After(d, s))
  {
    var e := After(d, s);
    SinglesFrame(d, s);
    forall i | 0 <= i < |d.seats| ensures e.seats[i].trip == d.seats[i].trip && e.seats[i].name == d.seats[i].name {
      assert SeatEdited(d.seats[i], e.seats[i]);
    }
    EditKeepsInv(d, e);
  }

  lemma {:induction false} PerformKeepsInv(d: Desk, acts: seq<Atomic>)
    requires DeskInv(d) && Perform(d, acts).Success?
    ensures DeskInv(Perform(d, acts).value)
  {
    if acts != [] {
      var e, a := Perform(d, acts[..|acts| - 1]).value, acts[|acts| - 1];
      PerformKeepsInv(d, acts[..|acts| - 1]);
      match a {
        case OnItsOwn(single) => SinglesKeepInv(e, single);
        case OnTrip(trip, Buy(user, ids, agent, key, now)) => SellKeepsInv(e, trip, ids, agent, key, user, now);
        case OnTrip(trip, EndBooking(booking)) => CancelKeepsInv(e, booking);
        case OnTrip(trip, EndTrip) => CancelTripKeepsInv(e, trip);
        case OnTrip(trip, Depart) => ManifestKeepsInv(e, trip);
      }
    }
  }

  // ---------------------------------------------------------------- a price change in between

  const KEY: Key := Client("12345678")
  const ONE_SEAT: Desk := Desk([Trip(Open, Missing)], [Seat(0, "1A", Regular, 100, Available, None)], [], [], [], [], 0)
  const ORDER: Act := Buy(7, [0], None, KEY, 0)

  /** An order reads a price of 100, the price is set to 200, and the order goes on. */
  const STALE: seq<Statement> := [] + [Lock(0, ORDER)] + [ReadTrip(0)] + [ReadSeats(0)] + [Alone(Reprice(0, Some(200), None))]
    + [Claim(0)] + [Count(0)] + [Commit(0)]

  lemma OneMoreStatement(d: Desk, schedule: seq<Statement>, s: Statement)
    requires Legal(d, schedule) && Enabled(At(d, schedule), s)
    ensures Legal(d, schedule + [s]) && At(d, schedule + [s]) == Next(At(d, schedule), s)
  {
    assert (schedule + [s])[..|schedule|] == schedule;
  }

  function Repriced(): Desk { ONE_SEAT.(seats := [Seat(0, "1A", Regular, 200, Available, None)]) }

  lemma BeforeTheChange()
    ensures var schedule := [] + [Lock(0, ORDER)] + [ReadTrip(0)] + [ReadSeats(0)];
      Legal(ONE_SEAT, schedule) && At(ONE_SEAT, schedule) == World(ONE_SEAT, map[0 := Claiming(ORDER, [100], 0)])
  {
    var a, b := [] + [Lock(0, ORDER)], [] + [Lock(0, ORDER)] + [ReadTrip(0)];
    assert At(ONE_SEAT, []) == World(ONE_SEAT, map[]);
    OneMoreStatement(ONE_SEAT, [], Lock(0, ORDER));
    OneMoreStatement(ONE_SEAT, a, ReadTrip(0));
    OneMoreStatement(ONE_SEAT, b, ReadSeats(0));
    assert PricesOf(ONE_SEAT.seats, [0]) == [100];
  }

  lemma AfterTheChange()
    ensures var schedule := [] + [Lock(0, ORDER)] + [ReadTrip(0)] + [ReadSeats(0)] + [Alone(Reprice(0, Some(200), None))];
      Legal(ONE_SEAT, schedule) && At(ONE_SEAT, schedule) == World(Repriced(), map[0 := Claiming(ORDER, [100], 0)])
  {
    BeforeTheChange();
    assert Edit(ONE_SEAT, 0, Some(200), None) == Repriced();
    assert ORDER.ids[..0] == [];
    assert forall i :: !Claims(Claiming(ORDER, [100], 0), i);
    OneMoreStatement(ONE_SEAT, [] + [Lock(0, ORDER)] + [ReadTrip(0)] + [ReadSeats(0)], Alone(Reprice(0, Some(200), None)));
  }

  lemma AfterTheCommit()
    ensures Legal(ONE_SEAT, STALE) && At(ONE_SEAT, STALE).desk == SellAt(Repriced(), 0, ORDER, [100], true)
  {
    var a := [] + [Lock(0, ORDER)] + [ReadTrip(0)] + [ReadSeats(0)] + [Alone(Reprice(0, Some(200), None))];
    AfterTheChange();
    OneMoreStatement(ONE_SEAT, a, Claim(0));
    OneMoreStatement(ONE_SEAT, a + [Claim(0)], Count(0));
    OneMoreStatement(ONE_SEAT, a + [Claim(0)] + [Count(0)], Commit(0));
  }

  /** The booked seat then shows 200 and its ticket cost 100, a desk that no sequence of whole
      requests can produce. */
  lemma {:induction false} StalePriceNotSerial(acts: seq<Atomic>)
    ensures Legal(ONE_SEAT, STALE) && Perform(ONE_SEAT, acts) != Success(At(ONE_SEAT, STALE).desk)
  {
    AfterTheCommit();
    var e := SellAt(Repriced(), 0, ORDER, [100], true);
    SoldSeatsAre(Repriced(), [0], 1);
    assert e.tickets[0].fare == 100 && e.seats[0].price == 200;
    assert TicketLive(e, 0) && !SoldTo(e, e.tickets[0], 0);
    if Perform(ONE_SEAT, acts).Success? { PerformKeepsInv(ONE_SEAT, acts); }
  }
}
