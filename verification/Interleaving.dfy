/** Transactions that share trips, one statement at a time. Orders, cancellations and departures
    hold their trip's advisory lock from before their first read to their commit; holds, releases,
    expiry and price changes take no lock. Uncommitted writes are visible to their own transaction
    only, and a row that a transaction has written cannot be written by another until it ends. */
module Interleaving {
  import opened Wrappers
  import opened Sums
  import opened Idempotency
  import opened TripDesk
  import opened DeskInvariants
  import opened Selling
  import opened Cancelling

  // ---------------------------------------------------------------- transactions and statements

  /** What the holder of a trip's lock wants to do. */
  datatype Act =
    | Buy(user: nat, ids: seq<nat>, agent: Option<nat>, key: Key, now: int)
    | EndBooking(booking: nat)
    | EndTrip
    | Depart

  /** How far a lock holder has come, with what it has read: the trip's status, then, for an order,
      the prices of the seats, how many of them it has claimed, and whether any seat is left. */
  datatype Txn =
    | Locked(act: Act)
    | Seen(act: Act, status: TripStatus)
    | Claiming(act: Act, prices: seq<nat>, claimed: nat)
    | Counted(act: Act, prices: seq<nat>, full: bool)

  /** Transactions of a single writing statement. */
  datatype Single =
    | HoldOne(user: nat, trip: nat, seat: nat, now: int)
    | ReleaseOne(user: nat, seat: nat)
    | Expire(trip: nat, now: int)
    | Reprice(trip: nat, price: Option<nat>, status: Option<TripStatus>)

  datatype World = World(desk: Desk, active: map<nat, Txn>)

  datatype Statement =
    | Lock(trip: nat, act: Act)
    | ReadTrip(trip: nat)
    | ReadSeats(trip: nat)
    | Claim(trip: nat)
    | Count(trip: nat)
    | Commit(trip: nat)
    | Abort(trip: nat)
    | Alone(single: Single)

  function After(d: Desk, s: Single): Desk {
    match s
    case HoldOne(user, trip, seat, now) => (match Hold(d, user, trip, seat, now) case Success(e) => e case Failure(_) => d)
    case ReleaseOne(user, seat) => Release(d, user, seat)
    case Expire(trip, now) => ExpireHolds(d, trip, now)
    case Reprice(trip, price, status) =>
      if trip < |d.trips| && (price.Some? ==> price.value > 0) && status != Some(TripStatus.Cancelled) then Edit(d, trip, price, status) else d
  }

  // ---------------------------------------------------------------- what a commit writes

  function PricesAt(prices: seq<nat>): nat -> int { (i: nat) => if i < |prices| then prices[i] else 0 }

  function Charged(prices: seq<nat>): nat {
    TotalNonNegative(|prices|, PricesAt(prices));
    Total(|prices|, PricesAt(prices))
  }

  function TicketsAt(d: Desk, ids: seq<nat>, prices: seq<nat>): (tickets: seq<Ticket>)
    requires |prices| == |ids|
    ensures |tickets| == |ids|
  {
    seq(|ids|, k requires 0 <= k < |ids| => NewTicket(d, ids[k]).(fare := prices[k]))
  }

  /** A sale at the prices that were read before the seats were claimed. */
  function SellAt(d: Desk, trip: nat, act: Act, prices: seq<nat>, full: bool): Desk
    requires act.Buy? && |prices| == |act.ids|
  {
    d.(seats := SoldSeats(d, act.ids, |act.ids|),
       bookings := d.bookings + [Booking(trip, act.agent, act.key, Charged(prices), Confirmed)],
       tickets := d.tickets + TicketsAt(d, act.ids, prices),
       payments := d.payments + [Payment(|d.bookings|, Charged(prices), 0, Paid)],
       trips := if full && trip < |d.trips| then d.trips[trip := d.trips[trip].(status := TripStatus.Full)] else d.trips)
  }

  /** The end of a booking on a trip whose status was read at the start. */
  function CancelAt(d: Desk, booking: nat, seen: TripStatus): Desk
    requires booking < |d.bookings|
  {
    var trip := d.bookings[booking].trip;
    Void(d, booking).(seats := FreeSeats(d, booking),
      trips := if seen.Full? && trip < |d.trips| then d.trips[trip := d.trips[trip].(status := Open)] else d.trips)
  }

  function Effect(d: Desk, trip: nat, t: Txn): Desk
    requires ReadyToCommit(d, trip, t)
  {
    if t.Counted? then SellAt(d, trip, t.act, t.prices, t.full)
    else if t.act.EndBooking? then CancelAt(d, t.act.booking, t.status)
    else if t.act.EndTrip? then
      VoidTrip(d, trip, |d.bookings|).(seats := BlockSeats(d.seats, trip), trips := d.trips[trip := d.trips[trip].(status := Cancelled)])
    else d.(trips := d.trips[trip := Trip(Departed, Manifest.Locked)])
  }

  /** A transaction has nothing left to do but to commit. */
  predicate ReadyToCommit(d: Desk, trip: nat, t: Txn) {
    trip < |d.trips| &&
    (if t.Counted? then t.act.Buy? && |t.prices| == |t.act.ids|
     else t.Seen? && !t.act.Buy? && (t.act.EndBooking? ==> t.act.booking < |d.bookings|))
  }

  // ---------------------------------------------------------------- which statements can run

  /** The checks that a transaction makes once it holds the lock. */
  predicate Passes(d: Desk, trip: nat, act: Act) {
    trip < |d.trips| &&
    match act
    case Buy(user, ids, agent, key, now) => Bookable(d.trips[trip].status) && BookingWithKey(d.bookings, key, 0).None?
    case EndBooking(booking) => booking < |d.bookings| && d.bookings[booking].trip == trip && d.bookings[booking].status == Confirmed
                                && d.trips[trip].status !in {Departed, Completed}
    case EndTrip => d.trips[trip].status !in {Cancelled, Completed}
    case Depart => LockManifest(d, trip).Success?
  }

  /** The seats that a transaction has written and not committed. */
  predicate Claims(t: Txn, seat: nat) {
    (t.Claiming? && t.act.Buy? && t.claimed <= |t.act.ids| && seat in t.act.ids[..t.claimed])
    || (t.Counted? && t.act.Buy? && seat in t.act.ids)
  }

  /** No statement writes a row that an unfinished transaction has written. */
  predicate RowsFree(w: World, s: Single) {
    forall i, trip :: 0 <= i < |w.desk.seats| && trip in w.active && Claims(w.active[trip], i) ==>
      |After(w.desk, s).seats| == |w.desk.seats| && After(w.desk, s).seats[i] == w.desk.seats[i]
  }

  /** The advisory lock on an order's key. */
  predicate KeyFree(w: World, key: Key) {
    forall trip :: trip in w.active && w.active[trip].act.Buy? ==> w.active[trip].act.key != key
  }

  predicate Enabled(w: World, s: Statement) {
    match s
    case Lock(trip, act) => trip !in w.active && trip < |w.desk.trips| && (act.Buy? ==> KeyFree(w, act.key))
    case ReadTrip(trip) => trip in w.active && w.active[trip].Locked? && Passes(w.desk, trip, w.active[trip].act)
    case ReadSeats(trip) => trip in w.active && w.active[trip].Seen? && w.active[trip].act.Buy?
                            && w.active[trip].act.ids != [] && AllFound(w.desk, trip, w.active[trip].act.ids)
    case Claim(trip) => trip in w.active && w.active[trip].Claiming? && MayClaim(w.desk, w.active[trip])
    case Count(trip) => trip in w.active && w.active[trip].Claiming? && w.active[trip].act.Buy? && w.active[trip].claimed == |w.active[trip].act.ids|
    case Commit(trip) => trip in w.active && ReadyToCommit(w.desk, trip, w.active[trip])
    case Abort(trip) => trip in w.active
    case Alone(single) => RowsFree(w, single)
  }

  predicate MayClaim(d: Desk, t: Txn)
    requires t.Claiming?
  {
    t.act.Buy? && t.claimed < |t.act.ids| && t.act.ids[t.claimed] < |d.seats|
    && Claimable(d.seats[t.act.ids[t.claimed]], t.act.user, t.act.now)
  }

  /** No seat of the trip is available besides those of the order. */
  predicate TakenUp(seats: seq<Seat>, trip: nat, ids: seq<nat>) {
    forall i :: 0 <= i < |seats| && seats[i].trip == trip && Sellable(seats[i].kind) && seats[i].status.Available? ==> i in ids
  }

  function PricesOf(seats: seq<Seat>, ids: seq<nat>): (prices: seq<nat>)
    requires forall k :: 0 <= k < |ids| ==> ids[k] < |seats|
    ensures |prices| == |ids| && forall k :: 0 <= k < |ids| ==> prices[k] == seats[ids[k]].price
  {
    seq(|ids|, k requires 0 <= k < |ids| => seats[ids[k]].price)
  }

  function Next(w: World, s: Statement): World
    requires Enabled(w, s)
  {
    match s
    case Lock(trip, act) => w.(active := w.active[trip := Txn.Locked(act)])
    case ReadTrip(trip) => w.(active := w.active[trip := Seen(w.active[trip].act, w.desk.trips[trip].status)])
    case ReadSeats(trip) =>
      w.(active := w.active[trip := Claiming(w.active[trip].act, PricesOf(w.desk.seats, w.active[trip].act.ids), 0)])
    case Claim(trip) => w.(active := w.active[trip := w.active[trip].(claimed := w.active[trip].claimed + 1)])
    case Count(trip) =>
      w.(active := w.active[trip := Counted(w.active[trip].act, w.active[trip].prices, TakenUp(w.desk.seats, trip, w.active[trip].act.ids))])
    case Commit(trip) => World(Effect(w.desk, trip, w.active[trip]), w.active - {trip})
    case Abort(trip) => w.(active := w.active - {trip})
    case Alone(single) => w.(desk := After(w.desk, single))
  }

  // ---------------------------------------------------------------- schedules

  predicate Legal(d: Desk, schedule: seq<Statement>)
    decreases |schedule|, 0
  {
    schedule == [] || (Legal(d, schedule[..|schedule| - 1]) && Enabled(At(d, schedule[..|schedule| - 1]), schedule[|schedule| - 1]))
  }

  function At(d: Desk, schedule: seq<Statement>): World
    requires Legal(d, schedule)
    decreases |schedule|, 1
  {
    if schedule == [] then World(d, map[]) else Next(At(d, schedule[..|schedule| - 1]), schedule[|schedule| - 1])
  }

  // ---------------------------------------------------------------- what holds of each transaction

  /** What a lock holder relies on, whatever single statements come in between. */
  predicate TxnOk(d: Desk, trip: nat, t: Txn) {
    trip < |d.trips| &&
    match t
    case Locked(act) => true
    case Seen(act, status) => StillDue(d, trip, act)
    case Claiming(act, prices, claimed) =>
      OrderOk(d, trip, act, prices) && claimed <= |act.ids| && AllClaimable(d, act.ids[..claimed], act.user, act.now)
    case Counted(act, prices, full) => OrderOk(d, trip, act, prices) && AllClaimable(d, act.ids, act.user, act.now)
  }

  predicate StillDue(d: Desk, trip: nat, act: Act) {
    && (act.Buy? ==> BookingWithKey(d.bookings, act.key, 0).None?)
    && (act.EndBooking? ==> act.booking < |d.bookings| && d.bookings[act.booking].trip == trip && d.bookings[act.booking].status == Confirmed)
  }

  predicate OrderOk(d: Desk, trip: nat, act: Act, prices: seq<nat>) {
    act.Buy? && StillDue(d, trip, act) && act.ids != [] && AllFound(d, trip, act.ids) && |prices| == |act.ids|
  }

  ghost predicate KeysApart(active: map<nat, Txn>) {
    forall t, u :: t in active && u in active && t != u && active[t].act.Buy? && active[u].act.Buy? ==> active[t].act.key != active[u].act.key
  }

  ghost predicate WorldOk(w: World) {
    KeysApart(w.active) && forall trip :: trip in w.active ==> TxnOk(w.desk, trip, w.active[trip])
  }

  /** e is d as far as another trip and another key are concerned. */
  predicate Elsewhere(d: Desk, e: Desk, trip: nat, key: Option<Key>) {
    && |e.trips| == |d.trips| && trip < |d.trips| && e.trips[trip] == d.trips[trip]
    && |e.seats| == |d.seats| && (forall i :: 0 <= i < |d.seats| && d.seats[i].trip == trip ==> e.seats[i] == d.seats[i])
    && (forall i :: 0 <= i < |d.seats| ==> e.seats[i].trip == d.seats[i].trip)
    && |d.bookings| <= |e.bookings| && (forall b :: 0 <= b < |d.bookings| && d.bookings[b].trip == trip ==> e.bookings[b] == d.bookings[b])
    && (forall b :: 0 <= b < |d.bookings| ==> e.bookings[b].key == d.bookings[b].key)
    && (forall b :: |d.bookings| <= b < |e.bookings| ==> Some(e.bookings[b].key) == key)
  }

  function KeyOf(act: Act): Option<Key> { if act.Buy? then Some(act.key) else None }

  lemma ElsewhereKeepsTxn(d: Desk, e: Desk, trip: nat, key: Option<Key>, t: Txn)
    requires Elsewhere(d, e, trip, key) && TxnOk(d, trip, t) && (t.act.Buy? ==> Some(t.act.key) != key)
    ensures TxnOk(e, trip, t)
  {
    if t.act.Buy? {
      KeySearch(d.bookings, t.act.key, 0);
      KeySearch(e.bookings, t.act.key, 0);
    }
  }

  lemma SellElsewhere(d: Desk, trip: nat, act: Act, prices: seq<nat>, full: bool, other: nat)
    requires act.Buy? && |prices| == |act.ids| && AllFound(d, trip, act.ids) && trip < |d.trips| && other < |d.trips| && other != trip
    ensures Elsewhere(d, SellAt(d, trip, act, prices, full), other, Some(act.key))
  {
    SoldSeatsAre(d, act.ids, |act.ids|);
    assert act.ids[..|act.ids|] == act.ids;
    var e := SellAt(d, trip, act, prices, full);
    forall i | 0 <= i < |d.seats| ensures e.seats[i].trip == d.seats[i].trip { assert SameSeat(d.seats[i], e.seats[i]); }
  }

  lemma CancelElsewhere(d: Desk, booking: nat, seen: TripStatus, other: nat)
    requires References(d) && booking < |d.bookings| && other < |d.trips| && other != d.bookings[booking].trip
    ensures Elsewhere(d, CancelAt(d, booking, seen), other, None)
  {
    var e := CancelAt(d, booking, seen);
    VoidFrame(d, booking);
    forall i | 0 <= i < |d.seats| && SeatOf(d.tickets, booking, i) ensures d.seats[i].trip == d.bookings[booking].trip {
      var t :| 0 <= t < |d.tickets| && d.tickets[t].booking == booking && d.tickets[t].seat == i;
      assert TicketOk(d, d.tickets[t]);
    }
  }

  lemma EffectElsewhere(d: Desk, trip: nat, t: Txn, other: nat)
    requires References(d) && ReadyToCommit(d, trip, t) && TxnOk(d, trip, t) && other < |d.trips| && other != trip
    ensures Elsewhere(d, Effect(d, trip, t), other, KeyOf(t.act))
  {
    if t.Counted? {
      SellElsewhere(d, trip, t.act, t.prices, t.full, other);
    } else if t.act.EndBooking? {
      CancelElsewhere(d, t.act.booking, t.status, other);
    } else if t.act.EndTrip? {
      VoidTripFrame(d, trip, |d.bookings|);
    }
  }

  /** Single statements leave bookings and every seat's trip alone. */
  lemma SinglesFrame(d: Desk, s: Single)
    ensures var e := After(d, s);
      && e == d.(seats := e.seats, trips := e.trips) && |e.trips| == |d.trips| && |e.seats| == |d.seats|
      && (forall i :: 0 <= i < |d.seats| ==> SeatEdited(d.seats[i], e.seats[i]))
      && (forall i :: 0 <= i < |d.trips| && e.trips[i].status == Cancelled ==> d.trips[i].status == Cancelled)
  {}

  lemma SingleKeepsTxn(w: World, s: Single, trip: nat)
    requires RowsFree(w, s) && trip in w.active && TxnOk(w.desk, trip, w.active[trip])
    ensures TxnOk(After(w.desk, s), trip, w.active[trip])
  {
    var t, e := w.active[trip], After(w.desk, s);
    SinglesFrame(w.desk, s);
    if t.Claiming? || t.Counted? {
      var ids := if t.Claiming? then t.act.ids[..t.claimed] else t.act.ids;
      forall k | 0 <= k < |ids| ensures e.seats[ids[k]] == w.desk.seats[ids[k]] { assert Claims(t, ids[k]); }
      forall k | 0 <= k < |t.act.ids| ensures e.seats[t.act.ids[k]].trip == trip {
        assert SeatEdited(w.desk.seats[t.act.ids[k]], e.seats[t.act.ids[k]]);
      }
    }
  }

  lemma NextKeepsTxns(w: World, s: Statement, trip: nat)
    requires References(w.desk) && WorldOk(w) && Enabled(w, s) && trip in Next(w, s).active
    ensures TxnOk(Next(w, s).desk, trip, Next(w, s).active[trip])
  {
    if s.Alone? {
      SingleKeepsTxn(w, s.single, trip);
    } else if s.Commit? {
      EffectElsewhere(w.desk, s.trip, w.active[s.trip], trip);
      ElsewhereKeepsTxn(w.desk, Next(w, s).desk, trip, KeyOf(w.active[s.trip].act), w.active[trip]);
    } else if s.Claim? && s.trip == trip {
      var t := w.active[trip];
      assert t.act.ids[..t.claimed + 1] == t.act.ids[..t.claimed] + [t.act.ids[t.claimed]];
    } else if s.Count? && s.trip == trip {
      var t := w.active[trip];
      assert t.act.ids[..t.claimed] == t.act.ids;
    }
  }

  lemma NextKeepsWorld(w: World, s: Statement)
    requires References(w.desk) && WorldOk(w) && Enabled(w, s)
    ensures WorldOk(Next(w, s))
  {
    forall trip | trip in Next(w, s).active ensures TxnOk(Next(w, s).desk, trip, Next(w, s).active[trip]) {
      NextKeepsTxns(w, s, trip);
    }
  }

  // ---------------------------------------------------------------- no seat is sold twice

  /** The desk with every ticket priced like its seat: what remains is who has which seat. */
  function Aligned(d: Desk): (a: Desk)
    ensures |a.tickets| == |d.tickets|
  {
    d.(tickets := seq(|d.tickets|, t requires 0 <= t < |d.tickets| =>
      d.tickets[t].(fare := if d.tickets[t].seat < |d.seats| then d.seats[d.tickets[t].seat].price else 0)))
  }

  /** Seats and live tickets name each other, at whatever fares. */
  predicate Linked(d: Desk) { References(d) && SeatLinks(Aligned(d)) }

  /** What the links depend on: seats, tickets but for their fares, and which bookings are confirmed. */
  predicate SameLinks(d: Desk, e: Desk) {
    && e.seats == d.seats && |e.tickets| == |d.tickets| && |e.bookings| == |d.bookings|
    && (forall t :: 0 <= t < |d.tickets| ==> e.tickets[t].booking == d.tickets[t].booking && e.tickets[t].seat == d.tickets[t].seat)
    && (forall b :: 0 <= b < |d.bookings| ==> (e.bookings[b].status == Confirmed <==> d.bookings[b].status == Confirmed))
  }

  lemma SameLinksSameTickets(d: Desk, e: Desk, t: nat)
    requires SameLinks(d, e) && t < |e.tickets| && TicketLive(Aligned(e), t) && SeatLinks(Aligned(d))
    ensures SoldTo(Aligned(e), Aligned(e).tickets[t], t)
  {
    assert TicketLive(Aligned(d), t);
    assert SoldTo(Aligned(d), Aligned(d).tickets[t], t);
  }

  lemma SameLinksLinked(d: Desk, e: Desk)
    requires SameLinks(d, e) && SeatLinks(Aligned(d))
    ensures SeatLinks(Aligned(e))
  {
    forall t | 0 <= t < |e.tickets| && TicketLive(Aligned(e), t) ensures SoldTo(Aligned(e), Aligned(e).tickets[t], t) {
      SameLinksSameTickets(d, e, t);
    }
    forall i | 0 <= i < |e.seats| ensures SeatOk(Aligned(e), e.seats[i], i) { assert SeatOk(Aligned(d), d.seats[i], i); }
  }

  lemma LinksAlign(d: Desk)
    requires SeatLinks(d)
    ensures SeatLinks(Aligned(d))
  {
    forall t | 0 <= t < |d.tickets| && TicketLive(Aligned(d), t) ensures SoldTo(Aligned(d), Aligned(d).tickets[t], t) {
      assert TicketLive(d, t) && SoldTo(d, d.tickets[t], t);
    }
    forall i | 0 <= i < |d.seats| ensures SeatOk(Aligned(d), d.seats[i], i) { assert SeatOk(d, d.seats[i], i); }
  }

  /** The aligned desk with the trip on sale: whatever the trip's status, the links are the same. */
  function OnSale(d: Desk, trip: nat): Desk
    requires trip < |d.trips|
  {
    Aligned(d).(trips := d.trips[trip := d.trips[trip].(status := Open)])
  }

  lemma OnSaleLinked(d: Desk, trip: nat)
    requires Linked(d) && trip < |d.trips|
    ensures References(OnSale(d, trip)) && SeatLinks(OnSale(d, trip))
  {
    var a := OnSale(d, trip);
    forall t | 0 <= t < |a.tickets| ensures TicketOk(a, a.tickets[t]) { assert TicketOk(d, d.tickets[t]); }
    forall i | 0 <= i < |a.seats| ensures SeatOk(a, a.seats[i], i) { assert SeatOk(Aligned(d), d.seats[i], i); }
    forall t | 0 <= t < |a.tickets| && TicketLive(a, t) ensures SoldTo(a, a.tickets[t], t) {
      assert TicketLive(Aligned(d), t) && SoldTo(Aligned(d), Aligned(d).tickets[t], t);
    }
  }

  lemma {:induction false} SameSoldSeats(d: Desk, e: Desk, ids: seq<nat>, n: nat)
    requires e.seats == d.seats && |e.tickets| == |d.tickets| && n <= |ids|
    ensures SoldSeats(e, ids, n) == SoldSeats(d, ids, n)
  {
    if n > 0 { SameSoldSeats(d, e, ids, n - 1); }
  }

  lemma SoldAlike(d: Desk, a: Desk, trip: nat, act: Act, prices: seq<nat>, full: bool)
    requires act.Buy? && |prices| == |act.ids| && trip < |a.trips|
    requires a.seats == d.seats && a.bookings == d.bookings && |a.tickets| == |d.tickets|
    requires forall t :: 0 <= t < |d.tickets| ==> a.tickets[t].booking == d.tickets[t].booking && a.tickets[t].seat == d.tickets[t].seat
    ensures SameLinks(Sell(a, trip, act.ids, act.agent, act.key), SellAt(d, trip, act, prices, full))
  {
    SameSoldSeats(d, a, act.ids, |act.ids|);
  }

  lemma SellKeepsLinks(d: Desk, trip: nat, act: Act, prices: seq<nat>, full: bool)
    requires Linked(d) && trip < |d.trips| && OrderOk(d, trip, act, prices) && AllClaimable(d, act.ids, act.user, act.now)
    ensures SeatLinks(Aligned(SellAt(d, trip, act, prices, full)))
  {
    var a := OnSale(d, trip);
    OnSaleLinked(d, trip);
    SellKeepsSeatLinks(a, trip, act.ids, act.agent, act.key, act.user, act.now);
    LinksAlign(Sell(a, trip, act.ids, act.agent, act.key));
    SoldAlike(d, a, trip, act, prices, full);
    SameLinksLinked(Sell(a, trip, act.ids, act.agent, act.key), SellAt(d, trip, act, prices, full));
  }

  lemma SeatOfAlike(x: seq<Ticket>, y: seq<Ticket>, booking: nat, seat: nat)
    requires |x| == |y| && forall t :: 0 <= t < |x| ==> x[t].booking == y[t].booking && x[t].seat == y[t].seat
    ensures SeatOf(x, booking, seat) <==> SeatOf(y, booking, seat)
  {
    if SeatOf(x, booking, seat) {
      var t :| 0 <= t < |x| && x[t].booking == booking && x[t].seat == seat;
      assert y[t].booking == booking && y[t].seat == seat;
    }
  }

  lemma CancelKeepsLinks(d: Desk, booking: nat, seen: TripStatus)
    requires Linked(d) && booking < |d.bookings| && d.bookings[booking].status == Confirmed
    ensures SeatLinks(Aligned(CancelAt(d, booking, seen)))
  {
    var trip := d.bookings[booking].trip;
    var a := OnSale(d, trip);
    OnSaleLinked(d, trip);
    CancelKeepsSeatLinks(a, booking);
    LinksAlign(CancelBooking(a, booking).value);
    forall i | 0 <= i < |d.seats| ensures SeatOf(a.tickets, booking, i) <==> SeatOf(d.tickets, booking, i) {
      SeatOfAlike(d.tickets, a.tickets, booking, i);
    }
    VoidFrame(d, booking);
    VoidFrame(a, booking);
    SameLinksLinked(CancelBooking(a, booking).value, CancelAt(d, booking, seen));
  }

  lemma EndTripKeepsLinks(d: Desk, trip: nat)
    requires Linked(d) && trip < |d.trips|
    ensures SeatLinks(Aligned(Effect(d, trip, Seen(EndTrip, Open))))
  {
    var a := OnSale(d, trip);
    OnSaleLinked(d, trip);
    CancelTripKeepsSeatLinks(a, trip);
    LinksAlign(CancelTrip(a, trip).value);
    VoidTripFrame(d, trip, |d.bookings|);
    VoidTripFrame(a, trip, |d.bookings|);
    SameLinksLinked(CancelTrip(a, trip).value, Effect(d, trip, Seen(EndTrip, Open)));
  }

  lemma SellKeepsTicketReferences(d: Desk, trip: nat, act: Act, prices: seq<nat>, full: bool)
    requires References(d) && trip < |d.trips| && OrderOk(d, trip, act, prices)
    ensures References(SellAt(d, trip, act, prices, full))
  {
    var e := SellAt(d, trip, act, prices, full);
    forall i | 0 <= i < |e.seats| ensures e.seats[i].trip < |e.trips| { assert SameSeat(d.seats[i], e.seats[i]); }
    forall t | 0 <= t < |e.tickets| ensures TicketOk(e, e.tickets[t]) {
      if t < |d.tickets| {
        assert TicketOk(d, d.tickets[t]) && SameSeat(d.seats[d.tickets[t].seat], e.seats[d.tickets[t].seat]);
      } else {
        var k := t - |d.tickets|;
        assert e.tickets[|d.tickets| + k].seat == act.ids[k] && SameSeat(d.seats[act.ids[k]], e.seats[act.ids[k]]);
      }
    }
  }

  lemma {:induction false} VoidTripKeepsReferences(d: Desk, trip: nat, n: nat)
    requires References(d) && n <= |d.bookings|
    ensures References(VoidTrip(d, trip, n))
  {
    hide References, Void;
    if n > 0 {
      VoidTripKeepsReferences(d, trip, n - 1);
      if d.bookings[n - 1].trip == trip && Live(d.bookings[n - 1]) { VoidKeepsReferences(VoidTrip(d, trip, n - 1), n - 1); }
    }
  }

  lemma ReseatKeepsReferences(d: Desk, e: Desk)
    requires References(d) && e == d.(seats := e.seats, trips := e.trips) && |e.trips| == |d.trips| && |e.seats| == |d.seats|
    requires forall i :: 0 <= i < |d.seats| ==> e.seats[i].trip == d.seats[i].trip
    ensures References(e)
  {
    forall t | 0 <= t < |e.tickets| ensures TicketOk(e, e.tickets[t]) { assert TicketOk(d, d.tickets[t]); }
  }

  lemma EffectKeepsReferences(d: Desk, trip: nat, t: Txn)
    requires References(d) && ReadyToCommit(d, trip, t) && TxnOk(d, trip, t)
    ensures References(Effect(d, trip, t))
  {
    if t.Counted? {
      SellKeepsTicketReferences(d, trip, t.act, t.prices, t.full);
    } else if t.act.EndBooking? {
      VoidKeepsReferences(d, t.act.booking);
      VoidFrame(d, t.act.booking);
      ReseatKeepsReferences(Void(d, t.act.booking), Effect(d, trip, t));
    } else if t.act.EndTrip? {
      VoidTripKeepsReferences(d, trip, |d.bookings|);
      VoidTripFrame(d, trip, |d.bookings|);
      ReseatKeepsReferences(VoidTrip(d, trip, |d.bookings|), Effect(d, trip, t));
    } else {
      ReseatKeepsReferences(d, Effect(d, trip, t));
    }
  }

  lemma EffectKeepsLinked(d: Desk, trip: nat, t: Txn)
    requires Linked(d) && ReadyToCommit(d, trip, t) && TxnOk(d, trip, t)
    ensures Linked(Effect(d, trip, t))
  {
    EffectKeepsReferences(d, trip, t);
    if t.Counted? {
      SellKeepsLinks(d, trip, t.act, t.prices, t.full);
    } else if t.act.EndBooking? {
      CancelKeepsLinks(d, t.act.booking, t.status);
    } else if t.act.EndTrip? {
      EndTripKeepsLinks(d, trip);
    } else {
      SameLinksLinked(d, Effect(d, trip, t));
    }
  }

  lemma SinglesKeepLinked(d: Desk, s: Single)
    requires Linked(d)
    ensures Linked(After(d, s))
  {
    var e := After(d, s);
    SinglesFrame(d, s);
    forall i | 0 <= i < |d.seats| ensures e.seats[i].trip == d.seats[i].trip { assert SeatEdited(d.seats[i], e.seats[i]); }
    ReseatKeepsReferences(d, e);
    forall t | 0 <= t < |e.tickets| && TicketLive(Aligned(e), t) ensures SoldTo(Aligned(e), Aligned(e).tickets[t], t) {
      assert TicketLive(Aligned(d), t) && SoldTo(Aligned(d), Aligned(d).tickets[t], t);
      assert SeatEdited(d.seats[d.tickets[t].seat], e.seats[d.tickets[t].seat]);
    }
    forall i | 0 <= i < |e.seats| ensures SeatOk(Aligned(e), e.seats[i], i) {
      assert SeatOk(Aligned(d), d.seats[i], i) && SeatEdited(d.seats[i], e.seats[i]);
    }
  }

  lemma {:induction false} ScheduleKeepsLinked(d: Desk, schedule: seq<Statement>)
    requires Linked(d) && Legal(d, schedule)
    ensures Linked(At(d, schedule).desk) && WorldOk(At(d, schedule))
  {
    if schedule != [] {
      var w, s := At(d, schedule[..|schedule| - 1]), schedule[|schedule| - 1];
      ScheduleKeepsLinked(d, schedule[..|schedule| - 1]);
      NextKeepsWorld(w, s);
      if s.Commit? { EffectKeepsLinked(w.desk, s.trip, w.active[s.trip]); }
      if s.Alone? { SinglesKeepLinked(w.desk, s.single); }
    }
  }

  /** Whatever the interleaving of statements, aborts and price edits included, in every committed
      state a seat is BOOKED exactly when a live ticket names it, and only one does. */
  lemma NoDoubleSaleEver(d: Desk, schedule: seq<Statement>, seat: nat)
    requires DeskInv(d) && Legal(d, schedule) && seat < |At(d, schedule).desk.seats|
    ensures var e := At(d, schedule).desk;
      && (e.seats[seat].status == Booked <==> exists t: nat :: Sells(e, t, seat))
      && (forall t: nat :: Sells(e, t, seat) ==> e.seats[seat].ticket == Some(t))
      && (forall t: nat, u: nat :: Sells(e, t, seat) && Sells(e, u, seat) ==> t == u)
  {
    LinksAlign(d);
    ScheduleKeepsLinked(d, schedule);
    var e := At(d, schedule).desk;
    assert SeatOk(Aligned(e), e.seats[seat], seat);
    if e.seats[seat].status == Booked { assert TicketLive(Aligned(e), e.seats[seat].ticket.value) && Sells(e, e.seats[seat].ticket.value, seat); }
    forall t: nat | Sells(e, t, seat) ensures e.seats[seat].ticket == Some(t) && e.seats[seat].status == Booked {
      assert TicketLive(Aligned(e), t) && SoldTo(Aligned(e), Aligned(e).tickets[t], t);
    }
  }
}
