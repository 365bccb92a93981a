/** Conversely, whole requests run one after another are one of the ways in which statements can interleave. */
module SerialRuns {
  import opened Wrappers
  import opened TripDesk
  import opened Selling
  import opened Interleaving
  import opened Serializability

  /** A schedule after which no transaction is under way. */
  predicate Idle(d: Desk, schedule: seq<Statement>) {
    Legal(d, schedule) && Quiet(d, schedule) && At(d, schedule).active == map[]
  }

  function Committed(w: World, s: Statement): seq<Atomic>
    requires Enabled(w, s)
  {
    if s.Commit? then [OnTrip(s.trip, w.active[s.trip].act)] else if s.Alone? then [OnItsOwn(s.single)] else []
  }

  lemma Extend(d: Desk, schedule: seq<Statement>, s: Statement)
    requires Legal(d, schedule) && Quiet(d, schedule) && Enabled(At(d, schedule), s) && (s.Alone? ==> At(d, schedule).active == map[])
    ensures Legal(d, schedule + [s]) && Quiet(d, schedule + [s]) && At(d, schedule + [s]) == Next(At(d, schedule), s)
    ensures Commits(d, schedule + [s]) == Commits(d, schedule) + Committed(At(d, schedule), s)
  {
    assert (schedule + [s])[..|schedule|] == schedule;
  }

  /** The one transaction under way on e, in this state. */
  predicate Under(d: Desk, schedule: seq<Statement>, e: Desk, trip: nat, t: Txn, acts: seq<Atomic>) {
    && Legal(d, schedule) && Quiet(d, schedule) && At(d, schedule) == World(e, map[trip := t])
    && Commits(d, schedule) == acts
  }

  lemma Begins(d: Desk, schedule: seq<Statement>, trip: nat, act: Act) returns (longer: seq<Statement>)
    requires Idle(d, schedule) && Do(At(d, schedule).desk, trip, act).Success?
    ensures var e := At(d, schedule).desk;
      trip < |e.trips| && Under(d, longer, e, trip, Seen(act, e.trips[trip].status), Commits(d, schedule))
  {
    hide Quiet, CancelBooking, CancelTrip, Sell, AllFound, AllClaimable;
    var e := At(d, schedule).desk;
    assert trip < |e.trips| && Passes(e, trip, act) by { Passing(e, trip, act); }
    Extend(d, schedule, Lock(trip, act));
    Extend(d, schedule + [Lock(trip, act)], ReadTrip(trip));
    longer := schedule + [Lock(trip, act)] + [ReadTrip(trip)];
  }

  lemma Passing(e: Desk, trip: nat, act: Act)
    requires Do(e, trip, act).Success?
    ensures trip < |e.trips| && Passes(e, trip, act)
  {}

  lemma {:induction false} ClaimsAll(d: Desk, schedule: seq<Statement>, e: Desk, trip: nat, act: Act, prices: seq<nat>, n: nat, acts: seq<Atomic>)
    returns (longer: seq<Statement>)
    requires act.Buy? && n <= |act.ids| && AllClaimable(e, act.ids, act.user, act.now)
    requires Under(d, schedule, e, trip, Claiming(act, prices, 0), acts)
    ensures Under(d, longer, e, trip, Claiming(act, prices, n), acts)
  {
    hide Quiet, Legal, Claimable;
    if n == 0 { return schedule; }
    var before := ClaimsAll(d, schedule, e, trip, act, prices, n - 1, acts);
    Extend(d, before, Claim(trip));
    longer := before + [Claim(trip)];
  }

  /** An order goes from its lock to its commit. */
  lemma Buys(d: Desk, schedule: seq<Statement>, trip: nat, act: Act) returns (longer: seq<Statement>)
    requires Idle(d, schedule) && act.Buy? && Do(At(d, schedule).desk, trip, act).Success?
    ensures var e := At(d, schedule).desk;
      Idle(d, longer) && At(d, longer).desk == Do(e, trip, act).value && Commits(d, longer) == Commits(d, schedule) + [OnTrip(trip, act)]
  {
    var e, acts := At(d, schedule).desk, Commits(d, schedule);
    assert MaySell(e, trip, act.ids, act.user, act.key, act.now);
    var prices, full := PricesOf(e.seats, act.ids), TakenUp(e.seats, trip, act.ids);
    assert CommitsWhole(e, trip, Counted(act, prices, full)) by { CountedCommits(e, trip, act); }
    hide Quiet, Legal, Do, Sell, Effect, PricesOf, TakenUp;
    longer := Begins(d, schedule, trip, act);
    Extend(d, longer, ReadSeats(trip));
    longer := longer + [ReadSeats(trip)];
    longer := ClaimsAll(d, longer, e, trip, act, prices, |act.ids|, acts);
    Extend(d, longer, Count(trip));
    longer := longer + [Count(trip)];
    Finishes(d, longer, e, trip, Counted(act, prices, full), acts);
    longer := longer + [Commit(trip)];
  }

  predicate CommitsWhole(e: Desk, trip: nat, t: Txn) {
    ReadyToCommit(e, trip, t) && Do(e, trip, t.act) == Success(Effect(e, trip, t))
  }

  lemma CountedCommits(e: Desk, trip: nat, act: Act)
    requires act.Buy? && MaySell(e, trip, act.ids, act.user, act.key, act.now)
    ensures CommitsWhole(e, trip, Counted(act, PricesOf(e.seats, act.ids), TakenUp(e.seats, trip, act.ids)))
  {
    CommitIsAtomic(e, trip, Counted(act, PricesOf(e.seats, act.ids), TakenUp(e.seats, trip, act.ids)));
  }

  lemma Finishes(d: Desk, schedule: seq<Statement>, e: Desk, trip: nat, t: Txn, acts: seq<Atomic>)
    requires Under(d, schedule, e, trip, t, acts) && CommitsWhole(e, trip, t)
    ensures Idle(d, schedule + [Commit(trip)]) && At(d, schedule + [Commit(trip)]).desk == Do(e, trip, t.act).value
    ensures Commits(d, schedule + [Commit(trip)]) == acts + [OnTrip(trip, t.act)]
  {
    hide Quiet, Legal, Do, Effect;
    Extend(d, schedule, Commit(trip));
    assert map[trip := t] - {trip} == map[];
  }

  lemma Performs(d: Desk, schedule: seq<Statement>, trip: nat, act: Act) returns (longer: seq<Statement>)
    requires Idle(d, schedule) && Do(At(d, schedule).desk, trip, act).Success?
    ensures var e := At(d, schedule).desk;
      Idle(d, longer) && At(d, longer).desk == Do(e, trip, act).value && Commits(d, longer) == Commits(d, schedule) + [OnTrip(trip, act)]
  {
    if act.Buy? {
      longer := Buys(d, schedule, trip, act);
    } else {
      var e := At(d, schedule).desk;
      assert trip < |e.trips| && CommitsWhole(e, trip, Seen(act, e.trips[trip].status)) by { SeenCommits(e, trip, act); }
      hide Quiet, Legal, Do, Effect, CommitsWhole;
      longer := Begins(d, schedule, trip, act);
      Finishes(d, longer, e, trip, Seen(act, e.trips[trip].status), Commits(d, schedule));
      longer := longer + [Commit(trip)];
    }
  }

  lemma SeenCommits(e: Desk, trip: nat, act: Act)
    requires !act.Buy? && Do(e, trip, act).Success?
    ensures trip < |e.trips| && CommitsWhole(e, trip, Seen(act, e.trips[trip].status))
  {
    hide Void, VoidTrip;
    Passing(e, trip, act);
    CommitIsAtomic(e, trip, Seen(act, e.trips[trip].status));
  }

  /** Any requests that can be run whole, one after another and none refused, can be run as transactions cut
      into statements: there is a schedule that commits exactly them, in this order, and ends with their desk.
      So the quiet schedules reach exactly the desks that whole requests reach. */
  lemma {:induction false} EverySerialRun(d: Desk, acts: seq<Atomic>) returns (schedule: seq<Statement>)
    requires Perform(d, acts).Success?
    ensures Idle(d, schedule) && At(d, schedule).desk == Perform(d, acts).value && Commits(d, schedule) == acts
  {
    schedule := [];
    if acts != [] {
      var before, last := acts[..|acts| - 1], acts[|acts| - 1];
      schedule := EverySerialRun(d, before);
      hide Do, Quiet, After;
      match last {
        case OnTrip(trip, act) => schedule := Performs(d, schedule, trip, act);
        case OnItsOwn(single) =>
          Extend(d, schedule, Alone(single));
          schedule := schedule + [Alone(single)];
      }
    }
  }

  // ---------------------------------------------------------------- what can always go on

  predicate MayStart(w: World, trip: nat, act: Act) {
    && trip < |w.desk.trips| && trip !in w.active
    && forall t :: t in w.active && act.Buy? && w.active[t].act.Buy? ==> w.active[t].act.key != act.key
  }

  /** Under every interleaving a transaction can start exactly on a trip that has none, unless an order under
      the same key is under way; and any transaction can abort and leaves no trace. */
  lemma {:induction false} NobodyElseBlocks(d: Desk, schedule: seq<Statement>, trip: nat, act: Act)
    requires Legal(d, schedule)
    ensures Legal(d, schedule + [Lock(trip, act)]) <==> MayStart(At(d, schedule), trip, act)
    ensures MayStart(At(d, schedule), trip, act) ==> At(d, schedule + [Lock(trip, act)]).desk == At(d, schedule).desk
    ensures var w := At(d, schedule);
      trip in w.active ==> Legal(d, schedule + [Abort(trip)]) && At(d, schedule + [Abort(trip)]) == World(w.desk, w.active - {trip})
  {
    LegalOneMore(d, schedule, Lock(trip, act));
    hide Legal, At;
    if Enabled(At(d, schedule), Lock(trip, act)) { OneMoreStatement(d, schedule, Lock(trip, act)); }
    if Enabled(At(d, schedule), Abort(trip)) { OneMoreStatement(d, schedule, Abort(trip)); }
  }

  lemma LegalOneMore(d: Desk, schedule: seq<Statement>, s: Statement)
    requires Legal(d, schedule)
    ensures Legal(d, schedule + [s]) ==> Enabled(At(d, schedule), s)
  {
    assert (schedule + [s])[..|schedule|] == schedule;
  }

  /** A transaction that has read, claimed and counted all it wants is never refused its commit, and a single
      statement runs whenever no unfinished order has claimed a seat. */
  lemma {:induction false} FinishedCanCommit(d: Desk, schedule: seq<Statement>, trip: nat, single: Single)
    requires Linked(d) && Legal(d, schedule)
    ensures var w := At(d, schedule);
      && (trip in w.active && (w.active[trip].Counted? || (w.active[trip].Seen? && !w.active[trip].act.Buy?)) ==>
            Legal(d, schedule + [Commit(trip)]))
      && ((forall t, i :: t in w.active ==> !Claims(w.active[t], i)) ==> Legal(d, schedule + [Alone(single)]))
  {
    ScheduleKeepsLinked(d, schedule);
    hide Legal, At, Linked, Effect, After, Claims;
    if Enabled(At(d, schedule), Commit(trip)) { OneMoreStatement(d, schedule, Commit(trip)); }
    if Enabled(At(d, schedule), Alone(single)) { OneMoreStatement(d, schedule, Alone(single)); }
  }
}
