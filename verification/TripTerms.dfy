/** What creating, viewing and editing a trip and making its manifest write, and when they are refused. */
module TripTerms {
  import opened Wrappers
  import opened TripDesk
  import opened DeskInvariants

  /** A seat copied from a template: passenger seats are on sale, all others are blocked. */
  predicate CopyOf(s: Seat, from: TemplateSeat, trip: nat, price: nat) {
    && s.trip == trip && s.name == from.name && s.kind == from.kind && s.price == price && s.ticket.None?
    && match from.kind
       case Regular => s.status == Available
       case Vip => s.status == Available
       case DriverSeat => s.status == Blocked
       case Disabled => s.status == Blocked
       case NoSeat => s.status == Blocked
  }

  /** These seats come on top of the seats there were, one for each of these template seats in their order. */
  predicate SeatsAdded(d: Desk, e: Desk, trip: nat, price: nat, template: seq<TemplateSeat>) {
    && |e.seats| == |d.seats| + |template| && d.seats <= e.seats
    && forall i :: 0 <= i < |template| ==> CopyOf(e.seats[|d.seats| + i], template[i], trip, price)
  }

  /** A new trip has the status asked for and no manifest, and every seat of the template at the price asked
      for; no other trip changes. */
  lemma CreationExactly(d: Desk, template: seq<TemplateSeat>, price: nat, status: TripStatus)
    ensures var e := AddTrip(d, template, price, status);
      && e == d.(trips := e.trips, seats := e.seats) && e.trips == d.trips + [Trip(status, Missing)]
      && SeatsAdded(d, e, |d.trips|, price, template)
  {}

  lemma {:induction false} FirstPriceIs(seats: seq<Seat>, trip: nat, from: nat)
    requires from <= |seats|
    ensures match FirstPrice(seats, trip, from)
      case None => forall i :: from <= i < |seats| ==> seats[i].trip != trip
      case Some(price) => exists i :: from <= i < |seats| && seats[i].trip == trip && seats[i].price == price
                                      && forall j :: from <= j < i ==> seats[j].trip != trip
    decreases |seats| - from
  {
    if from < |seats| && seats[from].trip != trip { FirstPriceIs(seats, trip, from + 1); }
  }

  predicate PricedLike(seats: seq<Seat>, trip: nat, price: nat) {
    exists i :: 0 <= i < |seats| && seats[i].trip == trip && seats[i].price == price && forall j :: 0 <= j < i ==> seats[j].trip != trip
  }

  /** Viewing a trip adds the seats that its template has and the trip lacks, at the price of the trip's first
      seat; it adds nothing to a trip without seats, and changes nothing else. */
  lemma RepairExactly(d: Desk, trip: nat, template: seq<TemplateSeat>)
    requires NamesDiffer(template)
    ensures var e, added := Repair(d, trip, template), MissingSeats(d.seats, trip, template);
      && e == d.(seats := e.seats)
      && (forall s :: s in added <==> s in template && forall i :: 0 <= i < |d.seats| && d.seats[i].trip == trip ==> d.seats[i].name != s.name)
      && if exists i :: 0 <= i < |d.seats| && d.seats[i].trip == trip
         then exists price: nat :: PricedLike(d.seats, trip, price) && SeatsAdded(d, e, trip, price, added)
         else e == d
  {
    FirstPriceIs(d.seats, trip, 0);
    MissingSeatsAre(d.seats, trip, template);
    var e, price := Repair(d, trip, template), FirstPrice(d.seats, trip, 0);
    if price.Some? { assert PricedLike(d.seats, trip, price.value) && SeatsAdded(d, e, trip, price.value, MissingSeats(d.seats, trip, template)); }
  }

  /** So a trip that had a seat has every seat of its template afterwards. */
  lemma RepairCompletes(d: Desk, trip: nat, template: seq<TemplateSeat>, s: TemplateSeat)
    requires NamesDiffer(template) && s in template && exists i :: 0 <= i < |d.seats| && d.seats[i].trip == trip
    ensures exists i :: 0 <= i < |Repair(d, trip, template).seats| && Repair(d, trip, template).seats[i].trip == trip
                        && Repair(d, trip, template).seats[i].name == s.name
  {
    FirstPriceIs(d.seats, trip, 0);
    MissingSeatsAre(d.seats, trip, template);
    hide FirstPrice, MissingSeats;
    var seats, added := Repair(d, trip, template).seats, MissingSeats(d.seats, trip, template);
    if s in added {
      var k :| 0 <= k < |added| && added[k] == s;
      assert seats[|d.seats| + k].name == s.name;
    } else {
      var i :| 0 <= i < |d.seats| && d.seats[i].trip == trip && d.seats[i].name == s.name;
      assert seats[i] == d.seats[i];
    }
  }

  /** Editing gives the new price to the seats of the trip that are available, to all of them and to no other
      seat, and the new status to that trip alone. */
  lemma EditExactly(d: Desk, trip: nat, price: Option<nat>, status: Option<TripStatus>)
    requires trip < |d.trips|
    ensures var e := Edit(d, trip, price, status);
      && e == d.(trips := e.trips, seats := e.seats) && |e.trips| == |d.trips| && |e.seats| == |d.seats|
      && (forall i :: 0 <= i < |d.seats| ==>
            e.seats[i] == if d.seats[i].trip == trip && d.seats[i].status == Available && price.Some?
                          then d.seats[i].(price := price.value) else d.seats[i])
      && (forall t :: 0 <= t < |d.trips| ==>
            e.trips[t] == if t == trip && status.Some? then Trip(status.value, d.trips[t].manifest) else d.trips[t])
  {}

  /** A manifest is generated once; that changes nothing else of the trip and no other trip. */
  lemma GenerationExactly(d: Desk, trip: nat)
    requires trip < |d.trips|
    ensures var e := Manifested(d, trip);
      && e == d.(trips := e.trips) && |e.trips| == |d.trips|
      && forall t :: 0 <= t < |d.trips| ==>
           e.trips[t] == if t == trip && d.trips[t].manifest == Missing then Trip(d.trips[t].status, Generated) else d.trips[t]
  {}

  /** A manifest can be locked exactly when it was generated and is not locked yet, and the trip is scheduled,
      open or full; that makes the trip depart and changes no other trip. */
  lemma LockingExactly(d: Desk, trip: nat)
    ensures var r := LockManifest(d, trip);
      && (r.Success? <==> trip < |d.trips| && d.trips[trip].manifest == Generated
                          && (d.trips[trip].status == Scheduled || d.trips[trip].status == Open || d.trips[trip].status == TripStatus.Full))
      && (r.Success? ==>
            && r.value == d.(trips := r.value.trips) && |r.value.trips| == |d.trips|
            && forall t :: 0 <= t < |d.trips| ==> r.value.trips[t] == if t == trip then Trip(Departed, Locked) else d.trips[t])
      && (r.Failure? ==> r.error == if trip >= |d.trips| || d.trips[trip].manifest == Missing then NotFound else Conflict)
  {}
}
