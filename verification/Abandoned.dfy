/** An event whose worker crashed comes back: its lease runs out after five minutes. */
module Abandoned {
  import opened Wrappers
  import opened Idempotency
  import Ledgers = GeneralLedger
  import opened Backend
  import opened BackendInvariants
  import PostingProofs
  import opened Runs
  import opened Leases

  /** An event that was just claimed can be claimed again exactly when more than five minutes have passed
      and fewer than five attempts are counted, this one included. */
  lemma LeaseRunsOut(db: Db, id: nat, worker: nat, now: int, later: int)
    requires id < |db.events| && Claimable(db.events[id], now)
    ensures var claimed := Claim(db, id, worker, now).events[id];
      && claimed.attempts == db.events[id].attempts + 1 && claimed.lease == Some(Lease(now, worker)) && claimed.status == Waiting
      && (Claimable(claimed, later) <==> claimed.attempts < 5 && later > now + 300000)
  {}

  /** The request claims the event, posts it, reports a failure of it or requeues it. */
  predicate Touches(db: Db, r: Request, now: int, id: nat)
    requires id < |db.events|
  {
    match r
    case PostByHand(kind, row, _, _, _, _, _) => kind == db.events[id].kind && row == db.events[id].row
    case WorkerProcesses(event) => event == id
    case WorkerReportsFailure(event) => event == id
    case RequeueEvent(event) => event == id
    case _ => Claimed(db, r, now) == Some(id)
  }

  lemma PostTouches(db: Db, kind: EventKind, row: nat, period: nat, number: Ledgers.EntryNumber, date: int, description: string, key: Key, now: int, id: nat)
    requires Post(db, kind, row, period, number, date, description, key, now).Posted?
    requires id < |db.events| && !(kind == db.events[id].kind && row == db.events[id].row)
    ensures var e := Post(db, kind, row, period, number, date, description, key, now).db; id < |e.events| && e.events[id] == db.events[id]
  {
    var begun := Begin(db.records, PostEvents, key, EventPosted(kind, row, period, number, date, description), now);
    if begun.value.Fresh? { PostingProofs.FreshPostingIs(db, kind, row, period, number, date, key, begun.value.records); }
  }

  lemma ProcessTouches(db: Db, event: nat, now: int, id: nat)
    requires EventsUnique(db.events) && ProcessEvent(db, event, now).Posted? && id < |db.events| && id != event
    ensures var e := ProcessEvent(db, event, now).db; id < |e.events| && e.events[id] == db.events[id]
  {
    if !(db.events[event].status == Done && db.events[event].entry.Some?) {
      var period := Ledgers.OpenPeriodFor(db.ledger.periods, DayOf(db.events[event].createdAt), |db.ledger.periods|).value;
      PostTouches(db, db.events[event].kind, db.events[event].row, period, Ledgers.Auto(event), DayOf(db.events[event].createdAt), "auto", ForEvent(event), now, id);
    }
  }

  lemma ProcessNextTouches(db: Db, locked: set<nat>, user: nat, now: int, id: nat)
    requires EventsUnique(db.events) && ProcessNext(db, locked, user, now).Success?
    requires id < |db.events| && NextEvent(db.events, locked, now, 0) != Some(id)
    ensures var e := ProcessNext(db, locked, user, now).value; id < |e.events| && e.events[id] == db.events[id]
  {
    hide ProcessEvent;
    var next := NextEvent(db.events, locked, now, 0);
    if next.Some? {
      var claimed := Claim(db, next.value, user, now);
      if ProcessEvent(claimed, next.value, now).Posted? { ProcessTouches(claimed, next.value, now, id); }
    }
  }

  lemma UntouchedStays(db: Db, r: Request, now: int, id: nat)
    requires EventsUnique(db.events) && id < |db.events| && !Touches(db, r, now, id)
    ensures var e := Apply(db, r, now); id < |e.events| && e.events[id] == db.events[id]
  {
    hide Post, ProcessEvent, ProcessNext;
    if !EventRequest(r) {
      OthersAppendEvents(db, r, now);
    } else if r.PostByHand? {
      if Post(db, r.kind, r.row, r.period, r.number, r.date, r.description, r.key, now).Posted? {
        PostTouches(db, r.kind, r.row, r.period, r.number, r.date, r.description, r.key, now, id);
      }
    } else if r.WorkerProcesses? {
      if ProcessEvent(db, r.event, now).Posted? { ProcessTouches(db, r.event, now, id); }
    } else if r.ProcessNextEvent? {
      if ProcessNext(db, r.locked, r.user, now).Success? { ProcessNextTouches(db, r.locked, r.user, now, id); }
    }
  }

  predicate LeftAlone(db: Db, steps: seq<Step>, id: nat) {
    forall i :: 0 <= i < |steps| ==>
      id < |Run(db, steps[..i]).events| && !Touches(Run(db, steps[..i]), steps[i].request, steps[i].now, id)
  }

  lemma {:induction false} LeftAloneStays(db: Db, steps: seq<Step>, id: nat)
    requires DbInv(db) && id < |db.events| && LeftAlone(db, steps, id)
    ensures id < |Run(db, steps).events| && Run(db, steps).events[id] == db.events[id]
  {
    if steps != [] {
      var before, last := steps[..|steps| - 1], steps[|steps| - 1];
      assert LeftAlone(db, before, id) by { LeftAloneBefore(db, steps, id); }
      LeftAloneStays(db, before, id);
      RunKeeps(db, before);
      assert OutboxExact(Run(db, before));
      hide DbInv, Apply, Touches;
      UntouchedStays(Run(db, before), last.request, last.now, id);
    }
  }

  lemma {:induction false} LeftAloneBefore(db: Db, steps: seq<Step>, id: nat)
    requires steps != [] && LeftAlone(db, steps, id)
    ensures LeftAlone(db, steps[..|steps| - 1], id)
  {
    var before := steps[..|steps| - 1];
    forall i | 0 <= i < |before| ensures before[..i] == steps[..i] && before[i] == steps[i] {}
  }

  /** A worker claims an event and crashes. However long the others go on, as long as nobody touches the
      event it is refused for five minutes and can be claimed from then on, unless this was the fifth
      attempt; so the next worker that finds no lock on it gets it or one created no later. */
  lemma {:induction false} AbandonedComesBack(db: Db, id: nat, worker: nat, now: int, steps: seq<Step>, later: int, locked: set<nat>)
    requires DbInv(db) && id < |db.events| && Claimable(db.events[id], now) && LeftAlone(Claim(db, id, worker, now), steps, id)
    ensures var events := Run(Claim(db, id, worker, now), steps).events;
      && id < |events| && (Claimable(events[id], later) <==> db.events[id].attempts < 4 && later > now + 300000)
      && (db.events[id].attempts < 4 && later > now + 300000 && id !in locked ==>
            NextEvent(events, locked, later, 0).Some?
            && events[NextEvent(events, locked, later, 0).value].createdAt <= events[id].createdAt)
  {
    PostingProofs.ClaimKeeps(db, id, worker, now);
    LeftAloneStays(Claim(db, id, worker, now), steps, id);
    LeaseRunsOut(db, id, worker, now, later);
    hide DbInv, Run, Claim, Claimable, LeftAlone;
    var events := Run(Claim(db, id, worker, now), steps).events;
    OldestFirst(events, locked, later, 0);
    assert Claimable(events[id], later) && id !in locked ==> Open(events, locked, later, id);
  }
}
