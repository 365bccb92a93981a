/** Claims of accounting events: bounded attempts, and leases that keep workers apart. */
module Leases {
  import opened Wrappers
  import opened Idempotency
  import Desks = TripDesk
  import Agencies = Settlements
  import Ledgers = GeneralLedger
  import PostingProofs
  import opened Backend
  import opened BackendInvariants
  import opened Runs

  // ---------------------------------------------------------------- bounded attempts

  /** The event that a request claims, if it claims one and is not rolled back. */
  function Claimed(db: Db, r: Request, now: int): Option<nat> {
    match r
    case WorkerClaims(worker, locked) => NextEvent(db.events, locked, now, 0)
    case ProcessNextEvent(user, locked) => if ProcessNext(db, locked, user, now).Success? then NextEvent(db.events, locked, now, 0) else None
    case _ => None
  }

  lemma PostKeepsAttempts(db: Db, kind: EventKind, row: nat, period: nat, number: Ledgers.EntryNumber, date: int, description: string, key: Key, now: int)
    requires Post(db, kind, row, period, number, date, description, key, now).Posted?
    ensures var e := Post(db, kind, row, period, number, date, description, key, now).db;
      |e.events| == |db.events| && forall i :: 0 <= i < |db.events| ==> e.events[i].attempts == db.events[i].attempts
  {
    var begun := Begin(db.records, PostEvents, key, EventPosted(kind, row, period, number, date, description), now);
    if begun.value.Fresh? { PostingProofs.FreshPostingIs(db, kind, row, period, number, date, key, begun.value.records); }
  }

  lemma ProcessKeepsAttempts(db: Db, id: nat, now: int)
    requires ProcessEvent(db, id, now).Posted?
    ensures var e := ProcessEvent(db, id, now).db;
      |e.events| == |db.events| && forall i :: 0 <= i < |db.events| ==> e.events[i].attempts == db.events[i].attempts
  {
    var event := db.events[id];
    if !(event.status == Done && event.entry.Some?) {
      var period := Ledgers.OpenPeriodFor(db.ledger.periods, DayOf(event.createdAt), |db.ledger.periods|).value;
      PostKeepsAttempts(db, event.kind, event.row, period, Ledgers.Auto(id), DayOf(event.createdAt), "auto", ForEvent(id), now);
    }
  }

  /** Every event beyond the first n is new: it waits, ready at once, unlinked and untried. */
  predicate NewFrom(events: seq<Event>, n: nat, now: int) {
    forall e :: n <= e < |events| ==> events[e] == Event(events[e].kind, events[e].row, Waiting, 0, None, now, None, now)
  }

  lemma {:induction false} EnqueuePrefix(events: seq<Event>, first: nat, last: nat, now: int)
    requires first <= last
    ensures var after := EnqueueRefunds(events, first, last, now); events <= after && NewFrom(after, |events|, now)
    decreases last - first
  {
    if first < last { EnqueuePrefix(events, first, last - 1, now); }
  }

  predicate EventRequest(r: Request) {
    r.PostByHand? || r.WorkerClaims? || r.WorkerProcesses? || r.WorkerReportsFailure? || r.ProcessNextEvent? || r.RequeueEvent?
  }

  lemma CancellationsAppendEvents(db: Db, r: Request, now: int)
    requires r.DropBooking? || r.DropTrip?
    ensures db.events <= Apply(db, r, now).events && NewFrom(Apply(db, r, now).events, |db.events|, now)
  {
    hide Desks.CancelBooking, Desks.CancelTrip, ReverseTrip;
    if r.DropBooking? && Desks.CancelBooking(db.desk, r.booking).Success? {
      var after := Desks.CancelBooking(db.desk, r.booking).value;
      if |db.desk.refunds| <= |after.refunds| { EnqueuePrefix(db.events, |db.desk.refunds|, |after.refunds|, now); }
    }
    if r.DropTrip? && Desks.CancelTrip(db.desk, r.trip).Success? {
      var after := Desks.CancelTrip(db.desk, r.trip).value;
      if |db.desk.refunds| <= |after.refunds| { EnqueuePrefix(db.events, |db.desk.refunds|, |after.refunds|, now); }
    }
  }

  /** Requests that are not about events only append new ones, dated when they were made. */
  lemma OthersAppendEvents(db: Db, r: Request, now: int)
    requires !EventRequest(r)
    ensures db.events <= Apply(db, r, now).events && NewFrom(Apply(db, r, now).events, |db.events|, now)
  {
    hide OrderFault, Desks.Sell, Desks.Hold, Desks.LockManifest, Desks.Edit, Desks.Repair, Agencies.Generate, Agencies.Settle;
    hide Ledgers.CreateEntry, Ledgers.PostEntry, Ledgers.ClosePeriod, WellFormed;
    if r.DropBooking? || r.DropTrip? { CancellationsAppendEvents(db, r, now); }
  }

  /** A request adds one to an event's attempts if it claims the event, and nothing otherwise;
      only a requeue of the event sets them back. */
  lemma AttemptsCountClaims(db: Db, r: Request, now: int, id: nat)
    requires id < |db.events| && r != RequeueEvent(id)
    ensures var e := Apply(db, r, now);
      id < |e.events| && e.events[id].attempts == db.events[id].attempts + if Claimed(db, r, now) == Some(id) then 1 else 0
  {
    if !EventRequest(r) {
      OthersAppendEvents(db, r, now);
    } else if r.PostByHand? || r.WorkerProcesses? {
      PostingCounts(db, r, now, id);
    } else if r.ProcessNextEvent? {
      if ProcessNext(db, r.locked, r.user, now).Success? { ProcessNextCounts(db, r.locked, r.user, now, id); }
    } else {
      ClaimsCount(db, r, now, id);
    }
  }

  lemma PostingCounts(db: Db, r: Request, now: int, id: nat)
    requires id < |db.events| && (r.PostByHand? || r.WorkerProcesses?)
    ensures id < |Apply(db, r, now).events| && Apply(db, r, now).events[id].attempts == db.events[id].attempts
  {
    if r.PostByHand? {
      if Post(db, r.kind, r.row, r.period, r.number, r.date, r.description, r.key, now).Posted? {
        PostKeepsAttempts(db, r.kind, r.row, r.period, r.number, r.date, r.description, r.key, now);
      }
    } else if ProcessEvent(db, r.event, now).Posted? {
      ProcessKeepsAttempts(db, r.event, now);
    }
  }

  lemma ClaimsCount(db: Db, r: Request, now: int, id: nat)
    requires id < |db.events| && (r.WorkerClaims? || r.WorkerReportsFailure? || r.RequeueEvent?) && r != RequeueEvent(id)
    ensures var e := Apply(db, r, now);
      id < |e.events| && e.events[id].attempts == db.events[id].attempts + if Claimed(db, r, now) == Some(id) then 1 else 0
  {}

  lemma ProcessNextCounts(db: Db, locked: set<nat>, user: nat, now: int, id: nat)
    requires id < |db.events| && ProcessNext(db, locked, user, now).Success?
    ensures var e := ProcessNext(db, locked, user, now).value;
      id < |e.events| && e.events[id].attempts == db.events[id].attempts + if NextEvent(db.events, locked, now, 0) == Some(id) then 1 else 0
  {
    var next := NextEvent(db.events, locked, now, 0);
    if next.Some? {
      var claimed := Claim(db, next.value, user, now);
      if ProcessEvent(claimed, next.value, now).Posted? { ProcessKeepsAttempts(claimed, next.value, now); }
    }
  }

  function ClaimCount(db: Db, steps: seq<Step>, id: nat): nat {
    if steps == [] then 0
    else
      var before, last := steps[..|steps| - 1], steps[|steps| - 1];
      ClaimCount(db, before, id) + if Claimed(Run(db, before), last.request, last.now) == Some(id) then 1 else 0
  }

  lemma {:induction false} CountedClaims(db: Db, steps: seq<Step>, id: nat)
    requires id < |db.events| && forall i :: 0 <= i < |steps| ==> steps[i].request != RequeueEvent(id)
    ensures id < |Run(db, steps).events| && Run(db, steps).events[id].attempts == db.events[id].attempts + ClaimCount(db, steps, id)
  {
    if steps != [] {
      var before, last := steps[..|steps| - 1], steps[|steps| - 1];
      CountedClaims(db, before, id);
      AttemptsCountClaims(Run(db, before), last.request, last.now, id);
    }
  }

  /** However long a run is, an event is claimed at most five times between two requeues. */
  lemma {:induction false} ClaimsBounded(db: Db, steps: seq<Step>, id: nat)
    requires DbInv(db) && id < |db.events| && forall i :: 0 <= i < |steps| ==> steps[i].request != RequeueEvent(id)
    ensures ClaimCount(db, steps, id) <= MAX_ATTEMPTS - db.events[id].attempts
  {
    RunKeeps(db, steps);
    CountedClaims(db, steps, id);
    assert EventOk(Run(db, steps), Run(db, steps).events[id]);
  }

  /** A failed event can be claimed again exactly from one minute per attempt after the failure on, and
      not at all after five attempts; a user can requeue it at once, whatever state it was in before. */
  lemma FailedEventWaits(db: Db, id: nat, now: int, later: int)
    requires id < |db.events|
    ensures var e := Apply(db, WorkerReportsFailure(id), now);
      && (Claimable(e.events[id], later) <==> db.events[id].attempts < MAX_ATTEMPTS && later >= now + db.events[id].attempts * 60000)
      && Requeue(e, id, later).Success? && Claimable(Requeue(e, id, later).value.events[id], later)
  {}

  // ---------------------------------------------------------------- workers and their leases

  /** What a worker is busy with: it claimed an event and has neither posted it nor reported failure. */
  datatype Holding = Holding(event: nat, since: int)
  datatype System = System(db: Db, holding: map<nat, Holding>)

  /** A worker claims, processes or reports failure in separate transactions, and may crash between
      any two of them; everybody else sends requests. */
  datatype Move =
    | ClaimNext(worker: nat, locked: set<nat>)
    | Process(worker: nat)
    | Report(worker: nat)
    | Crash(worker: nat)
    | Other(request: Request)

  predicate Possible(s: System, m: Move) {
    match m
    case ClaimNext(worker, _) => worker !in s.holding
    case Process(worker) => worker in s.holding
    case Report(worker) => worker in s.holding
    case Crash(worker) => worker in s.holding
    case Other(r) => !r.WorkerClaims? && !r.WorkerProcesses? && !r.WorkerReportsFailure?
  }

  function Act(s: System, m: Move, now: int): System
    requires Possible(s, m)
  {
    match m
    case ClaimNext(worker, locked) =>
      var next := NextEvent(s.db.events, locked, now, 0);
      System(Apply(s.db, WorkerClaims(worker, locked), now), if next.Some? then s.holding[worker := Holding(next.value, now)] else s.holding)
    case Process(worker) =>
      var event := s.holding[worker].event;
      System(Apply(s.db, WorkerProcesses(event), now), if ProcessEvent(s.db, event, now).Posted? then s.holding - {worker} else s.holding)
    case Report(worker) => System(Apply(s.db, WorkerReportsFailure(s.holding[worker].event), now), s.holding - {worker})
    case Crash(worker) => s.(holding := s.holding - {worker})
    case Other(r) => s.(db := Apply(s.db, r, now))
  }

  /** Every worker that holds an event claimed it no more than five minutes ago. */
  predicate Prompt(s: System, now: int) { forall w :: w in s.holding ==> now - s.holding[w].since <= LEASE_MS }

  predicate Guarded(events: seq<Event>, h: Holding) {
    h.event < |events| && (events[h.event].status == Done
      || (events[h.event].status == Waiting && events[h.event].lease.Some? && events[h.event].lease.value.at == h.since))
  }

  /** No two workers hold the same event, and what a worker holds is leased to it or already posted. */
  predicate Apart(s: System) {
    && (forall w :: w in s.holding ==> Guarded(s.db.events, s.holding[w]))
    && (forall w, v :: w in s.holding && v in s.holding && w != v ==> s.holding[w].event != s.holding[v].event)
  }

  /** An event stays guarded through one request of anybody else. */
  predicate GuardStays(x: seq<Event>, y: seq<Event>, id: nat) {
    id < |x| <= |y| && (y[id].status == Done || (y[id].status == x[id].status && y[id].lease == x[id].lease))
  }

  lemma PostGuards(db: Db, kind: EventKind, row: nat, period: nat, number: Ledgers.EntryNumber, date: int, description: string, key: Key, now: int, id: nat)
    requires Post(db, kind, row, period, number, date, description, key, now).Posted? && id < |db.events|
    ensures GuardStays(db.events, Post(db, kind, row, period, number, date, description, key, now).db.events, id)
  {
    var begun := Begin(db.records, PostEvents, key, EventPosted(kind, row, period, number, date, description), now);
    if begun.value.Fresh? { PostingProofs.FreshPostingIs(db, kind, row, period, number, date, key, begun.value.records); }
  }

  lemma ProcessGuards(db: Db, event: nat, now: int, id: nat)
    requires ProcessEvent(db, event, now).Posted? && id < |db.events|
    ensures GuardStays(db.events, ProcessEvent(db, event, now).db.events, id)
  {
    if !(db.events[event].status == Done && db.events[event].entry.Some?) {
      var period := Ledgers.OpenPeriodFor(db.ledger.periods, DayOf(db.events[event].createdAt), |db.ledger.periods|).value;
      PostGuards(db, db.events[event].kind, db.events[event].row, period, Ledgers.Auto(event), DayOf(db.events[event].createdAt), "auto", ForEvent(event), now, id);
    }
  }

  /** No request of anybody else takes an event away from a prompt worker: it is not claimable and
      cannot be requeued. */
  lemma HeldIsSafe(db: Db, r: Request, now: int, h: Holding)
    requires Guarded(db.events, h) && now - h.since <= LEASE_MS
    requires !r.WorkerClaims? && !r.WorkerProcesses? && !r.WorkerReportsFailure?
    ensures Guarded(Apply(db, r, now).events, h)
    ensures !Claimable(db.events[h.event], now) && Requeue(db, h.event, now).Failure?
  {
    if r.PostByHand? {
      if Post(db, r.kind, r.row, r.period, r.number, r.date, r.description, r.key, now).Posted? {
        PostGuards(db, r.kind, r.row, r.period, r.number, r.date, r.description, r.key, now, h.event);
      }
    } else if r.ProcessNextEvent? {
      ProcessNextGuards(db, r.locked, r.user, now, h);
    } else if !r.RequeueEvent? {
      OthersAppendEvents(db, r, now);
    }
  }

  lemma ProcessNextGuards(db: Db, locked: set<nat>, user: nat, now: int, h: Holding)
    requires Guarded(db.events, h) && now - h.since <= LEASE_MS
    ensures ProcessNext(db, locked, user, now).Success? ==> Guarded(ProcessNext(db, locked, user, now).value.events, h)
  {
    var next := NextEvent(db.events, locked, now, 0);
    if next.Some? {
      var claimed := Claim(db, next.value, user, now);
      if ProcessEvent(claimed, next.value, now).Posted? { ProcessGuards(claimed, next.value, now, h.event); }
    }
  }

  lemma ClaimGuards(db: Db, worker: nat, locked: set<nat>, now: int, h: Holding)
    requires Guarded(db.events, h) && now - h.since <= LEASE_MS
    ensures Guarded(Apply(db, WorkerClaims(worker, locked), now).events, h) && NextEvent(db.events, locked, now, 0) != Some(h.event)
  {}

  lemma ClaimedGuarded(db: Db, worker: nat, locked: set<nat>, now: int)
    ensures var next := NextEvent(db.events, locked, now, 0);
      next.Some? ==> Guarded(Apply(db, WorkerClaims(worker, locked), now).events, Holding(next.value, now))
  {}

  lemma ReportGuards(db: Db, event: nat, now: int, h: Holding)
    requires Guarded(db.events, h) && h.event != event
    ensures Guarded(Apply(db, WorkerReportsFailure(event), now).events, h)
  {}

  lemma ProcessedGuards(db: Db, event: nat, now: int, h: Holding)
    requires Guarded(db.events, h)
    ensures Guarded(Apply(db, WorkerProcesses(event), now).events, h)
  {
    hide ProcessEvent;
    if ProcessEvent(db, event, now).Posted? { ProcessGuards(db, event, now, h.event); }
  }

  lemma MoveKeepsApart(s: System, m: Move, now: int)
    requires Apart(s) && Prompt(s, now) && Possible(s, m)
    ensures Apart(Act(s, m, now))
  {
    var t := Act(s, m, now);
    forall w | w in t.holding ensures Guarded(t.db.events, t.holding[w])
    {
      if w in s.holding {
        assert Guarded(s.db.events, s.holding[w]);
        match m {
          case Other(r) => HeldIsSafe(s.db, r, now, s.holding[w]);
          case Process(v) => ProcessedGuards(s.db, s.holding[v].event, now, s.holding[w]);
          case Report(v) => ReportGuards(s.db, s.holding[v].event, now, s.holding[w]);
          case ClaimNext(v, locked) => ClaimGuards(s.db, v, locked, now, s.holding[w]);
          case Crash(v) =>
        }
      } else {
        ClaimedGuarded(s.db, m.worker, m.locked, now);
      }
    }
    forall w, v | w in t.holding && v in t.holding && w != v ensures t.holding[w].event != t.holding[v].event {
      if w in s.holding && v !in s.holding { ClaimGuards(s.db, m.worker, m.locked, now, s.holding[w]); }
      if v in s.holding && w !in s.holding { ClaimGuards(s.db, m.worker, m.locked, now, s.holding[v]); }
    }
  }

  datatype TimedMove = TimedMove(move: Move, now: int)

  /** A run in which each worker finishes, fails or crashes within five minutes of its claim. */
  predicate PromptRun(s: System, moves: seq<TimedMove>)
    decreases moves
  {
    moves != [] ==> Possible(s, moves[0].move) && Prompt(s, moves[0].now) && PromptRun(Act(s, moves[0].move, moves[0].now), moves[1..])
  }

  function After(s: System, moves: seq<TimedMove>): System
    requires PromptRun(s, moves)
    decreases moves
  {
    if moves == [] then s else After(Act(s, moves[0].move, moves[0].now), moves[1..])
  }

  /** In every such run, no two workers ever hold the same event at once. */
  lemma {:induction false} LeasesExclude(s: System, moves: seq<TimedMove>)
    requires Apart(s) && PromptRun(s, moves)
    ensures Apart(After(s, moves))
    decreases moves
  {
    if moves != [] {
      MoveKeepsApart(s, moves[0].move, moves[0].now);
      LeasesExclude(Act(s, moves[0].move, moves[0].now), moves[1..]);
    }
  }
}
