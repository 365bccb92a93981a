/** The processing of accounting events as work in transactions: by a user within one request, and by the
    worker in transactions of its own. */
module EventTransactions {
  import opened Wrappers
  import opened TenantContext
  import Backend
  import AccountingEventWorker

  type Db = Backend.Db

  const ORGANIZATION := "organization"

  function Claimed(db: Db, id: nat, worker: nat, now: int): Reply<Db> {
    if id < |db.events| then Wrote(Backend.Claim(db, id, worker, now)) else Raised(db)
  }

  /** Posting one event: an error of the application leaves the idempotency record behind. */
  function Processed(db: Db, id: nat, now: int): Reply<Db> {
    match Backend.ProcessEvent(db, id, now)
    case Posted(after, _) => Wrote(after)
    case Stopped(error, records) => if error == Constraint then Violated else Raised(db.(records := records))
  }

  function Claiming(id: nat, worker: nat, now: int): Work<Db> { Step((db: Db) => Claimed(db, id, worker, now)) }
  function Processing(id: nat, now: int): Work<Db> { Step((db: Db) => Processed(db, id, now)) }
  function Failing(id: nat, now: int): Work<Db> { Step((db: Db) => Wrote(Backend.MarkFailed(db, id, now))) }
  function Nothing(): Work<Db> { Step((db: Db) => Wrote(db)) }

  /** A user's request: the claim, the posting and the failure mark are nested in one transaction. */
  function UsersRequest(next: Option<nat>, user: nat, now: int): Work<Db> {
    Tenant(ORGANIZATION,
           if next.None? then Nothing()
           else Then(Transaction(Claiming(next.value, user, now)),
                     Caught(Transaction(Processing(next.value, now)), Failing(next.value, now))))
  }

  /** A round of the worker: each of its steps is a transaction of its own. */
  function WorkersRound(next: Option<nat>, worker: nat, claimedAt: int, processedAt: int, failedAt: int): Work<Db> {
    if next.None? then Tenant(ORGANIZATION, Nothing())
    else Then(Tenant(ORGANIZATION, Claiming(next.value, worker, claimedAt)),
              Caught(Tenant(ORGANIZATION, Processing(next.value, processedAt)), Tenant(ORGANIZATION, Failing(next.value, failedAt))))
  }

  function Ended(db: Db, reply: Reply<Db>): Outcome<Db> {
    match reply
    case Wrote(state) => Outcome(Tx(state, false), true)
    case Raised(state) => Outcome(Tx(state, false), false)
    case Violated => Outcome(Tx(db, true), false)
  }

  /** The same with the failure mark as handler. */
  function Handled(db: Db, reply: Reply<Db>, id: nat, now: int): Outcome<Db> {
    match reply
    case Raised(state) => Outcome(Tx(Backend.MarkFailed(state, id, now), false), true)
    case _ => Ended(db, reply)
  }

  lemma ProcessingPerformed(db: Db, id: nat, now: int)
    ensures Perform(Processing(id, now), Tx(db, false), Some(ORGANIZATION)) == Ended(db, Processed(db, id, now))
    ensures Perform(Transaction(Processing(id, now)), Tx(db, false), Some(ORGANIZATION)) == Ended(db, Processed(db, id, now))
  {
    hide Processed;
    assert Perform(Transaction(Processing(id, now)), Tx(db, false), Some(ORGANIZATION))
      == Perform(Processing(id, now), Tx(db, false), Some(ORGANIZATION));
  }

  /** What the specification says of a user's request is what its nested transactions do. */
  lemma UsersRequestIs(db: Db, locked: set<nat>, user: nat, now: int)
    ensures var r := Perform(UsersRequest(Backend.NextEvent(db.events, locked, now, 0), user, now), Tx(db, false), None);
      match Backend.ProcessNext(db, locked, user, now)
      case Success(after) => r == Outcome(Tx(after, false), true)
      case Failure(_) => r == Outcome(Tx(db, false), false)
  {
    hide Backend.ProcessEvent, Backend.MarkFailed;
    var next := Backend.NextEvent(db.events, locked, now, 0);
    if next.Some? {
      var claimed := Backend.Claim(db, next.value, user, now);
      assert Perform(Transaction(Claiming(next.value, user, now)), Tx(db, false), Some(ORGANIZATION))
        == Perform(Claiming(next.value, user, now), Tx(db, false), Some(ORGANIZATION)) == Outcome(Tx(claimed, false), true);
      ProcessingPerformed(claimed, next.value, now);
      CaughtFailure(claimed, next.value, now);
    } else {
      assert Perform(Nothing(), Tx(db, false), Some(ORGANIZATION)) == Outcome(Tx(db, false), true);
    }
  }

  lemma CaughtFailure(db: Db, id: nat, now: int)
    ensures Perform(Caught(Transaction(Processing(id, now)), Failing(id, now)), Tx(db, false), Some(ORGANIZATION))
      == Handled(db, Processed(db, id, now), id, now)
  {
    hide Processed, Backend.MarkFailed;
    ProcessingPerformed(db, id, now);
  }

  lemma ClaimApplied(db: Db, locked: set<nat>, worker: nat, now: int)
    ensures var next := Backend.NextEvent(db.events, locked, now, 0);
      Backend.Apply(db, Backend.WorkerClaims(worker, locked), now) == if next.None? then db else Backend.Claim(db, next.value, worker, now)
  {
    hide Backend.NextEvent;
  }

  lemma AttemptApplied(db: Db, id: nat, processedAt: int, failedAt: int)
    ensures Backend.ProcessEvent(db, id, processedAt).Posted? ==>
      Backend.Apply(db, Backend.WorkerProcesses(id), processedAt) == Backend.ProcessEvent(db, id, processedAt).db
    ensures Backend.Apply(db, Backend.WorkerReportsFailure(id), failedAt) == Backend.MarkFailed(db, id, failedAt)
  {
    hide Backend.ProcessEvent, Backend.MarkFailed;
  }

  lemma RoundIs(db: Db, locked: set<nat>, worker: nat, claimedAt: int, processedAt: int, failedAt: int)
    ensures var next := Backend.NextEvent(db.events, locked, claimedAt, 0);
      AccountingEventWorker.Round(db, worker, locked, claimedAt, processedAt, failedAt)
        == if next.None? then db
           else
             var claimed := Backend.Claim(db, next.value, worker, claimedAt);
             var reply := Processed(claimed, next.value, processedAt);
             if reply.Wrote? then reply.state else Backend.MarkFailed(claimed, next.value, failedAt)
  {
    hide Backend.ProcessEvent, Backend.MarkFailed, Backend.Apply, Backend.NextEvent, Backend.Claim;
    ClaimApplied(db, locked, worker, claimedAt);
    var next := Backend.NextEvent(db.events, locked, claimedAt, 0);
    if next.Some? { AttemptApplied(Backend.Claim(db, next.value, worker, claimedAt), next.value, processedAt, failedAt); }
  }

  /** The worker's three transactions do what the specification says of its round: a failed posting is
      undone, its idempotency record included, before the failure is recorded. */
  lemma WorkersRoundIs(db: Db, locked: set<nat>, worker: nat, claimedAt: int, processedAt: int, failedAt: int)
    ensures Perform(WorkersRound(Backend.NextEvent(db.events, locked, claimedAt, 0), worker, claimedAt, processedAt, failedAt), Tx(db, false), None)
      == Outcome(Tx(AccountingEventWorker.Round(db, worker, locked, claimedAt, processedAt, failedAt), false), true)
  {
    hide Processed, Backend.MarkFailed, AccountingEventWorker.Round;
    var next := Backend.NextEvent(db.events, locked, claimedAt, 0);
    RoundIs(db, locked, worker, claimedAt, processedAt, failedAt);
    assert Perform(Nothing(), Tx(db, false), Some(ORGANIZATION)) == Outcome(Tx(db, false), true);
    if next.Some? {
      var claimed := Backend.Claim(db, next.value, worker, claimedAt);
      assert Perform(Claiming(next.value, worker, claimedAt), Tx(db, false), Some(ORGANIZATION)) == Outcome(Tx(claimed, false), true);
      assert Perform(Tenant(ORGANIZATION, Claiming(next.value, worker, claimedAt)), Tx(db, false), None) == Outcome(Tx(claimed, false), true);
      WorkersAttempt(claimed, next.value, processedAt, failedAt);
    }
  }

  lemma WorkersAttempt(db: Db, id: nat, processedAt: int, failedAt: int)
    ensures Perform(Caught(Tenant(ORGANIZATION, Processing(id, processedAt)), Tenant(ORGANIZATION, Failing(id, failedAt))), Tx(db, false), None)
      == Outcome(Tx(if Processed(db, id, processedAt).Wrote? then Processed(db, id, processedAt).state
                    else Backend.MarkFailed(db, id, failedAt), false), true)
  {
    hide Processed, Backend.MarkFailed;
    ProcessingPerformed(db, id, processedAt);
    assert Perform(Failing(id, failedAt), Tx(db, false), Some(ORGANIZATION)) == Outcome(Tx(Backend.MarkFailed(db, id, failedAt), false), true);
  }
}
