/** The background worker that posts accounting events. */
module AccountingEventWorker {
  import PostingProofs
  import opened Backend
  import opened BackendInvariants
  import opened AccountingService

  lemma ClaimedByWorker(db: Db, worker: nat, locked: set<nat>, now: int)
    requires DbInv(db)
    ensures var next := NextEvent(db.events, locked, now, 0);
      var e := if next.Some? then Claim(db, next.value, worker, now) else db;
      DbInv(e) && Apply(db, WorkerClaims(worker, locked), now) == e
  {
    hide DbInv, Grows;
    PostingProofs.RequestKeeps(db, WorkerClaims(worker, locked), now);
  }

  lemma ProcessedByWorker(db: Db, id: nat, now: int, failedAt: int)
    requires DbInv(db)
    ensures match Backend.ProcessEvent(db, id, now)
      case Posted(e, _) => DbInv(e) && Apply(db, WorkerProcesses(id), now) == e
      case Stopped(_, _) => DbInv(MarkFailed(db, id, failedAt)) && Apply(db, WorkerReportsFailure(id), failedAt) == MarkFailed(db, id, failedAt)
  {
    hide DbInv, Grows, Backend.ProcessEvent, MarkFailed;
    PostingProofs.RequestKeeps(db, WorkerProcesses(id), now);
    PostingProofs.RequestKeeps(db, WorkerReportsFailure(id), failedAt);
  }

  /** The background worker. Each of its steps is a transaction of its own. */
  class Worker {
    const accounting: Accounting
    const id: nat
    var running: bool

    constructor (accounting: Accounting, id: nat)
      ensures this.accounting == accounting && this.id == id && !running
    {
      this.accounting, this.id, running := accounting, id, false;
    }

    /** What one round does when it is not overtaken by another: claim, process, and report failure. */
    method RunOnce(locked: set<nat>, claimedAt: int, processedAt: int, failedAt: int) returns (worked: bool)
      requires accounting.db.Valid()
      modifies this`running, accounting.db
      ensures accounting.db.Valid() && running == old(running)
      ensures old(running) ==> !worked && accounting.db.State() == old(accounting.db.State())
      ensures !old(running) ==> worked == NextEvent(old(accounting.db.events), locked, claimedAt, 0).Some?
      ensures !old(running) ==> accounting.db.State() == Round(old(accounting.db.State()), id, locked, claimedAt, processedAt, failedAt)
    {
      hide DbInv, Backend.ProcessEvent, NextEvent, Apply, FirstInLine;
      var db := accounting.db;
      if running { return false; }
      running := true;
      ghost var before := db.State();
      var claimed := accounting.ClaimNext(id, locked, claimedAt);
      ClaimedByWorker(before, id, locked, claimedAt);
      if claimed.Some? {
        var saved := db.State();
        var processed := accounting.ProcessEvent(claimed.value, processedAt);
        ProcessedByWorker(saved, claimed.value, processedAt, failedAt);
        if processed.Failure? {
          db.Rollback(saved);
          accounting.MarkEventFailed(claimed.value, failedAt);
        }
      }
      worked := claimed.Some?;
      running := false;
    }
  }

  /** A round of the worker as three requests. */
  function Round(db: Db, worker: nat, locked: set<nat>, claimedAt: int, processedAt: int, failedAt: int): Db {
    var next, claimed := NextEvent(db.events, locked, claimedAt, 0), Apply(db, WorkerClaims(worker, locked), claimedAt);
    if next.None? then claimed
    else if Backend.ProcessEvent(claimed, next.value, processedAt).Posted? then Apply(claimed, WorkerProcesses(next.value), processedAt)
    else Apply(claimed, WorkerReportsFailure(next.value), failedAt)
  }
}
