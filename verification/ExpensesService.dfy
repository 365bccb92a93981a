/** Approving and adjusting expenses. */
module ExpensesService {
  import opened Wrappers
  import Ledgers = GeneralLedger
  import opened Backend
  import opened BackendInvariants
  import PostingProofs
  import opened Database

  class Expenses {
    const db: Tables

    constructor (db: Tables)
      ensures this.db == db
    {
      this.db := db;
    }

    method Approve(id: nat, now: int) returns (r: Result<nat>)
      requires db.Valid()
      modifies db
      ensures db.Valid() && Serves(old(db.State()), ApproveTheExpense(id), now, db.State(), r)
    {
      hide DbInv, Grows;
      PostingProofs.RequestKeeps(db.State(), ApproveTheExpense(id), now);
      if id >= |db.expenses| { return Failure(NotFound); }
      if db.expenses[id].status != Drafted { return Failure(Conflict); }
      db.expenses := db.expenses[id := db.expenses[id].(status := Approved)];
      db.EnqueueEvent(Ledgers.ExpenseApproved, id, now);
      assert db.State() == ApproveExpense(old(db.State()), id, now).value;
      return Success(id);
    }

    method Adjust(id: nat, adjustment: Adjustment, now: int) returns (r: Result<nat>)
      requires db.Valid()
      modifies db
      ensures db.Valid() && Serves(old(db.State()), AdjustTheExpense(id, adjustment), now, db.State(), r)
    {
      hide DbInv, Grows;
      PostingProofs.RequestKeeps(db.State(), AdjustTheExpense(id, adjustment), now);
      if id >= |db.expenses| { return Failure(NotFound); }
      if db.expenses[id].status == Drafted { return Failure(Conflict); }
      db.expenses := db.expenses[id := db.expenses[id].(adjustments := db.expenses[id].adjustments + [adjustment])];
      db.expenses := db.expenses[id := db.expenses[id].(status := Adjusted)];
      assert db.State() == AdjustExpense(old(db.State()), id, adjustment).value;
      return Success(id);
    }
  }
}
