/** A run after which the books and an expense disagree: the expense was adjusted after it was posted. */
module Drift {
  import opened Wrappers
  import opened Sums
  import opened Idempotency
  import Ledgers = GeneralLedger
  import opened Backend
  import opened BackendInvariants
  import PostingProofs
  import opened Runs
  import opened BookRuns
  import opened Retries

  /** An approved expense of 100 gets a policy, is posted by the worker, and is raised by 50. */
  const DRIFTED: seq<Step> := PREPARED + [Step(SetPolicy(Ledgers.ExpenseApproved, 0, 1), 1)]
    + [Step(WorkerProcesses(0), 2)] + [Step(AdjustTheExpense(0, Increase(50)), 3)]

  const PAYABLE: Db := UNPOSTED.(ledger := UNPOSTED.ledger.(policies := map[Ledgers.ExpenseApproved := Ledgers.Policy(0, 1)]))

  lemma AfterPolicy()
    ensures Run(EMPTY, PREPARED + [Step(SetPolicy(Ledgers.ExpenseApproved, 0, 1), 1)]) == PAYABLE
  {
    AfterPreparation();
    RunOneMore(EMPTY, PREPARED, SetPolicy(Ledgers.ExpenseApproved, 0, 1), 1);
  }

  lemma PayableReady()
    ensures Ready(PAYABLE, 0) && Resolve(PAYABLE, Ledgers.ExpenseApproved, 0) == Success(100)
  {
    assert Ledgers.OpenPeriodFor(PAYABLE.ledger.periods, 0, 1) == Some(0) by { assert Ledgers.OpenPeriodFor(PAYABLE.ledger.periods, 0, 0) == None; }
    assert Total(0, AdjustmentAt(PAYABLE.expenses[0].adjustments)) == 0;
  }

  function Begun(): Records<Payload> {
    map[(PostEvents, ForEvent(0)) := Record(EventPosted(Ledgers.ExpenseApproved, 0, 0, Ledgers.Auto(0), 0, "auto"), None, 2 + RETENTION_MS)]
  }

  function Posting(): Attempt { PostFresh(PAYABLE, Ledgers.ExpenseApproved, 0, 0, Ledgers.Auto(0), 0, ForEvent(0), Begun()) }

  lemma WorkerPosts()
    ensures ProcessEvent(PAYABLE, 0, 2) == Posting()
  {
    hide PostFresh;
    assert Ledgers.OpenPeriodFor(PAYABLE.ledger.periods, 0, 1) == Some(0) by { assert Ledgers.OpenPeriodFor(PAYABLE.ledger.periods, 0, 0) == None; }
    assert Begin(PAYABLE.records, PostEvents, ForEvent(0), EventPosted(Ledgers.ExpenseApproved, 0, 0, Ledgers.Auto(0), 0, "auto"), 2)
      == Success(Fresh(Begun()));
  }

  lemma PayableInv()
    ensures DbInv(PAYABLE)
  {
    hide DbInv, Run;
    AfterPolicy();
    Reached(PREPARED + [Step(SetPolicy(Ledgers.ExpenseApproved, 0, 1), 1)]);
  }

  lemma WorkerPosted()
    ensures ProcessEvent(PAYABLE, 0, 2).Posted?
  {
    hide ProcessEvent, Ready, DbInv;
    PayableReady();
    PayableInv();
    ReadyEventPostsExactly(PAYABLE, 0, 2);
  }

  lemma WorkerSucceeds()
    ensures Posting().Posted? && Apply(PAYABLE, WorkerProcesses(0), 2) == Posting().db
  {
    hide ProcessEvent, PostFresh;
    WorkerPosted();
    WorkerPosts();
  }

  /** The worker's posting, with its entry and its expense. */
  lemma AfterWorker()
    ensures var posted := Apply(PAYABLE, WorkerProcesses(0), 2);
      && |posted.ledger.entries| == 1 && posted.ledger.entries[0].lines == EventLines(Ledgers.Policy(0, 1), 100)
      && posted.expenses == [Expense(100, Approved, [])]
      && |posted.events| == 1 && posted.events[0].status == Done && posted.events[0].entry == Some(0)
  {
    hide Apply, PostFresh, Resolve;
    PayableReady();
    WorkerSucceeds();
    PostingProofs.FreshPostingIs(PAYABLE, Ledgers.ExpenseApproved, 0, 0, Ledgers.Auto(0), 0, ForEvent(0), Begun());
  }

  /** The event counts as posted and its entry carries 100, while 150 is due. */
  lemma ExpenseDrifted()
    ensures var f := Run(EMPTY, DRIFTED);
      && |f.events| == 1 && f.events[0].status == Done && f.events[0].entry == Some(0)
      && |f.ledger.entries| == 1 && Ledgers.Debits(f.ledger.entries[0].lines) == 100 * 100
      && |f.expenses| == 1 && AmountDue(f.expenses[0]) == 150
  {
    var policy := PREPARED + [Step(SetPolicy(Ledgers.ExpenseApproved, 0, 1), 1)];
    AfterPolicy();
    AfterWorker();
    RunOneMore(EMPTY, policy, WorkerProcesses(0), 2);
    RunOneMore(EMPTY, policy + [Step(WorkerProcesses(0), 2)], AdjustTheExpense(0, Increase(50)), 3);
    CarriedTotals(EventLines(Ledgers.Policy(0, 1), 100), 100);
    Raised(Apply(PAYABLE, WorkerProcesses(0), 2));
  }

  lemma Raised(db: Db)
    requires db.expenses == [Expense(100, Approved, [])]
    ensures Apply(db, AdjustTheExpense(0, Increase(50)), 3) == db.(expenses := [Expense(100, Adjusted, [Increase(50)])])
    ensures AmountDue(Expense(100, Adjusted, [Increase(50)])) == 150
  {
    assert [] + [Increase(50)] == [Increase(50)];
    assert db.expenses[0 := Expense(100, Adjusted, [Increase(50)])] == [Expense(100, Adjusted, [Increase(50)])];
    var a := AdjustmentAt([Increase(50)]);
    assert Total(1, a) == Total(0, a) + a(0);
  }
}
