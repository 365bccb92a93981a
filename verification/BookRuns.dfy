/** What holds of journal entries, fiscal periods, settlements and accounting events over any run. */
module BookRuns {
  import opened Wrappers
  import opened Sums
  import opened Idempotency
  import AP = SettlementProofs
  import DI = DeskInvariants
  import Agencies = Settlements
  import Ledgers = GeneralLedger
  import LP = LedgerProofs
  import PostingProofs
  import opened Backend
  import opened BackendInvariants
  import opened Runs

  // ---------------------------------------------------------------- closed periods

  /** Closed periods stay closed, and new entries go into periods that were open. */
  predicate RespectsPeriods(l: Ledgers.Ledger, m: Ledgers.Ledger) {
    && |l.periods| <= |m.periods| && |l.entries| <= |m.entries|
    && (forall p :: 0 <= p < |l.periods| && l.periods[p].closed ==> m.periods[p].closed)
    && (forall e :: |l.entries| <= e < |m.entries| ==> m.entries[e].period < |l.periods| && !l.periods[m.entries[e].period].closed)
  }

  lemma PostRespectsPeriods(db: Db, kind: EventKind, row: nat, period: nat, number: Ledgers.EntryNumber, date: int, description: string, key: Key, now: int)
    requires Post(db, kind, row, period, number, date, description, key, now).Posted?
    ensures RespectsPeriods(db.ledger, Post(db, kind, row, period, number, date, description, key, now).db.ledger)
  {
    var begun := Begin(db.records, PostEvents, key, EventPosted(kind, row, period, number, date, description), now);
    if begun.value.Fresh? { PostingProofs.FreshPostingIs(db, kind, row, period, number, date, key, begun.value.records); }
  }

  lemma ProcessRespectsPeriods(db: Db, id: nat, now: int)
    requires ProcessEvent(db, id, now).Posted?
    ensures RespectsPeriods(db.ledger, ProcessEvent(db, id, now).db.ledger)
  {
    var event := db.events[id];
    if !(event.status == Done && event.entry.Some?) {
      var period := Ledgers.OpenPeriodFor(db.ledger.periods, DayOf(event.createdAt), |db.ledger.periods|).value;
      PostRespectsPeriods(db, event.kind, event.row, period, Ledgers.Auto(id), DayOf(event.createdAt), "auto", ForEvent(id), now);
    }
  }

  lemma PostingRespectsPeriods(db: Db, r: Request, now: int)
    requires r.PostByHand? || r.WorkerProcesses? || r.ProcessNextEvent?
    ensures RespectsPeriods(db.ledger, Apply(db, r, now).ledger)
  {
    hide Post, ProcessEvent, ProcessNext;
    if r.PostByHand? {
      if Post(db, r.kind, r.row, r.period, r.number, r.date, r.description, r.key, now).Posted? {
        PostRespectsPeriods(db, r.kind, r.row, r.period, r.number, r.date, r.description, r.key, now);
      }
    } else if r.WorkerProcesses? {
      if ProcessEvent(db, r.event, now).Posted? { ProcessRespectsPeriods(db, r.event, now); }
    } else {
      ProcessNextRespectsPeriods(db, r.locked, r.user, now);
    }
  }

  lemma RequestRespectsPeriods(db: Db, r: Request, now: int)
    ensures RespectsPeriods(db.ledger, Apply(db, r, now).ledger)
  {
    hide Handle, RespectsPeriods;
    if r.PostByHand? || r.WorkerProcesses? || r.ProcessNextEvent? {
      PostingRespectsPeriods(db, r, now);
    } else if WellFormed(r) {
      QuietLedger(db, r, now);
    } else {
      NothingRespectsPeriods(db.ledger);
    }
  }

  lemma NothingRespectsPeriods(l: Ledgers.Ledger)
    ensures RespectsPeriods(l, l)
  {}

  lemma ProcessNextRespectsPeriods(db: Db, locked: set<nat>, user: nat, now: int)
    ensures ProcessNext(db, locked, user, now).Success? ==> RespectsPeriods(db.ledger, ProcessNext(db, locked, user, now).value.ledger)
  {
    var next := NextEvent(db.events, locked, now, 0);
    if next.Some? {
      var claimed := Claim(db, next.value, user, now);
      if ProcessEvent(claimed, next.value, now).Posted? { ProcessRespectsPeriods(claimed, next.value, now); }
    }
  }

  lemma QuietLedger(db: Db, r: Request, now: int)
    requires !r.PostByHand? && !r.WorkerProcesses? && !r.ProcessNextEvent? && WellFormed(r)
    ensures RespectsPeriods(db.ledger, Apply(db, r, now).ledger)
  {
    if r.DraftEntry? || r.PostDraft? || r.UndoEntry? {
      EntryRequestRespects(db, r, now);
    } else if r.CloseFiscalPeriod? || r.AddFiscalPeriod? || r.SetPolicy? || r.AddAccount? {
      LedgerSetupRespects(db, r, now);
    } else {
      OthersKeepLedger(db, r, now);
    }
  }

  lemma EntryRequestRespects(db: Db, r: Request, now: int)
    requires r.DraftEntry? || r.PostDraft? || r.UndoEntry?
    ensures RespectsPeriods(db.ledger, Apply(db, r, now).ledger)
  {}

  lemma LedgerSetupRespects(db: Db, r: Request, now: int)
    requires r.CloseFiscalPeriod? || r.AddFiscalPeriod? || r.SetPolicy? || r.AddAccount?
    ensures RespectsPeriods(db.ledger, Apply(db, r, now).ledger)
  {}

  lemma OthersKeepLedger(db: Db, r: Request, now: int)
    requires !PostingProofs.LedgerRequest(r) && !r.UndoEntry? && !r.PostByHand? && !r.WorkerProcesses? && !r.ProcessNextEvent?
    ensures Apply(db, r, now).ledger == db.ledger
  {}

  /** Once a period is closed it never gains an entry and never holds a draft, although posting
      never looks at the period. */
  lemma {:induction false} ClosedPeriodFrozen(db: Db, steps: seq<Step>, p: nat)
    requires DbInv(db) && p < |db.ledger.periods| && db.ledger.periods[p].closed
    ensures var l := Run(db, steps).ledger;
      && p < |l.periods| && l.periods[p].closed && |db.ledger.entries| <= |l.entries|
      && (forall e :: |db.ledger.entries| <= e < |l.entries| ==> l.entries[e].period != p)
      && (forall e :: 0 <= e < |l.entries| && l.entries[e].period == p ==> l.entries[e].status != Ledgers.Draft)
  {
    RunKeeps(db, steps);
    var l := Run(db, steps).ledger;
    if steps != [] {
      var before, last := steps[..|steps| - 1], steps[|steps| - 1];
      ClosedPeriodFrozen(db, before, p);
      RequestRespectsPeriods(Run(db, before), last.request, last.now);
      RunKeeps(db, before);
      PostingProofs.RequestKeeps(Run(db, before), last.request, last.now);
      forall e | |db.ledger.entries| <= e < |l.entries| ensures l.entries[e].period != p {
        if e < |Run(db, before).ledger.entries| { assert EntryGrows(Run(db, before).ledger.entries[e], l.entries[e]); }
      }
    }
    forall e | 0 <= e < |l.entries| && l.entries[e].period == p ensures l.entries[e].status != Ledgers.Draft {
      assert Ledgers.EntryOk(l, l.entries[e]);
    }
  }

  // ---------------------------------------------------------------- balanced books

  /** In every reachable ledger each entry balances and is dated inside its period, the report balances
      over all accounts, every draft can be posted, and all that was booked nets to what is in force. */
  lemma {:induction false} BooksBalance(steps: seq<Step>, e: nat, account: nat)
    requires e < |Run(EMPTY, steps).ledger.entries|
    ensures var l := Run(EMPTY, steps).ledger;
      && Ledgers.Balanced(l.entries[e].lines) && (forall i :: 0 <= i < |l.entries[e].lines| ==> Ledgers.OneSided(l.entries[e].lines[i]))
      && l.entries[e].period < |l.periods| && Ledgers.WithinPeriod(l.periods[l.entries[e].period], l.entries[e].date)
      && Total(l.accounts, Ledgers.ReportDebit(l.entries)) == Total(l.accounts, Ledgers.ReportCredit(l.entries))
      && (l.entries[e].status == Ledgers.Draft ==> Ledgers.PostEntry(l, e).Success?)
      && Total(|l.entries|, Ledgers.BookedAt(l.entries, account)) == Total(|l.entries|, Ledgers.InForceAt(l.entries, account))
  {
    Reached(steps);
    var l := Run(EMPTY, steps).ledger;
    assert Ledgers.EntryOk(l, l.entries[e]);
    LP.ReportBalances(l);
    if l.entries[e].status == Ledgers.Draft { LP.DraftsCanBePosted(l, e); }
  }

  /** In every reachable ledger a chain of reversals adds nothing to any account when it has an
      even number of entries, and exactly its first entry when it has an odd number. */
  lemma {:induction false} ChainsCancel(steps: seq<Step>, ids: seq<nat>, account: nat)
    requires LP.Chain(Run(EMPTY, steps).ledger.entries, ids)
    ensures var entries := Run(EMPTY, steps).ledger.entries;
      Total(|ids|, LP.ChainAt(entries, ids, account)) == if Ledgers.Even(|ids|) then 0 else Ledgers.Net(entries[ids[0]], account)
  {
    Reached(steps);
    LP.ChainNet(Run(EMPTY, steps).ledger.entries, ids, account, |ids|);
  }

  /** In every reachable ledger an entry is REVERSED exactly when some entry reverses it, at most one
      does, and that one is later, not a draft, and carries its lines with sides exchanged. */
  lemma {:induction false} ReversedExactly(steps: seq<Step>, id: nat)
    requires id < |Run(EMPTY, steps).ledger.entries|
    ensures var entries := Run(EMPTY, steps).ledger.entries;
      && (entries[id].status == Ledgers.Reversed <==> Ledgers.HasReversal(entries, id))
      && (forall r :: 0 <= r < |entries| && entries[r].reversalOf == Some(id) ==>
            id < r && entries[r].status != Ledgers.Draft && entries[r].lines == Ledgers.Swapped(entries[id].lines))
      && (forall r, q :: 0 <= r < q < |entries| && entries[r].reversalOf == Some(id) ==> entries[q].reversalOf != Some(id))
  {
    Reached(steps);
  }

  // ---------------------------------------------------------------- one entry per source

  /** Each event type and source has at most one entry; an event that has an entry keeps that entry
      through every later run, and the entry never changes but for being reversed. */
  lemma {:induction false} OneEntryForGood(db: Db, steps: seq<Step>, id: nat)
    requires DbInv(db) && id < |db.events| && db.events[id].entry.Some?
    ensures var e, entry := Run(db, steps), db.events[id].entry.value;
      && id < |e.events| && e.events[id].entry == db.events[id].entry
      && entry < |db.ledger.entries| && entry < |e.ledger.entries|
      && e.ledger.entries[entry].(status := db.ledger.entries[entry].status) == db.ledger.entries[entry]
      && e.ledger.entries[entry].source == Ledgers.Business(e.events[id].kind, e.events[id].row)
      && (forall i :: 0 <= i < |e.ledger.entries| && i != entry ==> e.ledger.entries[i].source != e.ledger.entries[entry].source)
  {
    RunKeeps(db, steps);
    var e, entry := Run(db, steps), db.events[id].entry.value;
    assert EventOk(db, db.events[id]);
    assert EventGrows(db.events[id], e.events[id]);
    assert EventOk(e, e.events[id]);
    assert EntryGrows(db.ledger.entries[entry], e.ledger.entries[entry]);
    forall i | 0 <= i < |e.ledger.entries| && i != entry ensures e.ledger.entries[i].source != e.ledger.entries[entry].source {
      if i < entry { assert e.ledger.entries[i].source != e.ledger.entries[entry].source; }
    }
  }

  /** From the passenger's fare to the general ledger: the entry that the payment of a booking is
      posted under debits and credits the sum of the booking's ticket fares. */
  lemma {:induction false} FaresReachTheBooks(steps: seq<Step>, id: nat)
    requires id < |Run(EMPTY, steps).events| && Run(EMPTY, steps).events[id].entry.Some?
    requires Run(EMPTY, steps).events[id].kind == Ledgers.PaymentReceived
    ensures var db := Run(EMPTY, steps);
      var booking, entry := db.events[id].row, db.events[id].entry.value;
      && booking < |db.desk.bookings| && entry < |db.ledger.entries|
      && Ledgers.Debits(db.ledger.entries[entry].lines) == 100 * Total(|db.desk.tickets|, DI.FareAt(db.desk.tickets, booking))
      && Ledgers.Credits(db.ledger.entries[entry].lines) == 100 * Total(|db.desk.tickets|, DI.FareAt(db.desk.tickets, booking))
  {
    Reached(steps);
    var db := Run(EMPTY, steps);
    assert EventOk(db, db.events[id]);
    CarriedTotals(db.ledger.entries[db.events[id].entry.value].lines, db.desk.payments[db.events[id].row].amount);
  }

  lemma CarriedTotals(lines: seq<Ledgers.Line>, amount: int)
    requires CarriesAmount(lines, amount)
    ensures Ledgers.Debits(lines) == amount * 100 == Ledgers.Credits(lines)
  {
    var d, c := Ledgers.DebitAt(lines), Ledgers.CreditAt(lines);
    assert Total(2, d) == Total(1, d) + d(1) && Total(1, d) == Total(0, d) + d(0);
    assert Total(2, c) == Total(1, c) + c(1) && Total(1, c) == Total(0, c) + c(0);
  }

  /** The outbox holds exactly one event for each payment, refund, approved expense and final
      settlement, and no other. */
  lemma {:induction false} OutboxComplete(steps: seq<Step>, kind: EventKind, row: nat)
    ensures var db := Run(EMPTY, steps);
      && (Owed(db, kind, row) <==> HasEvent(db.events, kind, row))
      && (forall e, f :: 0 <= e < f < |db.events| ==> !(db.events[e].kind == db.events[f].kind && db.events[e].row == db.events[f].row))
  {
    Reached(steps);
  }

  /** After an expense was posted, its entry differs from the expense by exactly the adjustments
      made since: adjustments never reach the books. */
  lemma {:induction false} ExpenseDrift(x: Expense, y: Expense)
    requires x.adjustments <= y.adjustments && y.amount == x.amount
    ensures y.amount + Total(|y.adjustments|, AdjustmentAt(y.adjustments))
      == x.amount + Total(|x.adjustments|, AdjustmentAt(x.adjustments))
         + Total(|y.adjustments| - |x.adjustments|, AdjustmentAt(y.adjustments[|x.adjustments|..]))
  {
    TotalCong(|x.adjustments|, AdjustmentAt(x.adjustments), AdjustmentAt(y.adjustments));
    TotalSplit(|x.adjustments|, |y.adjustments| - |x.adjustments|, AdjustmentAt(y.adjustments), AdjustmentAt(y.adjustments[|x.adjustments|..]));
  }

  /** A freshly posted expense: the entry carries the amount due. */
  lemma PostedExpenseEntry(db: Db, row: nat, period: nat, number: Ledgers.EntryNumber, date: int, key: Key, records: Records<Payload>)
    requires PostFresh(db, Ledgers.ExpenseApproved, row, period, number, date, key, records).Posted?
    ensures var p := PostFresh(db, Ledgers.ExpenseApproved, row, period, number, date, key, records);
      && p.entry < |p.db.ledger.entries| && p.db.expenses == db.expenses
      && row < |db.expenses| && db.expenses[row].status != Drafted
      && Ledgers.Debits(p.db.ledger.entries[p.entry].lines) == 100 * AmountDue(db.expenses[row])
  {
    var p := PostFresh(db, Ledgers.ExpenseApproved, row, period, number, date, key, records);
    PostingProofs.FreshPostingIs(db, Ledgers.ExpenseApproved, row, period, number, date, key, records);
    CarriedTotals(p.db.ledger.entries[p.entry].lines, Resolve(db, Ledgers.ExpenseApproved, row).value);
  }

  /** What an expense comes to with its adjustments. */
  function AmountDue(x: Expense): int { x.amount + Total(|x.adjustments|, AdjustmentAt(x.adjustments)) }

  lemma {:induction false} EntryAndExpenseLater(db: Db, steps: seq<Step>, entry: nat, row: nat)
    requires DbInv(db) && entry < |db.ledger.entries| && row < |db.expenses| && db.expenses[row].status != Drafted
    ensures var f := Run(db, steps);
      && entry < |f.ledger.entries| && f.ledger.entries[entry].lines == db.ledger.entries[entry].lines
      && row < |f.expenses| && f.expenses[row].status != Drafted
      && db.expenses[row].adjustments <= f.expenses[row].adjustments && f.expenses[row].amount == db.expenses[row].amount
  {
    hide DbInv;
    RunKeeps(db, steps);
    assert EntryGrows(db.ledger.entries[entry], Run(db, steps).ledger.entries[entry]);
  }

  predicate DriftedBy(f: Db, row: nat, entry: nat, since: seq<Adjustment>) {
    && entry < |f.ledger.entries| && row < |f.expenses| && since <= f.expenses[row].adjustments
    && Resolve(f, Ledgers.ExpenseApproved, row) == Success(AmountDue(f.expenses[row]))
    && 100 * AmountDue(f.expenses[row]) - Ledgers.Debits(f.ledger.entries[entry].lines)
       == 100 * Total(|f.expenses[row].adjustments| - |since|, AdjustmentAt(f.expenses[row].adjustments[|since|..]))
  }

  lemma {:induction false} ExpenseDrifts(db: Db, steps: seq<Step>, entry: nat, row: nat)
    requires DbInv(db) && entry < |db.ledger.entries| && row < |db.expenses| && db.expenses[row].status != Drafted
    requires Ledgers.Debits(db.ledger.entries[entry].lines) == 100 * AmountDue(db.expenses[row])
    ensures DriftedBy(Run(db, steps), row, entry, db.expenses[row].adjustments)
  {
    hide DbInv, Run;
    EntryAndExpenseLater(db, steps, entry, row);
    ExpenseDrift(db.expenses[row], Run(db, steps).expenses[row]);
  }

  /** A posted expense: the entry carries the amount at posting, and in any later state the amount
      now due differs from the entry by the adjustments made in between. */
  lemma {:induction false} PostedExpenseDrifts(db: Db, row: nat, period: nat, number: Ledgers.EntryNumber, date: int, key: Key,
                                               records: Records<Payload>, steps: seq<Step>)
    requires PostFresh(db, Ledgers.ExpenseApproved, row, period, number, date, key, records).Posted?
    requires DbInv(PostFresh(db, Ledgers.ExpenseApproved, row, period, number, date, key, records).db)
    ensures var p := PostFresh(db, Ledgers.ExpenseApproved, row, period, number, date, key, records);
      row < |db.expenses| && DriftedBy(Run(p.db, steps), row, p.entry, db.expenses[row].adjustments)
  {
    hide DbInv, PostFresh, DriftedBy, Run;
    var p := PostFresh(db, Ledgers.ExpenseApproved, row, period, number, date, key, records);
    PostedExpenseEntry(db, row, period, number, date, key, records);
    ExpenseDrifts(p.db, steps, p.entry, row);
  }

  /** In any later state the entry of a posted expense carries the amount now due if and only if the
      adjustments made since it was posted add up to nothing. */
  lemma {:induction false} PostedExpenseExactly(db: Db, row: nat, period: nat, number: Ledgers.EntryNumber, date: int, key: Key,
                                                records: Records<Payload>, steps: seq<Step>)
    requires PostFresh(db, Ledgers.ExpenseApproved, row, period, number, date, key, records).Posted?
    requires DbInv(PostFresh(db, Ledgers.ExpenseApproved, row, period, number, date, key, records).db)
    ensures var p := PostFresh(db, Ledgers.ExpenseApproved, row, period, number, date, key, records);
      var f := Run(p.db, steps);
      && row < |db.expenses| && row < |f.expenses| && p.entry < |f.ledger.entries|
      && db.expenses[row].adjustments <= f.expenses[row].adjustments
      && (Ledgers.Debits(f.ledger.entries[p.entry].lines) == 100 * AmountDue(f.expenses[row])
          <==> Total(|f.expenses[row].adjustments| - |db.expenses[row].adjustments|,
                     AdjustmentAt(f.expenses[row].adjustments[|db.expenses[row].adjustments|..])) == 0)
  {
    hide DbInv, PostFresh, Run, AmountDue;
    PostedExpenseDrifts(db, row, period, number, date, key, records, steps);
  }

  // ---------------------------------------------------------------- agents

  /** In every reachable state an agent's balance is what the agent earned and no final settlement
      has paid, less what final settlements paid for commissions reversed afterwards. */
  lemma {:induction false} BalanceExplained(steps: seq<Step>, agent: nat)
    ensures var ag := Run(EMPTY, steps).agency;
      Agencies.Balance(ag, agent) == Total(|ag.commissions|, Agencies.UnpaidAt(ag, agent)) - Total(|ag.commissions|, Agencies.OverpaidAt(ag, agent))
  {
    Reached(steps);
    AP.BalanceMeaning(Run(EMPTY, steps).agency, Run(EMPTY, steps).desk.tickets, agent);
  }

  /** Settlements of one agent never overlap, each is the sum of its lines, and a final one is
      never changed again. */
  lemma {:induction false} SettlementsSound(db: Db, steps: seq<Step>, s: nat, r: nat)
    requires DbInv(db) && s < |Run(db, steps).agency.settlements| && r < |Run(db, steps).agency.settlements|
    ensures var ag := Run(db, steps).agency;
      && Agencies.SettlementOk(ag, Run(db, steps).desk.tickets, s)
      && (s != r && ag.settlements[s].agent == ag.settlements[r].agent ==>
            ag.settlements[s].to < ag.settlements[r].from || ag.settlements[r].to < ag.settlements[s].from)
      && (s < |db.agency.settlements| && db.agency.settlements[s].settled ==> ag.settlements[s] == db.agency.settlements[s])
  {
    RunKeeps(db, steps);
    var a, b := if s < r then s else r, if s < r then r else s;
    assert s != r ==> a < b;
  }

  /** A commission is unreversed exactly while its booking is confirmed. */
  lemma {:induction false} CommissionsSound(steps: seq<Step>, c: nat)
    requires c < |Run(EMPTY, steps).agency.commissions|
    ensures CommissionFollows(Run(EMPTY, steps), Run(EMPTY, steps).agency.commissions[c])
  {
    Reached(steps);
  }

  // ---------------------------------------------------------------- a report that is wrong

  const SALE: seq<Ledgers.Line> := [Ledgers.Line(0, 100, 0), Ledgers.Line(1, 0, 100)]
  const DRAFT: Ledgers.Entry := Ledgers.Entry(0, Ledgers.Typed("1"), 5, Ledgers.Other("MANUAL", "1"), Ledgers.Draft, None, SALE)
  const ONE_PERIOD: Ledgers.Ledger := Ledgers.Ledger(2, [Ledgers.Period(1, 31, false)], map[], [])
  const UNDO: Request := UndoEntry(0, 0, Ledgers.Typed("2"), 6, "wrong", Client("12345678"))

  /** Two accounts and a period are set up; an entry of 100 is drafted, posted and reversed. */
  const REVERSED: seq<Step> := [] + [Step(AddAccount, 0)] + [Step(AddAccount, 0)] + [Step(AddFiscalPeriod(1, 31), 0)]
    + [Step(DraftEntry(0, Ledgers.Typed("1"), 5, Ledgers.Other("MANUAL", "1"), SALE), 0)] + [Step(PostDraft(0), 1)] + [Step(UNDO, 2)]

  lemma SaleSums()
    ensures Ledgers.Debits(SALE) == 100 == Ledgers.Credits(SALE) && Total(2, Ledgers.NetOn(SALE, 0)) == 100
  {
    TotalTwo(Ledgers.DebitAt(SALE));
    TotalTwo(Ledgers.CreditAt(SALE));
    TotalTwo(Ledgers.NetOn(SALE, 0));
  }

  lemma SetupSteps()
    ensures var one, two := EMPTY.(ledger := EMPTY.ledger.(accounts := 1)), EMPTY.(ledger := EMPTY.ledger.(accounts := 2));
      && Apply(EMPTY, AddAccount, 0) == one && Apply(one, AddAccount, 0) == two
      && Apply(two, AddFiscalPeriod(1, 31), 0) == EMPTY.(ledger := ONE_PERIOD)
  {}

  lemma AfterSetup()
    ensures Run(EMPTY, [] + [Step(AddAccount, 0)] + [Step(AddAccount, 0)] + [Step(AddFiscalPeriod(1, 31), 0)]) == EMPTY.(ledger := ONE_PERIOD)
  {
    SetupSteps();
    RunOneMore(EMPTY, [], AddAccount, 0);
    RunOneMore(EMPTY, [] + [Step(AddAccount, 0)], AddAccount, 0);
    RunOneMore(EMPTY, [] + [Step(AddAccount, 0)] + [Step(AddAccount, 0)], AddFiscalPeriod(1, 31), 0);
    assert Run(EMPTY, []) == EMPTY;
  }

  lemma AfterDrafting()
    ensures Apply(EMPTY.(ledger := ONE_PERIOD), DraftEntry(0, Ledgers.Typed("1"), 5, Ledgers.Other("MANUAL", "1"), SALE), 0)
      == EMPTY.(ledger := ONE_PERIOD.(entries := [DRAFT]))
  {
    SaleSums();
  }

  lemma AfterPosting()
    ensures Apply(EMPTY.(ledger := ONE_PERIOD.(entries := [DRAFT])), PostDraft(0), 1)
      == EMPTY.(ledger := ONE_PERIOD.(entries := [DRAFT.(status := Ledgers.Posted)]))
  {
    SaleSums();
  }

  lemma AfterUndoing()
    ensures var before := EMPTY.(ledger := ONE_PERIOD.(entries := [DRAFT.(status := Ledgers.Posted)]));
      Apply(before, UNDO, 2).ledger.entries
        == [DRAFT.(status := Ledgers.Reversed), Ledgers.ReversalEntry(before.ledger, 0, 0, Ledgers.Typed("2"), 6)]
  {
    SaleSums();
    LP.SwappedBalances(SALE);
  }

  /** The books net to zero, but the reconciliation report shows minus 100 on the debited account:
      it drops the reversed entry and keeps its reversal. */
  lemma ReversalMiscounted()
    ensures var entries := Run(EMPTY, REVERSED).ledger.entries;
      && Total(|entries|, Ledgers.BookedAt(entries, 0)) == 0
      && Total(|entries|, Ledgers.ReportedAt(entries, 0)) == -100
  {
    var setup := [] + [Step(AddAccount, 0)] + [Step(AddAccount, 0)] + [Step(AddFiscalPeriod(1, 31), 0)];
    var drafted := setup + [Step(DraftEntry(0, Ledgers.Typed("1"), 5, Ledgers.Other("MANUAL", "1"), SALE), 0)];
    AfterSetup();
    AfterDrafting();
    AfterPosting();
    AfterUndoing();
    RunOneMore(EMPTY, setup, DraftEntry(0, Ledgers.Typed("1"), 5, Ledgers.Other("MANUAL", "1"), SALE), 0);
    RunOneMore(EMPTY, drafted, PostDraft(0), 1);
    RunOneMore(EMPTY, drafted + [Step(PostDraft(0), 1)], UNDO, 2);
    MiscountedNets(Run(EMPTY, REVERSED).ledger.entries);
  }

  lemma MiscountedNets(entries: seq<Ledgers.Entry>)
    requires |entries| == 2 && entries[0] == DRAFT.(status := Ledgers.Reversed)
    requires entries[1].status == Ledgers.Posted && entries[1].lines == Ledgers.Swapped(SALE)
    ensures Total(2, Ledgers.BookedAt(entries, 0)) == 0 && Total(2, Ledgers.ReportedAt(entries, 0)) == -100
  {
    SaleSums();
    LP.SwappedNet(entries[0], entries[1], 0);
    assert Ledgers.Net(entries[0], 0) == 100;
    TotalTwo(Ledgers.BookedAt(entries, 0));
    TotalTwo(Ledgers.ReportedAt(entries, 0));
  }
}
