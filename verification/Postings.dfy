/** Which account the entry of an event debits and which it credits, from posting it to the end of any run. */
module Postings {
  import opened Wrappers
  import opened Sums
  import opened Idempotency
  import Ledgers = GeneralLedger
  import opened Backend
  import opened BackendInvariants
  import PostingProofs
  import opened Runs
  import opened Leases

  // ---------------------------------------------------------------- amounts

  /** What an event is worth: the payment, the refund, the net of a final settlement, or an approved expense
      with its increases added and its decreases taken off. There is nothing to post for anything else. */
  lemma ResolveExactly(db: Db, row: nat)
    ensures Resolve(db, Ledgers.PaymentReceived, row)
      == if row < |db.desk.payments| then Success(db.desk.payments[row].amount) else Failure(NotFound)
    ensures Resolve(db, Ledgers.RefundCompleted, row)
      == if row < |db.desk.refunds| then Success(db.desk.refunds[row].amount) else Failure(NotFound)
    ensures Resolve(db, Ledgers.AgentSettlement, row)
      == if row < |db.agency.settlements| && db.agency.settlements[row].settled then Success(db.agency.settlements[row].net) else Failure(NotFound)
    ensures Resolve(db, Ledgers.ExpenseApproved, row)
      == if row < |db.expenses| && (db.expenses[row].status == Approved || db.expenses[row].status == Adjusted)
         then Success(db.expenses[row].amount + Sum(Raises(db.expenses[row].adjustments)) - Sum(Cuts(db.expenses[row].adjustments)))
         else Failure(NotFound)
  {
    if row < |db.expenses| { RaisesLessCuts(db.expenses[row].adjustments); }
  }

  function Sum(amounts: seq<nat>): int { if amounts == [] then 0 else amounts[0] + Sum(amounts[1..]) }

  function Raises(adjustments: seq<Adjustment>): seq<nat> {
    if adjustments == [] then [] else (if adjustments[0].Increase? then [adjustments[0].amount] else []) + Raises(adjustments[1..])
  }
  function Cuts(adjustments: seq<Adjustment>): seq<nat> {
    if adjustments == [] then [] else (if adjustments[0].Decrease? then [adjustments[0].amount] else []) + Cuts(adjustments[1..])
  }

  lemma {:induction false} RaisesLessCuts(adjustments: seq<Adjustment>)
    ensures Total(|adjustments|, AdjustmentAt(adjustments)) == Sum(Raises(adjustments)) - Sum(Cuts(adjustments))
  {
    if adjustments != [] {
      RaisesLessCuts(adjustments[1..]);
      var f, one := AdjustmentAt(adjustments), AdjustmentAt(adjustments[..1]);
      TotalSplit(1, |adjustments| - 1, f, AdjustmentAt(adjustments[1..]));
      assert Total(1, f) == Total(0, f) + f(0);
      SumOneMore(adjustments[0].amount, Raises(adjustments[1..]));
      SumOneMore(adjustments[0].amount, Cuts(adjustments[1..]));
    }
  }

  lemma SumOneMore(amount: nat, amounts: seq<nat>)
    ensures Sum([amount] + amounts) == amount + Sum(amounts) && Sum([] + amounts) == Sum(amounts)
  {
    assert ([amount] + amounts)[1..] == amounts && [] + amounts == amounts;
  }

  // ---------------------------------------------------------------- the two accounts of an entry

  /** An entry that debits one account and credits another with this many hundredths, in ten-thousandths. */
  ghost predicate Moves(e: Ledgers.Entry, debit: nat, credit: nat, amount: int) {
    && Ledgers.Net(e, debit) == 100 * amount && Ledgers.Net(e, credit) == -100 * amount
    && forall other: nat :: other != debit && other != credit ==> Ledgers.Net(e, other) == 0
  }

  lemma TwoLinesMove(e: Ledgers.Entry, policy: Ledgers.Policy, amount: int)
    requires e.lines == EventLines(policy, amount) && policy.debit != policy.credit
    ensures Moves(e, policy.debit, policy.credit, amount)
  {
    TotalTwo(Ledgers.NetOn(e.lines, policy.debit));
    TotalTwo(Ledgers.NetOn(e.lines, policy.credit));
    forall other: nat | other != policy.debit && other != policy.credit ensures Ledgers.Net(e, other) == 0 {
      TotalTwo(Ledgers.NetOn(e.lines, other));
    }
  }

  /** The entry just posted moves the amount of its source onto the debit account of the policy in force and
      off its credit account, and touches no other account. */
  lemma FreshPostingMoves(db: Db, kind: EventKind, row: nat, period: nat, number: Ledgers.EntryNumber, date: int, key: Key, records: Records<Payload>)
    requires Ledgers.PoliciesOk(db.ledger) && PostFresh(db, kind, row, period, number, date, key, records).Posted?
    ensures var p := PostFresh(db, kind, row, period, number, date, key, records);
      && kind in db.ledger.policies && Resolve(db, kind, row).Success? && p.entry < |p.db.ledger.entries|
      && Moves(p.db.ledger.entries[p.entry], db.ledger.policies[kind].debit, db.ledger.policies[kind].credit, Resolve(db, kind, row).value)
  {
    PostingProofs.FreshPostingIs(db, kind, row, period, number, date, key, records);
    var p := PostFresh(db, kind, row, period, number, date, key, records);
    TwoLinesMove(p.db.ledger.entries[p.entry], db.ledger.policies[kind], Resolve(db, kind, row).value);
  }

  // ---------------------------------------------------------------- every step of every run

  /** The event's entry in e moves the amount and the accounts that db prescribed for it. */
  ghost predicate MovesAsIn(db: Db, e: Db, id: nat) {
    && id < |e.events| && e.events[id].entry.Some? && e.events[id].entry.value < |e.ledger.entries|
    && e.events[id].kind in db.ledger.policies && Resolve(db, e.events[id].kind, e.events[id].row).Success?
    && var policy := db.ledger.policies[e.events[id].kind];
       Moves(e.ledger.entries[e.events[id].entry.value], policy.debit, policy.credit, Resolve(db, e.events[id].kind, e.events[id].row).value)
  }

  predicate Unlinked(events: seq<Event>, id: nat) { id < |events| ==> events[id].entry.None? }

  /** An event that a posting links moves as prescribed. */
  ghost predicate LinksRightly(db: Db, e: Db, id: nat) {
    Unlinked(db.events, id) && id < |e.events| && e.events[id].entry.Some? ==> MovesAsIn(db, e, id)
  }

  lemma PostLinksRightly(db: Db, kind: EventKind, row: nat, period: nat, number: Ledgers.EntryNumber, date: int, description: string,
                         key: Key, now: int, id: nat)
    requires Ledgers.PoliciesOk(db.ledger) && Post(db, kind, row, period, number, date, description, key, now).Posted?
    ensures LinksRightly(db, Post(db, kind, row, period, number, date, description, key, now).db, id)
  {
    var begun := Begin(db.records, PostEvents, key, EventPosted(kind, row, period, number, date, description), now);
    if begun.value.Fresh? {
      hide Moves, Resolve;
      PostingProofs.FreshPostingIs(db, kind, row, period, number, date, key, begun.value.records);
      FreshPostingMoves(db, kind, row, period, number, date, key, begun.value.records);
    }
  }

  lemma ProcessLinksRightly(db: Db, event: nat, now: int, id: nat)
    requires Ledgers.PoliciesOk(db.ledger) && ProcessEvent(db, event, now).Posted?
    ensures LinksRightly(db, ProcessEvent(db, event, now).db, id)
  {
    hide Post, LinksRightly, Ledgers.PoliciesOk, Ledgers.OpenPeriodFor;
    if db.events[event].status == Done && db.events[event].entry.Some? {
      NothingLinks(db, id);
    } else {
      var period := Ledgers.OpenPeriodFor(db.ledger.periods, DayOf(db.events[event].createdAt), |db.ledger.periods|).value;
      PostLinksRightly(db, db.events[event].kind, db.events[event].row, period, Ledgers.Auto(event), DayOf(db.events[event].createdAt),
                       "auto", ForEvent(event), now, id);
    }
  }

  lemma NothingLinks(db: Db, id: nat)
    ensures LinksRightly(db, db, id)
  {}

  lemma ProcessNextLinksRightly(db: Db, locked: set<nat>, user: nat, now: int, id: nat)
    requires Ledgers.PoliciesOk(db.ledger) && ProcessNext(db, locked, user, now).Success?
    ensures LinksRightly(db, ProcessNext(db, locked, user, now).value, id)
  {
    var next, e := NextEvent(db.events, locked, now, 0), ProcessNext(db, locked, user, now).value;
    hide NextEvent, ProcessEvent, Ledgers.PoliciesOk, Moves;
    if next.Some? {
      var claimed := Claim(db, next.value, user, now);
      if ProcessEvent(claimed, next.value, now).Posted? {
        ProcessLinksRightly(claimed, next.value, now, id);
        assert MovesAsIn(claimed, e, id) ==> MovesAsIn(db, e, id);
      }
    }
  }

  lemma OthersLinkNothing(db: Db, r: Request, now: int, id: nat)
    requires !r.PostByHand? && !r.WorkerProcesses? && !r.ProcessNextEvent? && Unlinked(db.events, id)
    ensures Unlinked(Apply(db, r, now).events, id)
  {
    if !EventRequest(r) { OthersAppendEvents(db, r, now); }
  }

  /** Whatever request links an event to an entry, the entry moves the event's amount of that moment between
      the two accounts of the policy of that moment. */
  lemma RequestLinksRightly(db: Db, r: Request, now: int, id: nat)
    requires DbInv(db)
    ensures LinksRightly(db, Apply(db, r, now), id)
  {
    assert Ledgers.PoliciesOk(db.ledger);
    hide DbInv, Post, ProcessEvent, ProcessNext, MovesAsIn, Ledgers.PoliciesOk, Unlinked;
    NothingLinks(db, id);
    if r.PostByHand? {
      if Post(db, r.kind, r.row, r.period, r.number, r.date, r.description, r.key, now).Posted? {
        PostLinksRightly(db, r.kind, r.row, r.period, r.number, r.date, r.description, r.key, now, id);
      }
    } else if r.WorkerProcesses? {
      if ProcessEvent(db, r.event, now).Posted? { ProcessLinksRightly(db, r.event, now, id); }
    } else if r.ProcessNextEvent? {
      if ProcessNext(db, r.locked, r.user, now).Success? { ProcessNextLinksRightly(db, r.locked, r.user, now, id); }
    } else if Unlinked(db.events, id) {
      OthersLinkNothing(db, r, now, id);
      UnlinkedIs(db, Apply(db, r, now), id);
    }
  }

  lemma UnlinkedIs(db: Db, e: Db, id: nat)
    requires Unlinked(e.events, id)
    ensures LinksRightly(db, e, id)
  {}

  lemma MovesStill(db: Db, e: Db, f: Db, id: nat)
    requires MovesAsIn(db, e, id) && Grows(e, f)
    ensures MovesAsIn(db, f, id)
  {
    assert EventGrows(e.events[id], f.events[id]);
    var entry := e.events[id].entry.value;
    assert EntryGrows(e.ledger.entries[entry], f.ledger.entries[entry]);
    forall account: nat ensures Ledgers.Net(f.ledger.entries[entry], account) == Ledgers.Net(e.ledger.entries[entry], account) {}
  }

  /** In every reachable state, each event that is linked to an entry was posted in some step of the run,
      and its entry still moves what the event was worth at that step from the credit to the debit account
      that the policy of its type named at that step, and touches no other account. */
  lemma {:induction false} EntriesMoveRightly(steps: seq<Step>, id: nat)
    requires id < |Run(EMPTY, steps).events| && Run(EMPTY, steps).events[id].entry.Some?
    ensures exists i :: 0 <= i < |steps| && MovesAsIn(Run(EMPTY, steps[..i]), Run(EMPTY, steps), id)
  {
    hide DbInv, Grows, MovesAsIn, Apply;
    var n := |steps| - 1;
    if n >= 0 {
      var before := steps[..n];
      var db, e := Run(EMPTY, before), Run(EMPTY, steps);
      Reached(before);
      if Unlinked(db.events, id) {
        RequestLinksRightly(db, steps[n].request, steps[n].now, id);
        assert MovesAsIn(Run(EMPTY, steps[..n]), e, id);
      } else {
        EntriesMoveRightly(before, id);
        var i :| 0 <= i < n && MovesAsIn(Run(EMPTY, before[..i]), db, id);
        PostingProofs.RequestKeeps(db, steps[n].request, steps[n].now);
        MovesStill(Run(EMPTY, before[..i]), db, e, id);
        assert before[..i] == steps[..i];
      }
    }
  }

  // ---------------------------------------------------------------- the period of an automatic posting

  predicate Takes(periods: seq<Ledgers.Period>, date: int, p: nat) {
    p < |periods| && !periods[p].closed && periods[p].starts <= date <= periods[p].ends
  }

  /** Automatic posting takes an open period of the day if there is one: the one that starts first, and of
      several that start together the one created first. */
  lemma {:induction false} EarliestOpenPeriod(periods: seq<Ledgers.Period>, date: int, n: nat)
    requires n <= |periods|
    ensures match Ledgers.OpenPeriodFor(periods, date, n)
      case None => forall p: nat :: p < n ==> !Takes(periods, date, p)
      case Some(first) => first < n && Takes(periods, date, first) && forall p: nat :: p < n && p != first && Takes(periods, date, p) ==>
        periods[first].starts < periods[p].starts || (periods[first].starts == periods[p].starts && first < p)
  {
    if n > 0 { EarliestOpenPeriod(periods, date, n - 1); }
  }
}
