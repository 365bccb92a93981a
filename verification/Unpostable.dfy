/** Accounting events that can never be posted: those with nothing to post. */
module Unpostable {
  import opened Wrappers
  import Money
  import Agencies = Settlements
  import Ledgers = GeneralLedger
  import opened Backend
  import opened BackendInvariants
  import opened Runs
  import BookRuns

  /** Only amounts above zero reach the books. */
  lemma LinkedAmountsPositive(db: Db, id: nat)
    requires DbInv(db) && id < |db.events| && db.events[id].entry.Some? && db.events[id].kind != Ledgers.ExpenseApproved
    ensures Resolve(db, db.events[id].kind, db.events[id].row).Success? && Resolve(db, db.events[id].kind, db.events[id].row).value > 0
  {
    var event := db.events[id];
    assert EventOk(db, event);
    assert Ledgers.EntryOk(db.ledger, db.ledger.entries[event.entry.value]);
    BookRuns.CarriedTotals(db.ledger.entries[event.entry.value].lines, Resolve(db, event.kind, event.row).value);
  }

  /** A settlement that was finished with nothing to pay, one without commissions for example, has its event in
      the queue in all later states, and no request of any run ever posts it. */
  lemma {:induction false} ZeroNeverPosted(db: Db, s: nat, steps: seq<Step>)
    requires DbInv(db) && s < |db.agency.settlements| && db.agency.settlements[s].settled && db.agency.settlements[s].net == 0
    ensures var events := Run(db, steps).events;
      && HasEvent(events, Ledgers.AgentSettlement, s)
      && forall e :: 0 <= e < |events| && events[e].kind == Ledgers.AgentSettlement && events[e].row == s ==>
           events[e].entry.None? && events[e].status != Done
  {
    RunKeeps(db, steps);
    var f := Run(db, steps);
    assert f.agency.settlements[s] == db.agency.settlements[s] && OutboxExact(f);
    assert Owed(f, Ledgers.AgentSettlement, s);
    forall e | 0 <= e < |f.events| && f.events[e].kind == Ledgers.AgentSettlement && f.events[e].row == s
      ensures f.events[e].entry.None? && f.events[e].status != Done
    {
      if f.events[e].entry.Some? { LinkedAmountsPositive(f, e); }
      assert EventOk(f, f.events[e]);
    }
  }

  const AGENT := Agencies.Agent(Money.Percent(1000), true)

  /** An agent's first day is settled although nothing was sold. */
  const EMPTY_DAY: seq<Step> := [] + [Step(AddAgent(AGENT), 0)] + [Step(DrawUpSettlement(0, 0, 0), 1)] + [Step(SettleSettlement(0), 2)]

  const NO_SALES := Agencies.Agency([AGENT], [], [], map[])
  const DRAWN_UP := Agencies.Agency([AGENT], [], [Agencies.Settlement(0, 0, 86399999, 0, 0, 0, false)], map[])
  const SETTLED := Agencies.Agency([AGENT], [], [Agencies.Settlement(0, 0, 86399999, 0, 0, 0, true)], map[])

  lemma DrawingUp()
    ensures Agencies.Generate(NO_SALES, [], 0, 0, 0) == Success((DRAWN_UP, 0))
  {
    assert Agencies.FirstOverlap(NO_SALES.settlements, 0, 0, 86399999, 0) == None;
    assert Agencies.RedrawnLines(NO_SALES, 0, 0, 86399999, None, 0) == map[];
    assert NO_SALES.settlements + DRAWN_UP.settlements == DRAWN_UP.settlements;
    assert Agencies.GenerateOver(NO_SALES, [], 0, 0, 86399999).Success?;
    assert Agencies.GenerateOver(NO_SALES, [], 0, 0, 86399999).value.0.settlements == DRAWN_UP.settlements;
  }

  lemma AfterAdding()
    ensures Run(EMPTY, [] + [Step(AddAgent(AGENT), 0)]) == EMPTY.(agency := NO_SALES)
  {
    assert Run(EMPTY, []) == EMPTY;
    RunOneMore(EMPTY, [], AddAgent(AGENT), 0);
    assert EMPTY.agency.agents + [AGENT] == [AGENT];
  }

  lemma AfterDrawingUp()
    ensures Run(EMPTY, [] + [Step(AddAgent(AGENT), 0)] + [Step(DrawUpSettlement(0, 0, 0), 1)]) == EMPTY.(agency := DRAWN_UP)
  {
    AfterAdding();
    DrawingUp();
    RunOneMore(EMPTY, [] + [Step(AddAgent(AGENT), 0)], DrawUpSettlement(0, 0, 0), 1);
    hide Agencies.Generate, Run;
  }

  lemma AfterSettling()
    ensures Run(EMPTY, EMPTY_DAY).agency == SETTLED
  {
    AfterDrawingUp();
    RunOneMore(EMPTY, [] + [Step(AddAgent(AGENT), 0)] + [Step(DrawUpSettlement(0, 0, 0), 1)], SettleSettlement(0), 2);
    assert DRAWN_UP.settlements[0 := SETTLED.settlements[0]] == SETTLED.settlements;
    hide Run;
  }

  /** So such a settlement can be reached in three requests; its event is in the queue and stays there. */
  lemma {:induction false} EmptySettlementNeverPosted(steps: seq<Step>)
    ensures var events := Run(Run(EMPTY, EMPTY_DAY), steps).events;
      && HasEvent(events, Ledgers.AgentSettlement, 0)
      && forall e :: 0 <= e < |events| && events[e].kind == Ledgers.AgentSettlement && events[e].row == 0 ==> events[e].status != Done
  {
    AfterSettling();
    Reached(EMPTY_DAY);
    hide Run, DbInv;
    ZeroNeverPosted(Run(EMPTY, EMPTY_DAY), 0, steps);
  }
}
