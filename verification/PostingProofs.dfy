/** Settlements, expenses, journal entries and accounting events keep the invariants too. */
module PostingProofs {
  import opened Wrappers
  import opened Idempotency
  import LP = LedgerProofs
  import Desks = TripDesk
  import Agencies = Settlements
  import AP = SettlementProofs
  import Ledgers = GeneralLedger
  import opened Backend
  import opened BackendInvariants
  import opened BackendProofs

  // ---------------------------------------------------------------- agents and settlements

  lemma AgencyEditKeeps(db: Db, e: Db)
    requires DbInv(db) && e == db.(agency := e.agency) && Agencies.AgencyInv(e.agency, db.desk.tickets)
    requires e.agency.commissions == db.agency.commissions && SettlementsGrow(db.agency.settlements, e.agency.settlements)
    requires forall s :: 0 <= s < |e.agency.settlements| && e.agency.settlements[s].settled ==>
      s < |db.agency.settlements| && db.agency.settlements[s].settled
    ensures DbInv(e) && Grows(db, e)
  {
    QuietKeeps(db, e);
    OutboxQuiet(db, e);
    forall c | 0 <= c < |e.agency.commissions| ensures CommissionFollows(e, e.agency.commissions[c]) {
      assert CommissionFollows(db, db.agency.commissions[c]);
    }
    CommissionsRemain(db, e);
  }

  lemma AgentsKeep(db: Db, agents: seq<Agencies.Agent>)
    requires DbInv(db) && |db.agency.agents| <= |agents|
    ensures var e := db.(agency := db.agency.(agents := agents)); DbInv(e) && Grows(db, e)
  {
    var e := db.(agency := db.agency.(agents := agents));
    AP.GrowthKeepsInv(db.agency, db.desk.tickets, e.agency, db.desk.tickets);
    AgencyEditKeeps(db, e);
  }

  lemma DrawingUpKeeps(db: Db, agent: nat, fromDay: int, toDay: int)
    requires DbInv(db) && Agencies.Generate(db.agency, db.desk.tickets, agent, fromDay, toDay).Success?
    ensures var e := db.(agency := Agencies.Generate(db.agency, db.desk.tickets, agent, fromDay, toDay).value.0); DbInv(e) && Grows(db, e)
  {
    var e := db.(agency := Agencies.Generate(db.agency, db.desk.tickets, agent, fromDay, toDay).value.0);
    AP.GenerateKeepsInv(db.agency, db.desk.tickets, agent, fromDay, toDay);
    AgencyEditKeeps(db, e);
  }

  lemma SettlingKeeps(db: Db, s: nat, now: int)
    requires DbInv(db) && Settle(db, s, now).Success?
    ensures DbInv(Settle(db, s, now).value) && Grows(db, Settle(db, s, now).value)
  {
    var e := Settle(db, s, now).value;
    AP.SettleKeepsInv(db.agency, db.desk.tickets, s);
    Enqueued(db.events, Ledgers.AgentSettlement, s, now);
    EnqueueKeepsEvents(db, e, db.events, Ledgers.AgentSettlement, s, now);
    forall k | k in e.records ensures RecordOk(e, k.0, e.records[k]) { RecordStable(db, e, k.0, db.records[k]); }
    forall c | 0 <= c < |e.agency.commissions| ensures CommissionFollows(e, e.agency.commissions[c]) {
      assert CommissionFollows(db, db.agency.commissions[c]);
    }
    CommissionsRemain(db, e);
  }

  // ---------------------------------------------------------------- expenses

  lemma CommissionsFollowStill(db: Db, e: Db)
    requires CommissionsFollow(db) && e.desk == db.desk && e.agency == db.agency
    ensures CommissionsFollow(e)
  {
    forall c | 0 <= c < |e.agency.commissions| ensures CommissionFollows(e, e.agency.commissions[c]) {
      assert CommissionFollows(db, db.agency.commissions[c]);
    }
  }

  lemma ExpenseEditKeeps(db: Db, e: Db)
    requires DbInv(db) && e == db.(expenses := e.expenses) && ExpensesGrow(db.expenses, e.expenses)
    requires forall x :: 0 <= x < |e.expenses| && e.expenses[x].status != Drafted ==> x < |db.expenses| && db.expenses[x].status != Drafted
    ensures DbInv(e) && Grows(db, e)
  {
    QuietKeeps(db, e);
    OutboxQuiet(db, e);
    CommissionsFollowStill(db, e);
  }

  lemma ApprovingKeeps(db: Db, id: nat, now: int)
    requires DbInv(db) && ApproveExpense(db, id, now).Success?
    ensures DbInv(ApproveExpense(db, id, now).value) && Grows(db, ApproveExpense(db, id, now).value)
  {
    var e := ApproveExpense(db, id, now).value;
    Enqueued(db.events, Ledgers.ExpenseApproved, id, now);
    EnqueueKeepsEvents(db, e, db.events, Ledgers.ExpenseApproved, id, now);
    forall k | k in e.records ensures RecordOk(e, k.0, e.records[k]) { RecordStable(db, e, k.0, db.records[k]); }
    CommissionsFollowStill(db, e);
  }

  // ---------------------------------------------------------------- the ledger

  lemma LedgerEditKeeps(db: Db, ledger: Ledgers.Ledger)
    requires DbInv(db) && Ledgers.LedgerInv(ledger) && EntriesGrow(db.ledger.entries, ledger.entries)
    ensures DbInv(db.(ledger := ledger)) && Grows(db, db.(ledger := ledger))
  {
    var e := db.(ledger := ledger);
    QuietKeeps(db, e);
    OutboxQuiet(db, e);
    CommissionsFollowStill(db, e);
  }

  predicate LedgerRequest(r: Request) {
    r.AddAccount? || r.AddFiscalPeriod? || r.SetPolicy? || r.DraftEntry? || r.PostDraft? || r.CloseFiscalPeriod?
  }

  lemma LedgerRequestsFrame(db: Db, r: Request, now: int)
    requires LedgerRequest(r)
    ensures var e := Apply(db, r, now); e == db.(ledger := e.ledger) && EntriesGrow(db.ledger.entries, e.ledger.entries)
  {
    hide WellFormed, Ledgers.PostingAllowed, Ledgers.Debits, Ledgers.Credits, Ledgers.NumberTaken, Ledgers.SourceTaken;
  }

  lemma SetupRequestsKeepLedger(db: Db, r: Request, now: int)
    requires Ledgers.LedgerInv(db.ledger) && (r.AddAccount? || r.AddFiscalPeriod? || r.SetPolicy?)
    ensures Ledgers.LedgerInv(Apply(db, r, now).ledger)
  {
    hide Ledgers.EntriesOk, Ledgers.ReversalsOk, Ledgers.Unrepeated, Ledgers.NetsAgree;
    LP.SetupKeepsInv(db.ledger, Apply(db, r, now).ledger);
  }

  lemma EntryRequestsKeepLedger(db: Db, r: Request, now: int)
    requires Ledgers.LedgerInv(db.ledger) && (r.DraftEntry? || r.PostDraft? || r.CloseFiscalPeriod?)
    ensures Ledgers.LedgerInv(Apply(db, r, now).ledger)
  {
    hide Ledgers.LedgerInv, Ledgers.CreateEntry, Ledgers.PostEntry, Ledgers.ClosePeriod;
    var l := db.ledger;
    if r.DraftEntry? {
      if Ledgers.CreateEntry(l, r.period, r.number, r.date, r.source, r.lines).Success? {
        LP.CreateKeepsInv(l, r.period, r.number, r.date, r.source, r.lines);
      }
    } else if r.PostDraft? {
      if Ledgers.PostEntry(l, r.entry).Success? { LP.PostKeepsInv(l, r.entry); }
    } else if Ledgers.ClosePeriod(l, r.period).Success? {
      LP.CloseKeepsInv(l, r.period);
    }
  }

  lemma LedgerRequestsKeep(db: Db, r: Request, now: int)
    requires DbInv(db) && LedgerRequest(r)
    ensures DbInv(Apply(db, r, now)) && Grows(db, Apply(db, r, now))
  {
    assert Ledgers.LedgerInv(db.ledger);
    hide DbInv, Grows, Apply;
    LedgerRequestsFrame(db, r, now);
    if r.AddAccount? || r.AddFiscalPeriod? || r.SetPolicy? {
      SetupRequestsKeepLedger(db, r, now);
    } else {
      EntryRequestsKeepLedger(db, r, now);
    }
    LedgerEditKeeps(db, Apply(db, r, now).ledger);
  }

  /** Ledger and records after a request that completed an idempotency record. */
  lemma RecordedKeeps(db: Db, e: Db, endpoint: Endpoint, key: Key, payload: Payload, row: nat, records: Records<Payload>, now: int)
    requires RecordsOk(db) && Grows(db, e)
    requires Begin(db.records, endpoint, key, payload, now) == Success(Fresh(records))
    requires e.records == Complete(records, endpoint, key, row) && RecordOk(e, endpoint, Record(payload, Some(row), now + RETENTION_MS))
    ensures RecordsOk(e)
  {
    forall k | k in e.records ensures RecordOk(e, k.0, e.records[k]) {
      if k != (endpoint, key) { RecordStable(db, e, k.0, db.records[k]); }
    }
  }

  lemma UndoneKeeps(db: Db, e: Db, payload: Payload, key: Key, records: Records<Payload>, now: int)
    requires DbInv(db) && e == db.(ledger := e.ledger, records := e.records)
    requires (ReverseEntries, key) in records && e.records == Complete(records, ReverseEntries, key, |db.ledger.entries|)
    requires Ledgers.LedgerInv(e.ledger) && EntriesGrow(db.ledger.entries, e.ledger.entries)
    requires Begin(db.records, ReverseEntries, key, payload, now) == Success(Fresh(records)) && payload.EntryReversed?
    requires |db.ledger.entries| < |e.ledger.entries| && e.ledger.entries[|db.ledger.entries|].reversalOf == Some(payload.entry)
    ensures DbInv(e) && Grows(db, e)
  {
    LedgerEditKeeps(db, e.ledger);
    RecordedKeeps(db, e, ReverseEntries, key, payload, |db.ledger.entries|, records, now);
    forall i | 0 <= i < |e.events| ensures EventOk(e, e.events[i]) { EventStable(db, e, db.events[i]); }
    OutboxQuiet(db, e);
    CommissionsFollowStill(db, e);
  }

  lemma UndoingKeeps(db: Db, id: nat, period: nat, number: Ledgers.EntryNumber, date: int, reason: string, key: Key, now: int)
    requires DbInv(db) && ReverseEntry(db, id, period, number, date, reason, key, now).Success?
    ensures var e := ReverseEntry(db, id, period, number, date, reason, key, now).value.0; DbInv(e) && Grows(db, e)
  {
    assert Ledgers.LedgerInv(db.ledger);
    hide DbInv, Grows;
    var e := ReverseEntry(db, id, period, number, date, reason, key, now).value.0;
    var payload := EntryReversed(id, period, number, date, reason);
    var begun := Begin(db.records, ReverseEntries, key, payload, now);
    if begun.value.Fresh? {
      LP.ReverseKeepsInv(db.ledger, id, period, number, date);
      UndoneKeeps(db, e, payload, key, begun.value.records, now);
    } else {
      SelfGrows(db);
    }
  }

  lemma SelfGrows(db: Db)
    ensures Grows(db, db)
  {}

  // ---------------------------------------------------------------- posting events

  predicate BegunPost(db: Db, kind: EventKind, row: nat, period: nat, number: Ledgers.EntryNumber, date: int, description: string,
                      key: Key, now: int, records: Records<Payload>) {
    Begin(db.records, PostEvents, key, EventPosted(kind, row, period, number, date, description), now) == Success(Fresh(records))
  }

  /** A fresh posting writes one entry, for a source that had none, with the amount of the source. */
  lemma FreshPostingIs(db: Db, kind: EventKind, row: nat, period: nat, number: Ledgers.EntryNumber, date: int, key: Key, records: Records<Payload>)
    requires PostFresh(db, kind, row, period, number, date, key, records).Posted?
    ensures var p := PostFresh(db, kind, row, period, number, date, key, records);
      && Resolve(db, kind, row).Success? && kind in db.ledger.policies
      && !Ledgers.SourceTaken(db.ledger.entries, Ledgers.Business(kind, row))
      && p.entry == |db.ledger.entries|
      && p.db.ledger == db.ledger.(entries := db.ledger.entries + [Ledgers.Entry(period, number, date, Ledgers.Business(kind, row),
           Ledgers.Posted, None, EventLines(db.ledger.policies[kind], Resolve(db, kind, row).value))])
      && p.db == db.(ledger := p.db.ledger, events := MarkPosted(db.events, kind, row, p.entry),
           records := if (PostEvents, key) in records then Complete(records, PostEvents, key, p.entry) else records)
  {}

  lemma FreshPostingKeepsLedger(db: Db, kind: EventKind, row: nat, period: nat, number: Ledgers.EntryNumber, date: int, key: Key, records: Records<Payload>)
    requires Ledgers.LedgerInv(db.ledger) && PostFresh(db, kind, row, period, number, date, key, records).Posted?
    ensures Ledgers.LedgerInv(PostFresh(db, kind, row, period, number, date, key, records).db.ledger)
  {
    var lines := EventLines(db.ledger.policies[kind], Resolve(db, kind, row).value);
    LP.CreateKeepsInv(db.ledger, period, number, date, Ledgers.Business(kind, row), lines);
    var drafted := Ledgers.CreateEntry(db.ledger, period, number, date, Ledgers.Business(kind, row), lines).value;
    LP.PostKeepsInv(drafted, |db.ledger.entries|);
  }

  lemma FreshPostingGrows(db: Db, kind: EventKind, row: nat, period: nat, number: Ledgers.EntryNumber, date: int, key: Key, records: Records<Payload>)
    requires EventsOk(db) && PostFresh(db, kind, row, period, number, date, key, records).Posted?
    ensures var e := PostFresh(db, kind, row, period, number, date, key, records).db; Grows(db, e) && SameKeys(db.events, e.events)
  {
    FreshPostingIs(db, kind, row, period, number, date, key, records);
    var e := PostFresh(db, kind, row, period, number, date, key, records).db;
    forall i | 0 <= i < |db.events| ensures EventGrows(db.events[i], e.events[i]) { assert EventOk(db, db.events[i]); }
  }

  /** The entry just posted carries the amount its source had at that moment. */
  lemma FreshPostingLinks(db: Db, kind: EventKind, row: nat, period: nat, number: Ledgers.EntryNumber, date: int, key: Key, records: Records<Payload>)
    requires EventsOk(db) && PostFresh(db, kind, row, period, number, date, key, records).Posted?
    ensures var p := PostFresh(db, kind, row, period, number, date, key, records);
      && LinkOk(p.db, kind, row, p.entry) && CarriesAmount(p.db.ledger.entries[p.entry].lines, Resolve(db, kind, row).value)
  {
    FreshPostingIs(db, kind, row, period, number, date, key, records);
    var p := PostFresh(db, kind, row, period, number, date, key, records);
    FreshPostingGrows(db, kind, row, period, number, date, key, records);
    if kind != Ledgers.ExpenseApproved { ResolveStable(db, p.db, kind, row); }
  }

  lemma FreshPostingKeeps(db: Db, kind: EventKind, row: nat, period: nat, number: Ledgers.EntryNumber, date: int, description: string,
                          key: Key, now: int, records: Records<Payload>)
    requires DbInv(db) && BegunPost(db, kind, row, period, number, date, description, key, now, records)
    requires PostFresh(db, kind, row, period, number, date, key, records).Posted?
    ensures var e := PostFresh(db, kind, row, period, number, date, key, records).db; DbInv(e) && Grows(db, e)
  {
    hide Grows, Ledgers.LedgerInv;
    var p := PostFresh(db, kind, row, period, number, date, key, records);
    var e := p.db;
    FreshPostingIs(db, kind, row, period, number, date, key, records);
    FreshPostingKeepsLedger(db, kind, row, period, number, date, key, records);
    FreshPostingGrows(db, kind, row, period, number, date, key, records);
    FreshPostingLinks(db, kind, row, period, number, date, key, records);
    forall i | 0 <= i < |e.events| ensures EventOk(e, e.events[i]) { EventStable(db, e, db.events[i]); }
    OutboxQuiet(db, e);
    CommissionsFollowStill(db, e);
    RecordedKeeps(db, e, PostEvents, key, EventPosted(kind, row, period, number, date, description), p.entry, records, now);
  }

  lemma PostingKeeps(db: Db, kind: EventKind, row: nat, period: nat, number: Ledgers.EntryNumber, date: int, description: string, key: Key, now: int)
    requires DbInv(db) && Post(db, kind, row, period, number, date, description, key, now).Posted?
    ensures var e := Post(db, kind, row, period, number, date, description, key, now).db; DbInv(e) && Grows(db, e)
  {
    var begun := Begin(db.records, PostEvents, key, EventPosted(kind, row, period, number, date, description), now);
    if begun.value.Fresh? {
      FreshPostingKeeps(db, kind, row, period, number, date, description, key, now, begun.value.records);
    } else {
      SelfGrows(db);
    }
  }

  lemma ProcessingKeeps(db: Db, id: nat, now: int)
    requires DbInv(db) && ProcessEvent(db, id, now).Posted?
    ensures DbInv(ProcessEvent(db, id, now).db) && Grows(db, ProcessEvent(db, id, now).db)
  {
    var event := db.events[id];
    if event.status == Done && event.entry.Some? {
      SelfGrows(db);
    } else {
      var period := Ledgers.OpenPeriodFor(db.ledger.periods, DayOf(event.createdAt), |db.ledger.periods|).value;
      PostingKeeps(db, event.kind, event.row, period, Ledgers.Auto(id), DayOf(event.createdAt), "auto", ForEvent(id), now);
    }
  }

  // ---------------------------------------------------------------- claims, failures and requeues

  /** Requests that touch only the bookkeeping of single events, and perhaps leave a record behind. */
  lemma EventEditKeeps(db: Db, e: Db)
    requires DbInv(db) && e == db.(events := e.events, records := e.records) && SameKeys(db.events, e.events)
    requires forall i :: 0 <= i < |db.events| ==> EventGrows(db.events[i], e.events[i]) && EventOk(db, e.events[i])
    requires forall k :: k in e.records ==> RecordOk(db, k.0, e.records[k])
    ensures DbInv(e) && Grows(db, e)
  {
    forall i | 0 <= i < |e.events| ensures EventOk(e, e.events[i]) { EventStable(db, e, e.events[i]); }
    forall k | k in e.records ensures RecordOk(e, k.0, e.records[k]) { RecordStable(db, e, k.0, e.records[k]); }
    OutboxQuiet(db, e);
    CommissionsFollowStill(db, e);
  }

  /** A stopped posting leaves at most its own unfinished record. */
  lemma StoppedRecords(db: Db, id: nat, now: int)
    requires RecordsOk(db) && ProcessEvent(db, id, now).Stopped?
    ensures forall k :: k in ProcessEvent(db, id, now).records ==> RecordOk(db, k.0, ProcessEvent(db, id, now).records[k])
  {}

  lemma ClaimKeeps(db: Db, id: nat, worker: nat, now: int)
    requires DbInv(db) && id < |db.events| && Claimable(db.events[id], now)
    ensures DbInv(Claim(db, id, worker, now)) && Grows(db, Claim(db, id, worker, now))
  {
    var e := Claim(db, id, worker, now);
    forall i | 0 <= i < |db.events| ensures EventGrows(db.events[i], e.events[i]) && EventOk(db, e.events[i]) { assert EventOk(db, db.events[i]); }
    EventEditKeeps(db, e);
  }

  lemma FailureKeeps(db: Db, records: Records<Payload>, id: nat, now: int)
    requires DbInv(db) && forall k :: k in records ==> RecordOk(db, k.0, records[k])
    ensures var e := MarkFailed(db.(records := records), id, now); DbInv(e) && Grows(db, e)
  {
    var e := MarkFailed(db.(records := records), id, now);
    forall i | 0 <= i < |db.events| ensures EventGrows(db.events[i], e.events[i]) && EventOk(db, e.events[i]) { assert EventOk(db, db.events[i]); }
    EventEditKeeps(db, e);
  }

  lemma ReportKeeps(db: Db, id: nat, now: int)
    requires DbInv(db)
    ensures DbInv(MarkFailed(db, id, now)) && Grows(db, MarkFailed(db, id, now))
  {
    FailureKeeps(db, db.records, id, now);
  }

  lemma RequeueKeeps(db: Db, id: nat, now: int)
    requires DbInv(db) && Requeue(db, id, now).Success?
    ensures DbInv(Requeue(db, id, now).value) && Grows(db, Requeue(db, id, now).value)
  {
    var e := Requeue(db, id, now).value;
    forall i | 0 <= i < |db.events| ensures EventGrows(db.events[i], e.events[i]) && EventOk(db, e.events[i]) { assert EventOk(db, db.events[i]); }
    EventEditKeeps(db, e);
  }

  lemma GrowsFurther(db: Db, e: Db, f: Db)
    requires Grows(db, e) && Grows(e, f)
    ensures Grows(db, f)
  {
    DeskGrowsFurther(db.desk, e.desk, f.desk);
    forall i | 0 <= i < |db.ledger.entries| ensures EntryGrows(db.ledger.entries[i], f.ledger.entries[i]) {
      assert EntryGrows(db.ledger.entries[i], e.ledger.entries[i]) && EntryGrows(e.ledger.entries[i], f.ledger.entries[i]);
    }
    forall i | 0 <= i < |db.events| ensures EventGrows(db.events[i], f.events[i]) {
      assert EventGrows(db.events[i], e.events[i]) && EventGrows(e.events[i], f.events[i]);
    }
  }

  lemma ProcessNextKeeps(db: Db, locked: set<nat>, user: nat, now: int)
    requires DbInv(db) && ProcessNext(db, locked, user, now).Success?
    ensures DbInv(ProcessNext(db, locked, user, now).value) && Grows(db, ProcessNext(db, locked, user, now).value)
  {
    var next, e := NextEvent(db.events, locked, now, 0), ProcessNext(db, locked, user, now).value;
    if next.None? {
      SelfGrows(db);
    } else {
      var claimed := Claim(db, next.value, user, now);
      ClaimKeeps(db, next.value, user, now);
      if ProcessEvent(claimed, next.value, now).Posted? {
        ProcessingKeeps(claimed, next.value, now);
      } else {
        StoppedRecords(claimed, next.value, now);
        FailureKeeps(claimed, ProcessEvent(claimed, next.value, now).records, next.value, now);
      }
      GrowsFurther(db, claimed, e);
    }
  }

  // ---------------------------------------------------------------- every request

  lemma AgencyRequestsKeep(db: Db, r: Request, now: int)
    requires DbInv(db) && WellFormed(r) && (r.AddAgent? || r.EditAgent? || r.DrawUpSettlement? || r.SettleSettlement?)
    ensures DbInv(Apply(db, r, now)) && Grows(db, Apply(db, r, now))
  {
    hide DbInv, Grows;
    SelfGrows(db);
    match r {
      case AddAgent(agent) => AgentsKeep(db, db.agency.agents + [agent]);
      case EditAgent(id, agent) => if id < |db.agency.agents| { AgentsKeep(db, db.agency.agents[id := agent]); }
      case DrawUpSettlement(agent, fromDay, toDay) =>
        if Agencies.Generate(db.agency, db.desk.tickets, agent, fromDay, toDay).Success? { DrawingUpKeeps(db, agent, fromDay, toDay); }
      case SettleSettlement(s) => if Settle(db, s, now).Success? { SettlingKeeps(db, s, now); }
      case _ =>
    }
  }

  lemma ExpenseRequestsKeep(db: Db, r: Request, now: int)
    requires DbInv(db) && WellFormed(r) && (r.AddExpense? || r.ChangeExpense? || r.ApproveTheExpense? || r.AdjustTheExpense?)
    ensures DbInv(Apply(db, r, now)) && Grows(db, Apply(db, r, now))
  {
    hide DbInv, Grows;
    SelfGrows(db);
    match r {
      case AddExpense(amount) => ExpenseEditKeeps(db, Apply(db, r, now));
      case ChangeExpense(id, amount) => if EditExpense(db, id, amount).Success? { ExpenseEditKeeps(db, Apply(db, r, now)); }
      case AdjustTheExpense(id, adjustment) => if AdjustExpense(db, id, adjustment).Success? { ExpenseEditKeeps(db, Apply(db, r, now)); }
      case ApproveTheExpense(id) => if ApproveExpense(db, id, now).Success? { ApprovingKeeps(db, id, now); }
      case _ =>
    }
  }

  lemma PostingRequestsKeep(db: Db, r: Request, now: int)
    requires DbInv(db) && (r.PostByHand? || r.WorkerProcesses? || r.ProcessNextEvent?)
    ensures DbInv(Apply(db, r, now)) && Grows(db, Apply(db, r, now))
  {
    hide DbInv, Grows, Post, ProcessEvent, ProcessNext;
    SelfGrows(db);
    if r.PostByHand? {
      if Post(db, r.kind, r.row, r.period, r.number, r.date, r.description, r.key, now).Posted? {
        PostingKeeps(db, r.kind, r.row, r.period, r.number, r.date, r.description, r.key, now);
      }
    } else if r.WorkerProcesses? {
      if ProcessEvent(db, r.event, now).Posted? { ProcessingKeeps(db, r.event, now); }
    } else if ProcessNext(db, r.locked, r.user, now).Success? {
      ProcessNextKeeps(db, r.locked, r.user, now);
    }
  }

  lemma QueueRequestsKeep(db: Db, r: Request, now: int)
    requires DbInv(db) && (r.WorkerClaims? || r.WorkerReportsFailure? || r.RequeueEvent?)
    ensures DbInv(Apply(db, r, now)) && Grows(db, Apply(db, r, now))
  {
    hide DbInv, Grows, Requeue, MarkFailed, Claim, NextEvent, Claimable;
    SelfGrows(db);
    if r.WorkerClaims? {
      var next := NextEvent(db.events, r.locked, now, 0);
      if next.Some? { ClaimKeeps(db, next.value, r.worker, now); }
    } else if r.WorkerReportsFailure? {
      ReportKeeps(db, r.event, now);
    } else if Requeue(db, r.event, now).Success? {
      RequeueKeeps(db, r.event, now);
    }
  }

  lemma CancellationsKeep(db: Db, r: Request, now: int)
    requires DbInv(db) && WellFormed(r) && (r.DropBooking? || r.DropTrip?)
    ensures DbInv(Apply(db, r, now)) && Grows(db, Apply(db, r, now))
  {
    hide DbInv, Grows;
    SelfGrows(db);
    match r {
      case DropBooking(booking, reason, key, principal) =>
        var begun := Begin(db.records, CancelBookings, key, BookingCancelled(booking, reason), now);
        var desk := Desks.CancelBooking(db.desk, booking);
        if CancelBooking(db, booking, reason, key, principal, now).Success? && begun.value.Fresh? {
          BookingEndedKeeps(db, booking, desk.value, begun.value.records, reason, key, now);
        }
      case DropTrip(trip, reason, key) =>
        var begun := Begin(db.records, CancelTrips, key, TripCancelled(trip, reason), now);
        var desk := Desks.CancelTrip(db.desk, trip);
        if CancelTrip(db, trip, reason, key, now).Success? && begun.value.Fresh? {
          TripEndedKeeps(db, trip, desk.value, begun.value.records, reason, key, now);
        }
      case _ =>
    }
  }

  /** The main invariant: every request, whatever its outcome, keeps the whole database
      consistent, and rewrites no history. */
  lemma RequestKeeps(db: Db, r: Request, now: int)
    requires DbInv(db)
    ensures DbInv(Apply(db, r, now)) && Grows(db, Apply(db, r, now))
  {
    SelfGrows(db);
    if WellFormed(r) {
      if SeatRequest(r) { SeatRequestsKeep(db, r, now); }
      else if LedgerRequest(r) { LedgerRequestsKeep(db, r, now); }
      else if r.DropBooking? || r.DropTrip? { CancellationsKeep(db, r, now); }
      else if r.AddAgent? || r.EditAgent? || r.DrawUpSettlement? || r.SettleSettlement? { AgencyRequestsKeep(db, r, now); }
      else if r.AddExpense? || r.ChangeExpense? || r.ApproveTheExpense? || r.AdjustTheExpense? { ExpenseRequestsKeep(db, r, now); }
      else if r.PlaceOrder? { OrderRequestKeeps(db, r, now); }
      else if r.UndoEntry? { UndoRequestKeeps(db, r, now); }
      else if r.PostByHand? || r.WorkerProcesses? || r.ProcessNextEvent? { PostingRequestsKeep(db, r, now); }
      else { QueueRequestsKeep(db, r, now); }
    }
  }

  lemma OrderRequestKeeps(db: Db, r: Request, now: int)
    requires DbInv(db) && r.PlaceOrder? && WellFormed(r)
    ensures DbInv(Apply(db, r, now)) && Grows(db, Apply(db, r, now))
  {
    hide DbInv, Grows;
    SelfGrows(db);
    if OrderFault(db, r.order, now).None? { OrderKeeps(db, r.order, now); }
  }

  lemma UndoRequestKeeps(db: Db, r: Request, now: int)
    requires DbInv(db) && r.UndoEntry?
    ensures DbInv(Apply(db, r, now)) && Grows(db, Apply(db, r, now))
  {
    hide DbInv, Grows;
    SelfGrows(db);
    if ReverseEntry(db, r.entry, r.period, r.number, r.date, r.reason, r.key, now).Success? {
      UndoingKeeps(db, r.entry, r.period, r.number, r.date, r.reason, r.key, now);
    }
  }
}
