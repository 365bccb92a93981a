/** Double-entry journal entries, their reversals and the fiscal periods they fall in. Amounts are
    in ten-thousandths of the currency unit and dates in days. */
module GeneralLedger {
  import opened Wrappers
  import opened Sums

  datatype EventKind = PaymentReceived | RefundCompleted | ExpenseApproved | AgentSettlement
  /** What an entry says it stems from; people may write any of these on their own entries. */
  datatype Source = Business(kind: EventKind, row: nat) | Reversal(entry: nat) | Other(text: string, id: string)
  /** Entry numbers are free text; AUTO-n is the number of the automatic entry for event n. */
  datatype EntryNumber = Typed(text: string) | Auto(event: nat)

  datatype Line = Line(account: nat, debit: int, credit: int)
  datatype EntryStatus = Draft | Posted | Reversed
  datatype Entry = Entry(period: nat, number: EntryNumber, date: int, source: Source, status: EntryStatus,
                         reversalOf: Option<nat>, lines: seq<Line>)
  datatype Period = Period(starts: int, ends: int, closed: bool)
  datatype Policy = Policy(debit: nat, credit: nat)

  datatype Ledger = Ledger(accounts: nat, periods: seq<Period>, policies: map<EventKind, Policy>, entries: seq<Entry>)

  function DebitAt(lines: seq<Line>): nat -> int { (i: nat) => if i < |lines| then lines[i].debit else 0 }
  function CreditAt(lines: seq<Line>): nat -> int { (i: nat) => if i < |lines| then lines[i].credit else 0 }
  function Debits(lines: seq<Line>): int { Total(|lines|, DebitAt(lines)) }
  function Credits(lines: seq<Line>): int { Total(|lines|, CreditAt(lines)) }

  predicate Balanced(lines: seq<Line>) { Debits(lines) == Credits(lines) > 0 }

  predicate OneSided(line: Line) {
    (line.debit > 0 && line.credit == 0) || (line.credit > 0 && line.debit == 0)
  }

  predicate WithinPeriod(p: Period, date: int) { p.starts <= date <= p.ends }

  predicate NumberTaken(entries: seq<Entry>, number: EntryNumber) {
    exists e :: 0 <= e < |entries| && entries[e].number == number
  }
  predicate SourceTaken(entries: seq<Entry>, source: Source) {
    exists e :: 0 <= e < |entries| && entries[e].source == source
  }
  predicate HasReversal(entries: seq<Entry>, original: nat) {
    exists e :: 0 <= e < |entries| && entries[e].reversalOf == Some(original)
  }

  // ---------------------------------------------------------------- requests

  function AddPeriod(l: Ledger, starts: int, ends: int): Result<Ledger> {
    if starts > ends then Failure(BadRequest) else Success(l.(periods := l.periods + [Period(starts, ends, false)]))
  }

  function Configure(l: Ledger, kind: EventKind, debit: nat, credit: nat): Result<Ledger> {
    if debit == credit then Failure(BadRequest)
    else if debit >= l.accounts || credit >= l.accounts then Failure(NotFound)
    else Success(l.(policies := l.policies[kind := Policy(debit, credit)]))
  }

  /** A draft entry: balanced, one-sided lines, on known accounts, dated inside an open period. */
  function CreateEntry(l: Ledger, period: nat, number: EntryNumber, date: int, source: Source, lines: seq<Line>): Result<Ledger> {
    if Debits(lines) <= 0 || Debits(lines) != Credits(lines) then Failure(BadRequest)
    else if exists i :: 0 <= i < |lines| && (lines[i].debit > 0) == (lines[i].credit > 0) then Failure(BadRequest)
    else if period >= |l.periods| then Failure(NotFound)
    else if l.periods[period].closed then Failure(Conflict)
    else if !WithinPeriod(l.periods[period], date) then Failure(BadRequest)
    else if exists i :: 0 <= i < |lines| && lines[i].account >= l.accounts then Failure(NotFound)
    else if NumberTaken(l.entries, number) || SourceTaken(l.entries, source) then Failure(Constraint)
    else if exists i :: 0 <= i < |lines| && !OneSided(lines[i]) then Failure(Constraint)
    else Success(l.(entries := l.entries + [Entry(period, number, date, source, Draft, None, lines)]))
  }

  /** The trigger on an entry that is being posted. */
  predicate PostingAllowed(l: Ledger, e: Entry) {
    e.period < |l.periods| && !l.periods[e.period].closed && WithinPeriod(l.periods[e.period], e.date) && Balanced(e.lines)
  }

  /** The trigger on any change of an entry's status. */
  predicate UpdateAllowed(l: Ledger, id: nat, status: EntryStatus)
    requires id < |l.entries|
  {
    match l.entries[id].status
    case Reversed => false
    case Posted => status == Reversed && exists e :: 0 <= e < |l.entries| && l.entries[e].reversalOf == Some(id) && l.entries[e].status == Posted
    case Draft => status == Posted ==> PostingAllowed(l, l.entries[id])
  }

  function PostEntry(l: Ledger, id: nat): Result<Ledger> {
    if id >= |l.entries| then Failure(NotFound)
    else if l.entries[id].status != Draft then Failure(Conflict)
    else if !PostingAllowed(l, l.entries[id]) then Failure(Constraint)
    else Success(l.(entries := l.entries[id := l.entries[id].(status := Posted)]))
  }

  function Swapped(lines: seq<Line>): (swapped: seq<Line>)
    ensures |swapped| == |lines|
  {
    seq(|lines|, i requires 0 <= i < |lines| => Line(lines[i].account, lines[i].credit, lines[i].debit))
  }

  function ReversalEntry(l: Ledger, id: nat, period: nat, number: EntryNumber, date: int): Entry
    requires id < |l.entries|
  {
    Entry(period, number, date, Reversal(id), Posted, Some(id), Swapped(l.entries[id].lines))
  }

  /** A posted entry with debits and credits exchanged; the original becomes REVERSED. */
  function ReverseEntry(l: Ledger, id: nat, period: nat, number: EntryNumber, date: int): Result<Ledger> {
    if id >= |l.entries| then Failure(NotFound)
    else if l.entries[id].status != Posted then Failure(Conflict)
    else if HasReversal(l.entries, id) then Failure(Conflict)
    else if period >= |l.periods| || l.periods[period].closed then Failure(Conflict)
    else if !WithinPeriod(l.periods[period], date) then Failure(BadRequest)
    else if NumberTaken(l.entries, number) || SourceTaken(l.entries, Reversal(id)) then Failure(Constraint)
    else
      var reversal := ReversalEntry(l, id, period, number, date);
      if !PostingAllowed(l, reversal) then Failure(Constraint)
      else Success(l.(entries := l.entries[id := l.entries[id].(status := Reversed)] + [reversal]))
  }

  predicate HasDraft(entries: seq<Entry>, period: nat) {
    exists e :: 0 <= e < |entries| && entries[e].period == period && entries[e].status == Draft
  }

  function ClosePeriod(l: Ledger, period: nat): Result<Ledger> {
    if period >= |l.periods| then Failure(NotFound)
    else if l.periods[period].closed then Failure(Conflict)
    else if HasDraft(l.entries, period) then Failure(Conflict)
    else Success(l.(periods := l.periods[period := l.periods[period].(closed := true)]))
  }

  /** The open period with the earliest start that contains a date, among the first n. */
  function OpenPeriodFor(periods: seq<Period>, date: int, n: nat): (found: Option<nat>)
    requires n <= |periods|
    ensures found.Some? ==> found.value < n && !periods[found.value].closed && WithinPeriod(periods[found.value], date)
  {
    if n == 0 then None
    else
      var best := OpenPeriodFor(periods, date, n - 1);
      if !periods[n - 1].closed && WithinPeriod(periods[n - 1], date)
         && (best.None? || periods[n - 1].starts < periods[best.value].starts) then Some(n - 1) else best
  }

  // ---------------------------------------------------------------- account totals

  function NetOn(lines: seq<Line>, account: nat): nat -> int {
    (i: nat) => if i < |lines| && lines[i].account == account then lines[i].debit - lines[i].credit else 0
  }

  /** What the lines of an entry add to an account. */
  function Net(e: Entry, account: nat): int { Total(|e.lines|, NetOn(e.lines, account)) }

  /** How many reversals lie between an entry and the one that starts its chain. */
  function Depth(entries: seq<Entry>, id: nat): nat
    decreases id
  {
    if id < |entries| && entries[id].reversalOf.Some? && entries[id].reversalOf.value < id
    then Depth(entries, entries[id].reversalOf.value) + 1 else 0
  }

  predicate Even(n: nat) { n % 2 == 0 }

  /** Everything ever posted, reversals and reversed entries included. */
  function BookedAt(entries: seq<Entry>, account: nat): nat -> int {
    (e: nat) => if e < |entries| && entries[e].status != Draft then Net(entries[e], account) else 0
  }
  /** What is in force: posted entries that are not themselves undoing another. */
  function InForceAt(entries: seq<Entry>, account: nat): nat -> int {
    (e: nat) => if e < |entries| && entries[e].status == Posted && Even(Depth(entries, e)) then Net(entries[e], account) else 0
  }
  /** What the reconciliation report counts: posted entries only. */
  function ReportedAt(entries: seq<Entry>, account: nat): nat -> int {
    (e: nat) => if e < |entries| && entries[e].status == Posted then Net(entries[e], account) else 0
  }
  /** Posted entries that undo another. */
  function UndoingAt(entries: seq<Entry>, account: nat): nat -> int {
    (e: nat) => if e < |entries| && entries[e].status == Posted && !Even(Depth(entries, e)) then Net(entries[e], account) else 0
  }

  // ---------------------------------------------------------------- the reconciliation report

  function DebitOn(lines: seq<Line>, account: nat): nat -> int {
    (i: nat) => if i < |lines| && lines[i].account == account then lines[i].debit else 0
  }
  function CreditOn(lines: seq<Line>, account: nat): nat -> int {
    (i: nat) => if i < |lines| && lines[i].account == account then lines[i].credit else 0
  }
  function EntryDebits(entries: seq<Entry>, account: nat): nat -> int {
    (e: nat) => if e < |entries| && entries[e].status == Posted then Total(|entries[e].lines|, DebitOn(entries[e].lines, account)) else 0
  }
  function EntryCredits(entries: seq<Entry>, account: nat): nat -> int {
    (e: nat) => if e < |entries| && entries[e].status == Posted then Total(|entries[e].lines|, CreditOn(entries[e].lines, account)) else 0
  }
  function ReportDebit(entries: seq<Entry>): nat -> int { (a: nat) => Total(|entries|, EntryDebits(entries, a)) }
  function ReportCredit(entries: seq<Entry>): nat -> int { (a: nat) => Total(|entries|, EntryCredits(entries, a)) }

  // ---------------------------------------------------------------- invariants

  /** Every entry balances and lies in its period; a period that is closed holds no draft. */
  predicate EntryOk(l: Ledger, e: Entry) {
    && Balanced(e.lines)
    && (forall i :: 0 <= i < |e.lines| ==> OneSided(e.lines[i]) && e.lines[i].account < l.accounts)
    && e.period < |l.periods| && WithinPeriod(l.periods[e.period], e.date)
    && (e.status == Draft ==> !l.periods[e.period].closed)
  }

  predicate EntriesOk(l: Ledger) { forall e :: 0 <= e < |l.entries| ==> EntryOk(l, l.entries[e]) }

  /** A reversal names an earlier entry, carries its lines exchanged, and is the only one to do so;
      an entry is REVERSED exactly when it has a reversal. */
  predicate ReversalsOk(entries: seq<Entry>) {
    && (forall e :: 0 <= e < |entries| && entries[e].reversalOf.Some? ==>
          && entries[e].reversalOf.value < e && entries[e].status != Draft
          && entries[e].lines == Swapped(entries[entries[e].reversalOf.value].lines))
    && (forall e, f :: 0 <= e < f < |entries| && entries[e].reversalOf.Some? ==> entries[e].reversalOf != entries[f].reversalOf)
    && (forall e :: 0 <= e < |entries| ==> (entries[e].status == Reversed <==> HasReversal(entries, e)))
  }

  predicate Unrepeated(entries: seq<Entry>) {
    forall e, f :: 0 <= e < f < |entries| ==> entries[e].source != entries[f].source && entries[e].number != entries[f].number
  }

  predicate PoliciesOk(l: Ledger) {
    forall k :: k in l.policies ==> l.policies[k].debit < l.accounts && l.policies[k].credit < l.accounts && l.policies[k].debit != l.policies[k].credit
  }

  /** Over every account, all that was ever booked is what is in force. */
  ghost predicate NetsAgree(entries: seq<Entry>) {
    forall a: nat :: Total(|entries|, BookedAt(entries, a)) == Total(|entries|, InForceAt(entries, a))
  }

  ghost predicate LedgerInv(l: Ledger) {
    EntriesOk(l) && ReversalsOk(l.entries) && Unrepeated(l.entries) && PoliciesOk(l) && NetsAgree(l.entries)
  }
}
