/** Which entries and periods the ledger accepts, and what its report shows. */
module LedgerTerms {
  import opened Wrappers
  import opened Sums
  import opened GeneralLedger
  import opened LedgerProofs

  /** The period is open and the date lies in it. */
  predicate OpenOn(l: Ledger, period: nat, date: int) {
    period < |l.periods| && !l.periods[period].closed && l.periods[period].starts <= date && date <= l.periods[period].ends
  }

  predicate Unused(l: Ledger, number: EntryNumber, source: Source) {
    forall e :: 0 <= e < |l.entries| ==> l.entries[e].number != number && l.entries[e].source != source
  }

  /** A line that debits or credits a known account, but not both, with a positive amount. */
  predicate LineFits(l: Ledger, line: Line) {
    line.account < l.accounts && ((line.debit > 0 && line.credit == 0) || (line.debit == 0 && line.credit > 0))
  }

  /** The error of a draft that is refused. */
  function DraftError(l: Ledger, period: nat, number: EntryNumber, date: int, lines: seq<Line>): Error {
    if Debits(lines) <= 0 || Debits(lines) != Credits(lines) || !(forall i :: 0 <= i < |lines| ==> (lines[i].debit > 0) != (lines[i].credit > 0)) then BadRequest
    else if period >= |l.periods| then NotFound
    else if l.periods[period].closed then Conflict
    else if date < l.periods[period].starts || l.periods[period].ends < date then BadRequest
    else if !(forall i :: 0 <= i < |lines| ==> lines[i].account < l.accounts) then NotFound
    else Constraint
  }

  /** A draft is accepted exactly when it has lines, all of them fit, debits equal credits, the period is open
      on the date, and no other entry has its number or its source; it is added as an unposted entry. */
  lemma DraftExactly(l: Ledger, period: nat, number: EntryNumber, date: int, source: Source, lines: seq<Line>)
    requires forall i :: 0 <= i < |lines| ==> lines[i].debit >= 0 && lines[i].credit >= 0
    ensures var r := CreateEntry(l, period, number, date, source, lines);
      && (r.Success? <==>
            && lines != [] && Debits(lines) == Credits(lines) && (forall i :: 0 <= i < |lines| ==> LineFits(l, lines[i]))
            && OpenOn(l, period, date) && Unused(l, number, source))
      && (r.Success? ==> r.value == l.(entries := l.entries + [Entry(period, number, date, source, Draft, None, lines)]))
      && (r.Failure? ==> r.error == DraftError(l, period, number, date, lines))
  {
    if lines != [] && Debits(lines) == Credits(lines) && forall i :: 0 <= i < |lines| ==> LineFits(l, lines[i]) { FittingLinesCount(l, lines); }
  }

  lemma {:induction false} NoNegatives(n: nat, f: nat -> int)
    requires forall i: nat :: i < n ==> f(i) >= 0
    ensures Total(n, f) >= 0
  {
    if n > 0 { NoNegatives(n - 1, f); }
  }

  lemma FittingLinesCount(l: Ledger, lines: seq<Line>)
    requires lines != [] && Debits(lines) == Credits(lines) && forall i :: 0 <= i < |lines| ==> LineFits(l, lines[i])
    ensures Debits(lines) > 0
  {
    NoNegatives(|lines| - 1, DebitAt(lines));
    NoNegatives(|lines| - 1, CreditAt(lines));
  }

  /** In a sound ledger an entry can be posted exactly while it is a draft. */
  lemma PostingExactly(l: Ledger, id: nat)
    requires EntriesOk(l)
    ensures var r := PostEntry(l, id);
      && (r.Success? <==> id < |l.entries| && l.entries[id].status == Draft)
      && (r.Failure? ==> r.error == if id < |l.entries| then Conflict else NotFound)
      && (r.Success? ==> r.value == l.(entries := l.entries[id := l.entries[id].(status := Posted)]))
  {
    if id < |l.entries| && l.entries[id].status == Draft { DraftsCanBePosted(l, id); }
  }

  /** A posted entry that reverses this one. */
  predicate PostedReversal(entries: seq<Entry>, id: nat, e: nat) {
    e < |entries| && entries[e].status == Posted && entries[e].reversalOf == Some(id)
  }

  /** What the trigger on updates refuses, whatever the service asks for: posting an unbalanced entry, or one
      whose period is not open on its date; any change of a posted entry but to REVERSED once a posted entry
      reverses it; and any change of a reversed one. */
  lemma TriggerRefuses(l: Ledger, id: nat, status: EntryStatus)
    requires id < |l.entries|
    ensures var e := l.entries[id];
      !UpdateAllowed(l, id, status) <==>
        || (e.status == Draft && status == Posted && (Debits(e.lines) != Credits(e.lines) || Debits(e.lines) <= 0 || !OpenOn(l, e.period, e.date)))
        || (e.status == Posted && (status != Reversed || forall r: nat :: !PostedReversal(l.entries, id, r)))
        || e.status == Reversed
  {
    assert forall r: nat :: PostedReversal(l.entries, id, r) <==> r < |l.entries| && l.entries[r].reversalOf == Some(id) && l.entries[r].status == Posted;
  }

  /** In a sound ledger an entry can be reversed exactly while it is posted, into an open period on a day of
      that period, under a new number. A posted entry that takes every account back is added, and the
      original becomes REVERSED. */
  lemma ReversalExactly(l: Ledger, id: nat, period: nat, number: EntryNumber, date: int)
    requires LedgerInv(l)
    ensures var r := ReverseEntry(l, id, period, number, date);
      && (r.Success? <==> id < |l.entries| && l.entries[id].status == Posted && OpenOn(l, period, date) && Unused(l, number, Reversal(id)))
      && (r.Success? ==> ReversalAdded(l, r.value, id, period, number, date))
      && (r.Failure? ==> r.error == ReversalError(l, id, period, date))
  {
    hide NetsAgree, Net;
    if id < |l.entries| && OpenOn(l, period, date) { ReversalOk(l, id, period, number, date); }
    if ReverseEntry(l, id, period, number, date).Success? {
      forall account: nat ensures Net(ReversalEntry(l, id, period, number, date), account) == -Net(l.entries[id], account) {
        SwappedNet(l.entries[id], ReversalEntry(l, id, period, number, date), account);
      }
    }
  }

  function ReversalError(l: Ledger, id: nat, period: nat, date: int): Error {
    if id >= |l.entries| then NotFound
    else if l.entries[id].status != Posted || period >= |l.periods| || l.periods[period].closed then Conflict
    else if !OpenOn(l, period, date) then BadRequest else Constraint
  }

  ghost predicate ReversalAdded(l: Ledger, e: Ledger, id: nat, period: nat, number: EntryNumber, date: int)
    requires id < |l.entries|
  {
    var n := |l.entries|;
    && e == l.(entries := e.entries) && |e.entries| == n + 1
    && (forall i :: 0 <= i < n ==> e.entries[i] == if i == id then l.entries[i].(status := Reversed) else l.entries[i])
    && e.entries[n] == Entry(period, number, date, Reversal(id), Posted, Some(id), e.entries[n].lines)
    && forall account: nat :: Net(e.entries[n], account) == -Net(l.entries[id], account)
  }

  /** A period can be closed exactly while it is open and holds no draft, and then it alone is closed. */
  lemma ClosingExactly(l: Ledger, period: nat)
    ensures var r := ClosePeriod(l, period);
      && (r.Success? <==> period < |l.periods| && !l.periods[period].closed
                          && forall e :: 0 <= e < |l.entries| && l.entries[e].period == period ==> l.entries[e].status != Draft)
      && (r.Failure? ==> r.error == if period < |l.periods| then Conflict else NotFound)
      && (r.Success? ==>
            && r.value == l.(periods := r.value.periods) && |r.value.periods| == |l.periods|
            && forall p :: 0 <= p < |l.periods| ==>
                 r.value.periods[p] == if p == period then l.periods[p].(closed := true) else l.periods[p])
  {}

  /** New periods are open and run forwards; a policy names two different known accounts. */
  lemma SetupExactly(l: Ledger, starts: int, ends: int, kind: EventKind, debit: nat, credit: nat)
    ensures AddPeriod(l, starts, ends)
      == if starts <= ends then Success(l.(periods := l.periods + [Period(starts, ends, false)])) else Failure(BadRequest)
    ensures Configure(l, kind, debit, credit).Success? <==> debit < l.accounts && credit < l.accounts && debit != credit
    ensures Configure(l, kind, debit, credit).Success? ==>
      Configure(l, kind, debit, credit).value == l.(policies := l.policies[kind := Policy(debit, credit)])
    ensures Configure(l, kind, debit, credit).Failure? ==>
      Configure(l, kind, debit, credit).error == if debit == credit then BadRequest else NotFound
  {}

  // ---------------------------------------------------------------- the report

  lemma {:induction false} TotalDifference(n: nat, f: nat -> int, g: nat -> int, h: nat -> int)
    requires forall i: nat :: i < n ==> h(i) == f(i) - g(i)
    ensures Total(n, h) == Total(n, f) - Total(n, g)
  {
    if n > 0 { TotalDifference(n - 1, f, g, h); }
  }

  /** Over every account the report's debits less its credits are the net of the posted entries. */
  lemma ReportNets(entries: seq<Entry>, account: nat)
    ensures ReportDebit(entries)(account) - ReportCredit(entries)(account) == Total(|entries|, ReportedAt(entries, account))
  {
    forall e: nat | e < |entries| ensures ReportedAt(entries, account)(e) == EntryDebits(entries, account)(e) - EntryCredits(entries, account)(e) {
      var lines := entries[e].lines;
      TotalDifference(|lines|, DebitOn(lines, account), CreditOn(lines, account), NetOn(lines, account));
    }
    TotalDifference(|entries|, EntryDebits(entries, account), EntryCredits(entries, account), ReportedAt(entries, account));
  }
}
