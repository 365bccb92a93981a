/** The books always balance, reversals cancel, and closed periods stay as they are. */
module LedgerProofs {
  import opened Wrappers
  import opened Sums
  import opened GeneralLedger

  // ---------------------------------------------------------------- exchanging sides

  lemma {:induction false} TotalNegated(n: nat, f: nat -> int, g: nat -> int)
    requires forall i: nat :: i < n ==> g(i) == -f(i)
    ensures Total(n, g) == -Total(n, f)
  {
    if n > 0 { TotalNegated(n - 1, f, g); }
  }

  lemma SwappedBalances(lines: seq<Line>)
    requires Balanced(lines)
    ensures Balanced(Swapped(lines))
  {
    TotalCong(|lines|, DebitAt(Swapped(lines)), CreditAt(lines));
    TotalCong(|lines|, CreditAt(Swapped(lines)), DebitAt(lines));
  }

  lemma SwappedNet(e: Entry, r: Entry, account: nat)
    requires r.lines == Swapped(e.lines)
    ensures Net(r, account) == -Net(e, account)
  {
    TotalNegated(|e.lines|, NetOn(e.lines, account), NetOn(r.lines, account));
  }

  // ---------------------------------------------------------------- chains of reversals

  /** The chain position of an entry depends on the reversal links up to it only. */
  lemma {:induction false} DepthStable(entries: seq<Entry>, after: seq<Entry>, id: nat)
    requires id < |entries| <= |after|
    requires forall e :: 0 <= e < |entries| ==> after[e].reversalOf == entries[e].reversalOf
    ensures Depth(after, id) == Depth(entries, id)
    decreases id
  {
    if entries[id].reversalOf.Some? && entries[id].reversalOf.value < id {
      DepthStable(entries, after, entries[id].reversalOf.value);
    }
  }

  /** A chain lists entries each of which reverses the one before. */
  predicate Chain(entries: seq<Entry>, ids: seq<nat>) {
    && ids != [] && (forall k :: 0 <= k < |ids| ==> ids[k] < |entries|)
    && (forall k :: 0 < k < |ids| ==> entries[ids[k]].reversalOf == Some(ids[k - 1]))
  }

  function ChainAt(entries: seq<Entry>, ids: seq<nat>, account: nat): nat -> int {
    (k: nat) => if k < |ids| && ids[k] < |entries| then Net(entries[ids[k]], account) else 0
  }

  lemma {:induction false} ChainAlternates(entries: seq<Entry>, ids: seq<nat>, account: nat, k: nat)
    requires ReversalsOk(entries) && Chain(entries, ids) && k < |ids|
    ensures Net(entries[ids[k]], account) == if Even(k) then Net(entries[ids[0]], account) else -Net(entries[ids[0]], account)
  {
    if k > 0 {
      ChainAlternates(entries, ids, account, k - 1);
      assert entries[ids[k]].reversalOf == Some(ids[k - 1]);
      SwappedNet(entries[ids[k - 1]], entries[ids[k]], account);
    }
  }

  /** Over any account, a chain of even length adds nothing and one of odd length adds its first entry. */
  lemma {:induction false} ChainNet(entries: seq<Entry>, ids: seq<nat>, account: nat, n: nat)
    requires ReversalsOk(entries) && Chain(entries, ids) && n <= |ids|
    ensures Total(n, ChainAt(entries, ids, account)) == if Even(n) then 0 else Net(entries[ids[0]], account)
  {
    hide ReversalsOk, Net;
    if n > 0 {
      ChainNet(entries, ids, account, n - 1);
      ChainAlternates(entries, ids, account, n - 1);
    }
  }

  /** Reversal links only lead back: a chain never returns to an entry, and every entry of a
      chain but the last is REVERSED while none is a draft. */
  lemma {:induction false} ChainsAscend(entries: seq<Entry>, ids: seq<nat>, j: nat, k: nat)
    requires ReversalsOk(entries) && Chain(entries, ids) && j < k < |ids|
    ensures ids[j] < ids[k] && entries[ids[j]].status == Reversed && entries[ids[k]].status != Draft
  {
    assert entries[ids[k]].reversalOf == Some(ids[k - 1]);
    assert entries[ids[j + 1]].reversalOf == Some(ids[j]);
    assert HasReversal(entries, ids[j]);
    if j < k - 1 { ChainsAscend(entries, ids, j, k - 1); }
  }

  // ---------------------------------------------------------------- drafting and posting

  lemma DraftKeepsReversals(entries: seq<Entry>, draft: Entry)
    requires ReversalsOk(entries) && draft.status == Draft && draft.reversalOf.None?
    ensures ReversalsOk(entries + [draft])
  {
    var after, n := entries + [draft], |entries|;
    forall i | 0 <= i <= n ensures HasReversal(after, i) <==> i < n && HasReversal(entries, i) {
      if i < n && HasReversal(entries, i) { var j :| 0 <= j < n && entries[j].reversalOf == Some(i); assert after[j].reversalOf == Some(i); }
      if HasReversal(after, i) { var j :| 0 <= j < |after| && after[j].reversalOf == Some(i); assert entries[j].reversalOf == Some(i); }
    }
  }

  lemma CreateKeepsEntries(l: Ledger, period: nat, number: EntryNumber, date: int, source: Source, lines: seq<Line>)
    requires EntriesOk(l) && Unrepeated(l.entries) && CreateEntry(l, period, number, date, source, lines).Success?
    ensures var e := CreateEntry(l, period, number, date, source, lines).value; EntriesOk(e) && Unrepeated(e.entries)
  {
    var e := CreateEntry(l, period, number, date, source, lines).value;
    forall i | 0 <= i < |l.entries| ensures EntryOk(e, e.entries[i]) { assert EntryOk(l, l.entries[i]); }
  }

  /** Adding a draft, or posting one, changes neither side of the agreement except alike. */
  lemma DraftKeepsNets(entries: seq<Entry>, draft: Entry)
    requires NetsAgree(entries) && draft.status == Draft
    ensures NetsAgree(entries + [draft])
  {
    var after, n := entries + [draft], |entries|;
    forall a: nat ensures Total(n + 1, BookedAt(after, a)) == Total(n + 1, InForceAt(after, a)) {
      forall e: nat | e < n ensures InForceAt(after, a)(e) == InForceAt(entries, a)(e) { DepthStable(entries, after, e); }
      TotalCong(n, BookedAt(entries, a), BookedAt(after, a));
      TotalCong(n, InForceAt(entries, a), InForceAt(after, a));
    }
  }

  lemma PostingKeepsNets(entries: seq<Entry>, id: nat)
    requires NetsAgree(entries) && ReversalsOk(entries) && id < |entries| && entries[id].status == Draft
    ensures NetsAgree(entries[id := entries[id].(status := Posted)])
  {
    var after, n := entries[id := entries[id].(status := Posted)], |entries|;
    forall a: nat ensures Total(n, BookedAt(after, a)) == Total(n, InForceAt(after, a)) {
      forall e: nat | e < n && e != id ensures InForceAt(after, a)(e) == InForceAt(entries, a)(e) { DepthStable(entries, after, e); }
      DepthStable(entries, after, id);
      TotalChange(n, id, BookedAt(entries, a), BookedAt(after, a));
      TotalChange(n, id, InForceAt(entries, a), InForceAt(after, a));
    }
  }

  /** In every reachable ledger a draft can be posted: its period is still open, although the
      request never looks at the period and only the trigger does. */
  lemma DraftsCanBePosted(l: Ledger, id: nat)
    requires EntriesOk(l) && id < |l.entries| && l.entries[id].status == Draft
    ensures PostEntry(l, id) == Success(l.(entries := l.entries[id := l.entries[id].(status := Posted)]))
  {
    assert EntryOk(l, l.entries[id]);
  }

  lemma PostKeepsEntries(l: Ledger, id: nat)
    requires EntriesOk(l) && ReversalsOk(l.entries) && Unrepeated(l.entries) && PostEntry(l, id).Success?
    ensures var e := PostEntry(l, id).value; EntriesOk(e) && ReversalsOk(e.entries) && Unrepeated(e.entries)
  {
    var e := PostEntry(l, id).value;
    forall i | 0 <= i < |e.entries| ensures EntryOk(e, e.entries[i]) { assert EntryOk(l, l.entries[i]); }
    SameReversals(l.entries, e.entries);
  }

  lemma SameReversals(entries: seq<Entry>, after: seq<Entry>)
    requires |after| == |entries| && forall e :: 0 <= e < |entries| ==> after[e].reversalOf == entries[e].reversalOf
    ensures forall i: nat :: HasReversal(after, i) <==> HasReversal(entries, i)
  {
    forall i: nat ensures HasReversal(after, i) <==> HasReversal(entries, i) {
      if HasReversal(entries, i) { var j :| 0 <= j < |entries| && entries[j].reversalOf == Some(i); assert after[j].reversalOf == Some(i); }
      if HasReversal(after, i) { var j :| 0 <= j < |after| && after[j].reversalOf == Some(i); assert entries[j].reversalOf == Some(i); }
    }
  }

  // ---------------------------------------------------------------- reversing

  lemma ReversalOk(l: Ledger, id: nat, period: nat, number: EntryNumber, date: int)
    requires EntriesOk(l) && id < |l.entries| && period < |l.periods| && !l.periods[period].closed
    requires WithinPeriod(l.periods[period], date)
    ensures EntryOk(l, ReversalEntry(l, id, period, number, date)) && PostingAllowed(l, ReversalEntry(l, id, period, number, date))
  {
    assert EntryOk(l, l.entries[id]);
    SwappedBalances(l.entries[id].lines);
  }

  lemma ReverseKeepsEntries(l: Ledger, id: nat, period: nat, number: EntryNumber, date: int)
    requires EntriesOk(l) && Unrepeated(l.entries) && ReverseEntry(l, id, period, number, date).Success?
    ensures var e := ReverseEntry(l, id, period, number, date).value; EntriesOk(e) && Unrepeated(e.entries)
  {
    var e := ReverseEntry(l, id, period, number, date).value;
    ReversalOk(l, id, period, number, date);
    forall i | 0 <= i < |l.entries| ensures EntryOk(e, e.entries[i]) { assert EntryOk(l, l.entries[i]); }
  }

  predicate Undoes(entries: seq<Entry>, id: nat, reversal: Entry) {
    && id < |entries| && entries[id].status == Posted
    && reversal.status == Posted && reversal.reversalOf == Some(id) && reversal.lines == Swapped(entries[id].lines)
  }

  function WithReversal(entries: seq<Entry>, id: nat, reversal: Entry): seq<Entry>
    requires id < |entries|
  {
    entries[id := entries[id].(status := Reversed)] + [reversal]
  }

  lemma ReversedAfter(entries: seq<Entry>, id: nat, reversal: Entry)
    requires Undoes(entries, id, reversal)
    ensures forall i: nat :: HasReversal(WithReversal(entries, id, reversal), i) <==> i == id || HasReversal(entries, i)
  {
    var after, n := WithReversal(entries, id, reversal), |entries|;
    forall i: nat ensures HasReversal(after, i) <==> i == id || HasReversal(entries, i) {
      if HasReversal(entries, i) { var j :| 0 <= j < n && entries[j].reversalOf == Some(i); assert after[j].reversalOf == Some(i); }
      if i == id { assert after[n].reversalOf == Some(i); }
      if HasReversal(after, i) && i != id {
        var j :| 0 <= j < |after| && after[j].reversalOf == Some(i);
        assert entries[j].reversalOf == Some(i);
      }
    }
  }

  lemma ReversalKeepsReversals(entries: seq<Entry>, id: nat, reversal: Entry)
    requires ReversalsOk(entries) && Undoes(entries, id, reversal) && !HasReversal(entries, id)
    ensures ReversalsOk(WithReversal(entries, id, reversal))
  {
    var after, n := WithReversal(entries, id, reversal), |entries|;
    ReversedAfter(entries, id, reversal);
    assert !HasReversal(entries, n);
    forall e | 0 <= e < n && entries[e].reversalOf.Some? ensures entries[e].reversalOf != Some(id) {
      assert entries[e].reversalOf == Some(id) ==> HasReversal(entries, id);
    }
  }

  lemma OthersStayInForce(entries: seq<Entry>, id: nat, reversal: Entry, a: nat, e: nat)
    requires Undoes(entries, id, reversal) && e < |entries|
    ensures var after := WithReversal(entries, id, reversal);
      && InForceAt(after, a)(e) == (if e == id then 0 else InForceAt(entries, a)(e))
      && BookedAt(after, a)(e) == BookedAt(entries, a)(e)
  {
    DepthStable(entries, WithReversal(entries, id, reversal), e);
  }

  lemma {:induction false} LastEntryTerms(entries: seq<Entry>, id: nat, reversal: Entry, a: nat)
    requires Undoes(entries, id, reversal)
    ensures var after, n := WithReversal(entries, id, reversal), |entries|;
      && BookedAt(after, a)(n) == -Net(entries[id], a)
      && InForceAt(after, a)(n) == if Even(Depth(entries, id)) then 0 else -Net(entries[id], a)
  {
    DepthStable(entries, WithReversal(entries, id, reversal), id);
    SwappedNet(entries[id], reversal, a);
  }

  lemma ReversalKeepsNets(entries: seq<Entry>, id: nat, reversal: Entry)
    requires NetsAgree(entries) && Undoes(entries, id, reversal)
    ensures NetsAgree(WithReversal(entries, id, reversal))
  {
    var after, n := WithReversal(entries, id, reversal), |entries|;
    forall a: nat ensures Total(n + 1, BookedAt(after, a)) == Total(n + 1, InForceAt(after, a)) {
      forall e: nat | e < n
        ensures InForceAt(after, a)(e) == (if e == id then 0 else InForceAt(entries, a)(e))
        ensures BookedAt(after, a)(e) == BookedAt(entries, a)(e)
      {
        OthersStayInForce(entries, id, reversal, a, e);
      }
      LastEntryTerms(entries, id, reversal, a);
      TotalCong(n, BookedAt(entries, a), BookedAt(after, a));
      TotalChange(n, id, InForceAt(entries, a), InForceAt(after, a));
    }
  }

  // ---------------------------------------------------------------- all requests

  lemma CreateKeepsInv(l: Ledger, period: nat, number: EntryNumber, date: int, source: Source, lines: seq<Line>)
    requires LedgerInv(l) && CreateEntry(l, period, number, date, source, lines).Success?
    ensures LedgerInv(CreateEntry(l, period, number, date, source, lines).value)
  {
    hide Balanced, OneSided;
    CreateKeepsEntries(l, period, number, date, source, lines);
    DraftKeepsReversals(l.entries, Entry(period, number, date, source, Draft, None, lines));
    DraftKeepsNets(l.entries, Entry(period, number, date, source, Draft, None, lines));
  }

  lemma PostKeepsInv(l: Ledger, id: nat)
    requires LedgerInv(l) && PostEntry(l, id).Success?
    ensures LedgerInv(PostEntry(l, id).value)
  {
    PostKeepsEntries(l, id);
    PostingKeepsNets(l.entries, id);
  }

  lemma ReverseKeepsInv(l: Ledger, id: nat, period: nat, number: EntryNumber, date: int)
    requires LedgerInv(l) && ReverseEntry(l, id, period, number, date).Success?
    ensures LedgerInv(ReverseEntry(l, id, period, number, date).value)
  {
    ReverseKeepsEntries(l, id, period, number, date);
    ReversalKeepsReversals(l.entries, id, ReversalEntry(l, id, period, number, date));
    ReversalKeepsNets(l.entries, id, ReversalEntry(l, id, period, number, date));
  }

  lemma CloseKeepsInv(l: Ledger, period: nat)
    requires LedgerInv(l) && ClosePeriod(l, period).Success?
    ensures LedgerInv(ClosePeriod(l, period).value)
  {
    var e := ClosePeriod(l, period).value;
    forall i | 0 <= i < |e.entries| ensures EntryOk(e, e.entries[i]) { assert EntryOk(l, l.entries[i]); }
  }

  lemma SetupKeepsInv(l: Ledger, e: Ledger)
    requires LedgerInv(l) && e.entries == l.entries && l.accounts <= e.accounts && l.periods <= e.periods && PoliciesOk(e)
    ensures LedgerInv(e)
  {
    forall i | 0 <= i < |e.entries| ensures EntryOk(e, e.entries[i]) { assert EntryOk(l, l.entries[i]); }
  }

  // ---------------------------------------------------------------- the reconciliation report

  /** Over any account the report shows what is in force plus the posted entries that undo others:
      a reversed entry drops out of it while its reversal stays in. */
  lemma ReportedBalance(l: Ledger, account: nat)
    requires LedgerInv(l)
    ensures Total(|l.entries|, ReportedAt(l.entries, account))
      == Total(|l.entries|, BookedAt(l.entries, account)) + Total(|l.entries|, UndoingAt(l.entries, account))
  {
    TotalAdd(|l.entries|, InForceAt(l.entries, account), UndoingAt(l.entries, account), ReportedAt(l.entries, account));
  }

  /** The report's balance of an account is that of the books exactly when the posted reversals
      add nothing to the account. */
  lemma ReportCorrectExactly(l: Ledger, account: nat)
    requires LedgerInv(l)
    ensures Total(|l.entries|, ReportedAt(l.entries, account)) == Total(|l.entries|, BookedAt(l.entries, account))
      <==> Total(|l.entries|, UndoingAt(l.entries, account)) == 0
  {
    ReportedBalance(l, account);
  }

  /** An entry's debits, or credits, spread over the accounts. */
  lemma {:induction false} SpreadOverAccounts(lines: seq<Line>, accounts: nat)
    requires forall i :: 0 <= i < |lines| ==> lines[i].account < accounts
    ensures Total(accounts, (a: nat) => Total(|lines|, DebitOn(lines, a))) == Debits(lines)
    ensures Total(accounts, (a: nat) => Total(|lines|, CreditOn(lines, a))) == Credits(lines)
  {
    var n := |lines|;
    var debit := (i: nat, a: nat) => DebitOn(lines, a)(i);
    var credit := (i: nat, a: nat) => CreditOn(lines, a)(i);
    forall i: nat | i < n
      ensures DebitAt(lines)(i) == Total(accounts, (a: nat) => debit(i, a))
      ensures CreditAt(lines)(i) == Total(accounts, (a: nat) => credit(i, a))
    {
      forall a: nat | a < accounts && a != lines[i].account ensures debit(i, a) == 0 == credit(i, a) {
        assert DebitOn(lines, a)(i) == 0 == CreditOn(lines, a)(i);
      }
      TotalOne(accounts, (a: nat) => debit(i, a), lines[i].account);
      TotalOne(accounts, (a: nat) => credit(i, a), lines[i].account);
      assert DebitOn(lines, lines[i].account)(i) == lines[i].debit && CreditOn(lines, lines[i].account)(i) == lines[i].credit;
    }
    forall a: nat | a < accounts
      ensures Total(n, DebitOn(lines, a)) == Total(n, (i: nat) => debit(i, a))
      ensures Total(n, CreditOn(lines, a)) == Total(n, (i: nat) => credit(i, a))
    {
      TotalCong(n, DebitOn(lines, a), (i: nat) => debit(i, a));
      TotalCong(n, CreditOn(lines, a), (i: nat) => credit(i, a));
    }
    TotalSwap(n, accounts, debit, DebitAt(lines), (a: nat) => Total(n, DebitOn(lines, a)));
    TotalSwap(n, accounts, credit, CreditAt(lines), (a: nat) => Total(n, CreditOn(lines, a)));
  }

  function PostedAt(entries: seq<Entry>): nat -> int {
    (e: nat) => if e < |entries| && entries[e].status == Posted then Debits(entries[e].lines) else 0
  }

  /** In the report, debits over all accounts are what the posted entries debit, and so are credits. */
  lemma ReportBalances(l: Ledger)
    requires EntriesOk(l)
    ensures Total(l.accounts, ReportDebit(l.entries)) == Total(|l.entries|, PostedAt(l.entries))
    ensures Total(l.accounts, ReportCredit(l.entries)) == Total(|l.entries|, PostedAt(l.entries))
  {
    var n, m := |l.entries|, l.accounts;
    var debit := (e: nat, a: nat) => EntryDebits(l.entries, a)(e);
    var credit := (e: nat, a: nat) => EntryCredits(l.entries, a)(e);
    forall e: nat | e < n
      ensures PostedAt(l.entries)(e) == Total(m, (a: nat) => debit(e, a))
      ensures PostedAt(l.entries)(e) == Total(m, (a: nat) => credit(e, a))
    {
      EntrySpread(l, e);
      TotalCong(m, (a: nat) => EntryDebits(l.entries, a)(e), (a: nat) => debit(e, a));
      TotalCong(m, (a: nat) => EntryCredits(l.entries, a)(e), (a: nat) => credit(e, a));
    }
    forall a: nat | a < m
      ensures ReportDebit(l.entries)(a) == Total(n, (e: nat) => debit(e, a))
      ensures ReportCredit(l.entries)(a) == Total(n, (e: nat) => credit(e, a))
    {
      TotalCong(n, EntryDebits(l.entries, a), (e: nat) => debit(e, a));
      TotalCong(n, EntryCredits(l.entries, a), (e: nat) => credit(e, a));
    }
    TotalSwap(n, m, debit, PostedAt(l.entries), ReportDebit(l.entries));
    TotalSwap(n, m, credit, PostedAt(l.entries), ReportCredit(l.entries));
  }

  lemma EntrySpread(l: Ledger, e: nat)
    requires EntriesOk(l) && e < |l.entries|
    ensures Total(l.accounts, (a: nat) => EntryDebits(l.entries, a)(e)) == PostedAt(l.entries)(e)
    ensures Total(l.accounts, (a: nat) => EntryCredits(l.entries, a)(e)) == PostedAt(l.entries)(e)
  {
    var lines, m := l.entries[e].lines, l.accounts;
    assert EntryOk(l, l.entries[e]);
    SpreadOverAccounts(lines, m);
    forall a: nat | a < m
      ensures EntryDebits(l.entries, a)(e) == if l.entries[e].status == Posted then Total(|lines|, DebitOn(lines, a)) else 0
      ensures EntryCredits(l.entries, a)(e) == if l.entries[e].status == Posted then Total(|lines|, CreditOn(lines, a)) else 0
    {}
    if l.entries[e].status == Posted {
      TotalCong(m, (a: nat) => EntryDebits(l.entries, a)(e), (a: nat) => Total(|lines|, DebitOn(lines, a)));
      TotalCong(m, (a: nat) => EntryCredits(l.entries, a)(e), (a: nat) => Total(|lines|, CreditOn(lines, a)));
    } else {
      TotalZero(m, (a: nat) => EntryDebits(l.entries, a)(e));
      TotalZero(m, (a: nat) => EntryCredits(l.entries, a)(e));
    }
  }
}
