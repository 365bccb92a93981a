/** Journal entries, their posting and reversal, and the queue of accounting events. */
module AccountingService {
  import opened Wrappers
  import opened Idempotency
  import Ledgers = GeneralLedger
  import opened Backend
  import opened BackendInvariants
  import PostingProofs
  import opened Database

  class Accounting {
    const db: Tables

    constructor (db: Tables)
      ensures this.db == db
    {
      this.db := db;
    }

    // -------------------------------------------------------------- entries

    /** The sums of both sides are compared, each line is checked, and the entry is drafted. */
    method CreateEntry(period: nat, number: Ledgers.EntryNumber, date: int, source: Ledgers.Source, lines: seq<Ledgers.Line>) returns (r: Result<nat>)
      modifies db`entries
      ensures match Ledgers.CreateEntry(old(db.Ledger()), period, number, date, source, lines)
        case Failure(error) => r == Failure(error) && db.entries == old(db.entries)
        case Success(ledger) => r == Success(|old(db.entries)|) && db.Ledger() == ledger
    {
      var debits, credits := Ledgers.Debits(lines), Ledgers.Credits(lines);
      if debits <= 0 || debits != credits { return Failure(BadRequest); }
      if exists i :: 0 <= i < |lines| && (lines[i].debit > 0) == (lines[i].credit > 0) { return Failure(BadRequest); }
      if period >= |db.periods| { return Failure(NotFound); }
      if db.periods[period].closed { return Failure(Conflict); }
      if date < db.periods[period].starts || date > db.periods[period].ends { return Failure(BadRequest); }
      if exists i :: 0 <= i < |lines| && lines[i].account >= db.accounts { return Failure(NotFound); }
      if Ledgers.NumberTaken(db.entries, number) || Ledgers.SourceTaken(db.entries, source) { return Failure(Constraint); }
      if exists i :: 0 <= i < |lines| && !Ledgers.OneSided(lines[i]) { return Failure(Constraint); }
      db.entries := db.entries + [Ledgers.Entry(period, number, date, source, Ledgers.Draft, None, lines)];
      return Success(|db.entries| - 1);
    }

    /** Posting looks at the status only; the rest is the trigger's business. */
    method PostEntry(id: nat) returns (r: Result<nat>)
      modifies db`entries
      ensures match Ledgers.PostEntry(old(db.Ledger()), id)
        case Failure(error) => r == Failure(error) && db.entries == old(db.entries)
        case Success(ledger) => r == Success(id) && db.Ledger() == ledger
    {
      if id >= |db.entries| { return Failure(NotFound); }
      if db.entries[id].status != Ledgers.Draft { return Failure(Conflict); }
      var ok := UpdateStatus(id, Ledgers.Posted);
      if !ok { return Failure(Constraint); }
      return Success(id);
    }

    /** The update of an entry's status under the trigger: a draft can be posted, a posted entry can only
        be marked as reversed once a posted entry reverses it, and a reversed one never changes. */
    method UpdateStatus(id: nat, status: Ledgers.EntryStatus) returns (ok: bool)
      requires id < |db.entries|
      modifies db`entries
      ensures ok == Ledgers.UpdateAllowed(old(db.Ledger()), id, status)
      ensures db.entries == if ok then old(db.entries)[id := old(db.entries)[id].(status := status)] else old(db.entries)
    {
      ok := Ledgers.UpdateAllowed(db.Ledger(), id, status);
      if ok { db.entries := db.entries[id := db.entries[id].(status := status)]; }
    }

    /** Drafting an entry makes it fit to be posted at once. */
    method DraftAndPost(period: nat, number: Ledgers.EntryNumber, date: int, source: Ledgers.Source, lines: seq<Ledgers.Line>) returns (r: Result<nat>)
      modifies db`entries
      ensures match Ledgers.CreateEntry(old(db.Ledger()), period, number, date, source, lines)
        case Failure(error) => r == Failure(error) && db.entries == old(db.entries)
        case Success(drafted) =>
          r == Success(|old(db.entries)|) && Ledgers.PostEntry(drafted, |old(db.entries)|) == Success(db.Ledger())
    {
      var draft :- CreateEntry(period, number, date, source, lines);
      assert Ledgers.PostingAllowed(db.Ledger(), db.entries[draft]);
      r := PostEntry(draft);
    }

    method CreateEntryRequest(period: nat, number: Ledgers.EntryNumber, date: int, source: Ledgers.Source, lines: seq<Ledgers.Line>, now: int)
      returns (r: Result<nat>)
      requires db.Valid() && WellFormed(DraftEntry(period, number, date, source, lines))
      modifies db
      ensures db.Valid() && Serves(old(db.State()), DraftEntry(period, number, date, source, lines), now, db.State(), r)
    {
      hide DbInv, Grows;
      ghost var before := db.State();
      r := CreateEntry(period, number, date, source, lines);
      PostingProofs.RequestKeeps(before, DraftEntry(period, number, date, source, lines), now);
    }

    method PostEntryRequest(id: nat, now: int) returns (r: Result<nat>)
      requires db.Valid()
      modifies db
      ensures db.Valid() && Serves(old(db.State()), PostDraft(id), now, db.State(), r)
    {
      hide DbInv, Grows;
      ghost var before := db.State();
      r := PostEntry(id);
      PostingProofs.RequestKeeps(before, PostDraft(id), now);
    }

    /** The reversal is drafted with debits and credits exchanged and posted; then the original is
        marked. */
    method WriteReversal(id: nat, period: nat, number: Ledgers.EntryNumber, date: int) returns (r: Result<nat>)
      modifies db`entries
      ensures match Ledgers.ReverseEntry(old(db.Ledger()), id, period, number, date)
        case Failure(error) => r == Failure(error)
        case Success(ledger) => r == Success(|old(db.entries)|) && db.Ledger() == ledger
    {
      if id >= |db.entries| { return Failure(NotFound); }
      var original := db.entries[id];
      if original.status != Ledgers.Posted { return Failure(Conflict); }
      if Ledgers.HasReversal(db.entries, id) { return Failure(Conflict); }
      if period >= |db.periods| || db.periods[period].closed { return Failure(Conflict); }
      if date < db.periods[period].starts || date > db.periods[period].ends { return Failure(BadRequest); }
      if Ledgers.NumberTaken(db.entries, number) || Ledgers.SourceTaken(db.entries, Ledgers.Reversal(id)) { return Failure(Constraint); }
      var lines := Ledgers.Swapped(original.lines);
      var reversal := |db.entries|;
      db.entries := db.entries + [Ledgers.Entry(period, number, date, Ledgers.Reversal(id), Ledgers.Draft, Some(id), lines)];
      var posted := UpdateStatus(reversal, Ledgers.Posted);
      if !posted { return Failure(Constraint); }
      assert db.entries[reversal].status == Ledgers.Posted && db.entries[reversal].reversalOf == Some(id);
      var marked := UpdateStatus(id, Ledgers.Reversed);
      assert marked;
      assert db.entries == old(db.entries)[id := original.(status := Ledgers.Reversed)] + [Ledgers.ReversalEntry(old(db.Ledger()), id, period, number, date)];
      return Success(reversal);
    }

    method ReverseEntry(id: nat, period: nat, number: Ledgers.EntryNumber, date: int, reason: string, key: Key, now: int) returns (r: Result<nat>)
      requires db.Valid()
      modifies db
      ensures db.Valid() && Serves(old(db.State()), UndoEntry(id, period, number, date, reason, key), now, db.State(), r)
      ensures Backend.ReverseEntry(old(db.State()), id, period, number, date, reason, key, now).Success? ==>
        r == Success(Backend.ReverseEntry(old(db.State()), id, period, number, date, reason, key, now).value.1)
    {
      hide DbInv, Serves, Backend.ReverseEntry;
      var saved := db.State();
      r := ReverseUnder(id, period, number, date, reason, key, now);
      if r.Failure? { db.Rollback(saved); }
      Undone(saved, id, period, number, date, reason, key, now, db.State(), r);
    }

    method ReverseUnder(id: nat, period: nat, number: Ledgers.EntryNumber, date: int, reason: string, key: Key, now: int) returns (r: Result<nat>)
      modifies db
      ensures match Backend.ReverseEntry(old(db.State()), id, period, number, date, reason, key, now)
        case Failure(error) => r == Failure(error)
        case Success(pair) => r == Success(pair.1) && db.State() == pair.0
    {
      hide Ledgers.ReverseEntry;
      var replay :- db.BeginOperation(ReverseEntries, key, EntryReversed(id, period, number, date, reason), now);
      if replay.Some? {
        return if replay.value.Some? && replay.value.value < |db.entries| then Success(replay.value.value) else Failure(Conflict);
      }
      var reversal :- WriteReversal(id, period, number, date);
      db.CompleteOperation(ReverseEntries, key, reversal);
      return Success(reversal);
    }

    method ClosePeriod(period: nat, now: int) returns (r: Result<nat>)
      requires db.Valid()
      modifies db
      ensures db.Valid() && Serves(old(db.State()), CloseFiscalPeriod(period), now, db.State(), r)
    {
      hide DbInv, Grows;
      ghost var before := db.State();
      r := Close(period);
      PostingProofs.RequestKeeps(before, CloseFiscalPeriod(period), now);
    }

    method Close(period: nat) returns (r: Result<nat>)
      modifies db`periods
      ensures match Ledgers.ClosePeriod(old(db.Ledger()), period)
        case Failure(error) => r == Failure(error) && db.periods == old(db.periods)
        case Success(ledger) => r == Success(period) && db.Ledger() == ledger
    {
      if period >= |db.periods| { return Failure(NotFound); }
      if db.periods[period].closed { return Failure(Conflict); }
      if Ledgers.HasDraft(db.entries, period) { return Failure(Conflict); }
      db.periods := db.periods[period := db.periods[period].(closed := true)];
      return Success(period);
    }

    // -------------------------------------------------------------- posting events

    /** Posts the entry of a business event. What fails here is undone by the caller's transaction,
        if it is undone at all: the idempotency record stays. */
    method PostBusinessEvent(kind: EventKind, row: nat, period: nat, number: Ledgers.EntryNumber, date: int, description: string,
                             key: Key, now: int) returns (r: Result<nat>)
      modifies db
      ensures match Post(old(db.State()), kind, row, period, number, date, description, key, now)
        case Posted(after, entry) => r == Success(entry) && db.State() == after
        case Stopped(error, records) => r == Failure(error) && db.State() == old(db.State()).(records := records)
    {
      hide PostFresh;
      var replay :- db.BeginOperation(PostEvents, key, EventPosted(kind, row, period, number, date, description), now);
      if replay.Some? {
        return if replay.value.Some? && replay.value.value < |db.entries| then Success(replay.value.value) else Failure(Conflict);
      }
      RecordsDoNotMatter(old(db.State()), kind, row, period, number, date, key, db.records);
      r := PostNew(kind, row, period, number, date, key);
    }

    method PostNew(kind: EventKind, row: nat, period: nat, number: Ledgers.EntryNumber, date: int, key: Key) returns (r: Result<nat>)
      requires (PostEvents, key) in db.records
      modifies db
      ensures match PostFresh(old(db.State()), kind, row, period, number, date, key, old(db.records))
        case Posted(after, entry) => r == Success(entry) && db.State() == after
        case Stopped(error, records) => r == Failure(error) && db.State() == old(db.State())
    {
      hide Ledgers.CreateEntry, Ledgers.PostEntry, Resolve;
      if kind !in db.policies { return Failure(Conflict); }
      var policy := db.policies[kind];
      var amount :- Resolve(db.State(), kind, row);
      var entry :- DraftAndPost(period, number, date, Ledgers.Business(kind, row), EventLines(policy, amount));
      db.CompleteOperation(PostEvents, key, entry);
      db.events := MarkPosted(db.events, kind, row, entry);
      return Success(entry);
    }

    method PostByHandRequest(kind: EventKind, row: nat, period: nat, number: Ledgers.EntryNumber, date: int, description: string,
                             key: Key, now: int) returns (r: Result<nat>)
      requires db.Valid()
      modifies db
      ensures db.Valid() && Serves(old(db.State()), PostByHand(kind, row, period, number, date, description, key), now, db.State(), r)
    {
      hide DbInv, Serves, Post;
      var saved := db.State();
      r := PostBusinessEvent(kind, row, period, number, date, description, key, now);
      if r.Failure? { db.Rollback(saved); }
      PostedByHand(saved, kind, row, period, number, date, description, key, now, db.State(), r);
    }

    /** Posts an event into the open period of the day it was created, unless it has its entry. */
    method ProcessEvent(id: nat, now: int) returns (r: Result<nat>)
      modifies db
      ensures match Backend.ProcessEvent(old(db.State()), id, now)
        case Posted(after, entry) => r == Success(entry) && db.State() == after
        case Stopped(error, records) => r == Failure(error) && db.State() == old(db.State()).(records := records)
    {
      if id >= |db.events| { return Failure(NotFound); }
      var event := db.events[id];
      if event.status == Done && event.entry.Some? { return Success(event.entry.value); }
      var period := Ledgers.OpenPeriodFor(db.periods, DayOf(event.createdAt), |db.periods|);
      if period.None? { return Failure(Conflict); }
      r := PostBusinessEvent(event.kind, event.row, period.value, Ledgers.Auto(id), DayOf(event.createdAt), "auto", ForEvent(id), now);
    }

    // -------------------------------------------------------------- the queue

    /** The claim of the oldest event that may be claimed. */
    method ClaimNext(worker: nat, locked: set<nat>, now: int) returns (claimed: Option<nat>)
      modifies db`events
      ensures claimed == NextEvent(old(db.events), locked, now, 0) && FirstInLine(old(db.events), locked, now, 0, claimed)
      ensures db.State() == if claimed.Some? then Claim(old(db.State()), claimed.value, worker, now) else old(db.State())
    {
      OldestFirst(db.events, locked, now, 0);
      claimed := NextEvent(db.events, locked, now, 0);
      if claimed.Some? {
        var event := db.events[claimed.value];
        db.events := db.events[claimed.value := event.(status := Waiting, attempts := event.attempts + 1, lease := Some(Lease(now, worker)))];
      }
    }

    /** The event fails; it may be claimed again after a minute for each attempt so far. */
    method MarkEventFailed(id: nat, now: int)
      modifies db`events
      ensures db.State() == MarkFailed(old(db.State()), id, now)
    {
      if id < |db.events| {
        var event := db.events[id];
        var minutes := if event.attempts < MAX_ATTEMPTS then event.attempts else MAX_ATTEMPTS;
        db.events := db.events[id := event.(status := Failed, lease := None, availableAt := now + minutes * 60000)];
      }
    }

    /** Claims and processes an event within one request. An error of the application marks the event
        as failed and is committed; an error of the database undoes everything. */
    method ProcessNextEvent(locked: set<nat>, user: nat, now: int) returns (r: Result<Option<nat>>)
      requires db.Valid()
      modifies db
      ensures db.Valid() && Serves(old(db.State()), Backend.ProcessNextEvent(user, locked), now, db.State(), r)
    {
      hide DbInv, Serves, Backend.ProcessEvent, NextEvent, FirstInLine;
      var saved := db.State();
      var claimed := ClaimNext(user, locked, now);
      if claimed.None? {
        r := Success(None);
      } else {
        var processed := ProcessEvent(claimed.value, now);
        if processed.Success? {
          r := Success(Some(processed.value));
        } else if processed.error == Constraint {
          db.Rollback(saved);
          r := Failure(Constraint);
        } else {
          MarkEventFailed(claimed.value, now);
          r := Success(None);
        }
      }
      ProcessedNext(saved, locked, user, now, db.State(), r);
    }

    method RequeueEventRequest(id: nat, now: int) returns (r: Result<nat>)
      requires db.Valid()
      modifies db
      ensures db.Valid() && Serves(old(db.State()), RequeueEvent(id), now, db.State(), r)
    {
      hide DbInv, Grows;
      ghost var before := db.State();
      if id >= |db.events| || db.events[id].status != Failed {
        r := Failure(Conflict);
      } else {
        db.events := db.events[id := db.events[id].(status := Waiting, attempts := 0, availableAt := now, lease := None)];
        r := Success(id);
      }
      PostingProofs.RequestKeeps(before, RequeueEvent(id), now);
    }
  }

  lemma RecordsDoNotMatter(db: Db, kind: EventKind, row: nat, period: nat, number: Ledgers.EntryNumber, date: int, key: Key, records: Records<Payload>)
    ensures PostFresh(db.(records := records), kind, row, period, number, date, key, records)
      == PostFresh(db, kind, row, period, number, date, key, records)
    ensures PostFresh(db, kind, row, period, number, date, key, records).Stopped? ==>
      PostFresh(db, kind, row, period, number, date, key, records).records == records
  {
    hide Ledgers.CreateEntry, Ledgers.PostEntry;
  }

  // ---------------------------------------------------------------- from what was done to what was asked for

  lemma Undone(db: Db, id: nat, period: nat, number: Ledgers.EntryNumber, date: int, reason: string, key: Key, now: int, e: Db, r: Result<nat>)
    requires DbInv(db)
    requires match Backend.ReverseEntry(db, id, period, number, date, reason, key, now)
      case Failure(error) => r == Failure(error) && e == db
      case Success(pair) => r == Success(pair.1) && e == pair.0
    ensures DbInv(e) && Serves(db, UndoEntry(id, period, number, date, reason, key), now, e, r)
    ensures r.Success? ==> r.value == Backend.ReverseEntry(db, id, period, number, date, reason, key, now).value.1
  {
    hide DbInv, Grows;
    PostingProofs.RequestKeeps(db, UndoEntry(id, period, number, date, reason, key), now);
  }

  lemma PostedByHand(db: Db, kind: EventKind, row: nat, period: nat, number: Ledgers.EntryNumber, date: int, description: string,
                     key: Key, now: int, e: Db, r: Result<nat>)
    requires DbInv(db)
    requires match Post(db, kind, row, period, number, date, description, key, now)
      case Posted(after, entry) => r == Success(entry) && e == after
      case Stopped(error, _) => r == Failure(error) && e == db
    ensures DbInv(e) && Serves(db, PostByHand(kind, row, period, number, date, description, key), now, e, r)
  {
    hide DbInv, Grows, Post;
    PostingProofs.RequestKeeps(db, PostByHand(kind, row, period, number, date, description, key), now);
  }

  lemma ProcessedNext(db: Db, locked: set<nat>, user: nat, now: int, e: Db, r: Result<Option<nat>>)
    requires DbInv(db)
    requires match ProcessNext(db, locked, user, now)
      case Failure(error) => r == Failure(error) && e == db
      case Success(after) => r.Success? && e == after
    ensures DbInv(e) && Serves(db, Backend.ProcessNextEvent(user, locked), now, e, r)
  {
    hide DbInv, Grows, ProcessNext;
    PostingProofs.RequestKeeps(db, Backend.ProcessNextEvent(user, locked), now);
  }
}
