/** Drawing up and finishing agents' settlements, statement by statement. */
module SettlementsService {
  import opened Wrappers
  import opened Sums
  import AP = SettlementProofs
  import Agencies = Settlements
  import Ledgers = GeneralLedger
  import opened Backend
  import opened BackendInvariants
  import PostingProofs
  import opened Database

  class SettlementDesk {
    const db: Tables

    constructor (db: Tables)
      ensures this.db == db
    {
      this.db := db;
    }

    /** Inserts a line for each commission; the unique index on commissions refuses a second line
        for one. */
    method InsertLines(settlement: nat, picked: set<nat>) returns (ok: bool)
      requires forall c :: c in picked ==> c < |db.commissions|
      modifies db`lines
      ensures ok <==> picked !! old(db.lines).Keys
      ensures ok ==> db.lines == old(db.lines) + map c | c in picked :: Agencies.Line(settlement, db.commissions[c].amount)
      ensures !ok ==> db.lines == old(db.lines)
    {
      ok := picked !! db.lines.Keys;
      if ok { db.lines := db.lines + map c | c in picked :: Agencies.Line(settlement, db.commissions[c].amount); }
    }

    /** Replaces the lines of a settlement by lines for these commissions; the unique index never
        objects. */
    method RedrawLines(s: nat, regenerated: bool, picked: set<nat>) returns (ok: bool)
      requires forall c :: c in picked ==> c < |db.commissions|
      modifies db`lines
      ensures ok <==> picked !! Kept(old(db.lines), s, regenerated).Keys
      ensures ok ==> db.lines == Kept(old(db.lines), s, regenerated) + map c | c in picked :: Agencies.Line(s, db.commissions[c].amount)
    {
      if regenerated { db.lines := map c | c in db.lines && db.lines[c].settlement != s :: db.lines[c]; }
      ok := InsertLines(s, picked);
    }

    method Generate(agent: nat, fromDay: int, toDay: int, now: int) returns (r: Result<nat>)
      requires db.Valid()
      modifies db
      ensures db.Valid() && Serves(old(db.State()), DrawUpSettlement(agent, fromDay, toDay), now, db.State(), r)
    {
      assert Agencies.LinesOk(db.Agency());
      hide DbInv, Serves, Agencies.LinesOk, Agencies.Generate;
      ghost var before := db.State();
      r := DrawUp(agent, fromDay, toDay);
      assert db.State() == before.(agency := db.Agency());
      DrawnUp(before, agent, fromDay, toDay, now, db.State(), r);
    }

    /** Two sums over the commissions of the period, the settlement's row, and its lines. */
    method DrawUp(agent: nat, fromDay: int, toDay: int) returns (r: Result<nat>)
      requires Agencies.LinesOk(db.Agency())
      modifies db`settlements, db`lines
      ensures match Agencies.Generate(old(db.Agency()), db.tickets, agent, fromDay, toDay)
        case Failure(error) => r == Failure(error) && db.Agency() == old(db.Agency())
        case Success(pair) => r == Success(pair.1) && db.Agency() == pair.0
    {
      hide Agencies.RedrawnLines, Agencies.FirstOverlap, Agencies.LinesOk, Kept;
      ghost var before := db.Agency();
      var from, to := fromDay * Agencies.DAY_MS, toDay * Agencies.DAY_MS + Agencies.DAY_MS - 1;
      if from > to { return Failure(BadRequest); }
      if agent >= |db.agents| { return Failure(NotFound); }
      var overlapping := Agencies.FirstOverlap(db.settlements, agent, from, to, 0);
      AP.FirstOverlapIs(db.settlements, agent, from, to, 0);
      if overlapping.Some? {
        var row := db.settlements[overlapping.value];
        if row.settled || row.from != from || row.to != to { return Failure(Conflict); }
      }
      var picked := set c | 0 <= c < |db.commissions| && Agencies.Picked(db.Agency(), agent, from, to, overlapping, c);
      var sales := Total(|db.commissions|, Agencies.PickedFare(db.Agency(), db.tickets, agent, from, to, overlapping));
      var commission := Total(|db.commissions|, Agencies.PickedAmount(db.Agency(), agent, from, to, overlapping));
      if sales < commission { return Failure(Constraint); }
      var row := Agencies.Settlement(agent, from, to, sales, commission, sales - commission, false);
      var s := if overlapping.Some? then overlapping.value else |db.settlements|;
      db.settlements := if overlapping.Some? then db.settlements[s := row] else db.settlements + [row];
      RedrawnAre(before, agent, from, to, overlapping, s, picked);
      var ok := RedrawLines(s, overlapping.Some?, picked);
      assert ok;
      return Success(s);
    }

    method Settle(s: nat, now: int) returns (r: Result<nat>)
      requires db.Valid()
      modifies db
      ensures db.Valid() && Serves(old(db.State()), SettleSettlement(s), now, db.State(), r)
    {
      hide DbInv, Grows;
      PostingProofs.RequestKeeps(db.State(), SettleSettlement(s), now);
      if s >= |db.settlements| { return Failure(NotFound); }
      if db.settlements[s].settled { return Failure(Conflict); }
      db.settlements := db.settlements[s := db.settlements[s].(settled := true)];
      db.EnqueueEvent(Ledgers.AgentSettlement, s, now);
      assert db.State() == Backend.Settle(old(db.State()), s, now).value;
      return Success(s);
    }
  }

  lemma DrawnUp(db: Db, agent: nat, fromDay: int, toDay: int, now: int, e: Db, r: Result<nat>)
    requires DbInv(db)
    requires match Agencies.Generate(db.agency, db.desk.tickets, agent, fromDay, toDay)
      case Failure(error) => r == Failure(error) && e == db
      case Success(pair) => r == Success(pair.1) && e == db.(agency := pair.0)
    ensures DbInv(e) && Serves(db, DrawUpSettlement(agent, fromDay, toDay), now, e, r)
  {
    hide DbInv, Grows, Agencies.Generate;
    PostingProofs.RequestKeeps(db, DrawUpSettlement(agent, fromDay, toDay), now);
  }

  function Kept(lines: map<nat, Agencies.Line>, s: nat, regenerated: bool): map<nat, Agencies.Line> {
    if regenerated then map c | c in lines && lines[c].settlement != s :: lines[c] else lines
  }

  lemma KeptFree(ag: Agencies.Agency, agent: nat, from: int, to: int, own: Option<nat>, s: nat, c: nat)
    requires Agencies.LinesOk(ag) && s == if own.Some? then own.value else |ag.settlements|
    ensures c in Kept(ag.lines, s, own.Some?) <==> c in ag.lines && ag.lines[c].settlement != s
    ensures Agencies.Picked(ag, agent, from, to, own, c) ==> c !in Kept(ag.lines, s, own.Some?)
  {
    assert c in ag.lines ==> Agencies.LineOk(ag, c, ag.lines[c]);
  }

  lemma RedrawnAre(ag: Agencies.Agency, agent: nat, from: int, to: int, own: Option<nat>, s: nat, picked: set<nat>)
    requires Agencies.LinesOk(ag) && s == if own.Some? then own.value else |ag.settlements|
    requires picked == set c | 0 <= c < |ag.commissions| && Agencies.Picked(ag, agent, from, to, own, c)
    ensures picked !! Kept(ag.lines, s, own.Some?).Keys
    ensures Kept(ag.lines, s, own.Some?) + (map c | c in picked :: Agencies.Line(s, ag.commissions[c].amount))
      == Agencies.RedrawnLines(ag, agent, from, to, own, s)
  {
    forall c: nat
      ensures c in Kept(ag.lines, s, own.Some?) <==> c in ag.lines && ag.lines[c].settlement != s
      ensures c in picked ==> c !in Kept(ag.lines, s, own.Some?)
    {
      KeptFree(ag, agent, from, to, own, s, c);
    }
    hide Agencies.LinesOk, Agencies.Picked;
  }
}
