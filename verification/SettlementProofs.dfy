/** Settlements never overlap, never share a commission, and add up. */
module SettlementProofs {
  import opened Wrappers
  import opened Sums
  import opened TripDesk
  import opened Settlements

  // ---------------------------------------------------------------- overlap

  lemma {:induction false} FirstOverlapIs(settlements: seq<Settlement>, agent: nat, from: int, to: int, start: nat)
    requires start <= |settlements|
    ensures var r := FirstOverlap(settlements, agent, from, to, start);
      if r.Some? then start <= r.value < |settlements| && Overlaps(settlements[r.value], agent, from, to)
      else forall s :: start <= s < |settlements| ==> !Overlaps(settlements[s], agent, from, to)
    decreases |settlements| - start
  {
    if start < |settlements| { FirstOverlapIs(settlements, agent, from, to, start + 1); }
  }

  predicate MayRedraw(row: Settlement, from: int, to: int) { !row.settled && row.from == from && row.to == to }

  /** Which overlapping settlement the database happens to return decides nothing: they all lead
      to the same refusal, or there is only one. */
  lemma AnyOverlapWillDo(ag: Agency, tickets: seq<Ticket>, agent: nat, from: int, to: int, s: nat, r: nat)
    requires SettlementsOk(ag, tickets) && from <= to && s < |ag.settlements| && r < |ag.settlements|
    requires Overlaps(ag.settlements[s], agent, from, to) && Overlaps(ag.settlements[r], agent, from, to)
    ensures MayRedraw(ag.settlements[s], from, to) ==> r == s
  {
    if r != s {
      var a, b := if r < s then r else s, if r < s then s else r;
      assert ag.settlements[a].to < ag.settlements[b].from || ag.settlements[b].to < ag.settlements[a].from;
    }
  }

  // ---------------------------------------------------------------- generation

  /** The lines of settlement s are those of the picked commissions, and all other lines are as before. */
  ghost predicate DrawnLines(ag: Agency, lines: map<nat, Line>, agent: nat, from: int, to: int, own: Option<nat>, s: nat) {
    && (forall c :: (c in lines && lines[c].settlement == s) <==> Picked(ag, agent, from, to, own, c))
    && (forall c :: c in lines && lines[c].settlement == s && c < |ag.commissions| ==> lines[c].amount == ag.commissions[c].amount)
    && (forall c :: (c in lines && lines[c].settlement != s) <==> (c in ag.lines && ag.lines[c].settlement != s))
    && (forall c :: c in lines && lines[c].settlement != s ==> lines[c] == ag.lines[c])
  }

  lemma RedrawnLinesAre(ag: Agency, agent: nat, from: int, to: int, own: Option<nat>, s: nat)
    requires if own.Some? then own.value == s else forall c :: c in ag.lines ==> ag.lines[c].settlement != s
    ensures DrawnLines(ag, RedrawnLines(ag, agent, from, to, own, s), agent, from, to, own, s)
  {}

  /** Which settlement was drawn up, and from which commissions. */
  ghost predicate Drawn(ag: Agency, e: Agency, agent: nat, from: int, to: int, s: nat) {
    var own := FirstOverlap(ag.settlements, agent, from, to, 0);
    && s < |e.settlements| && (own.Some? <==> s < |ag.settlements|) && (own.Some? ==> s == own.value)
    && DrawnLines(ag, e.lines, agent, from, to, own, s)
  }

  lemma DrawnOver(ag: Agency, tickets: seq<Ticket>, agent: nat, from: int, to: int)
    requires AgencyInv(ag, tickets) && GenerateOver(ag, tickets, agent, from, to).Success?
    ensures Drawn(ag, GenerateOver(ag, tickets, agent, from, to).value.0, agent, from, to, GenerateOver(ag, tickets, agent, from, to).value.1)
  {
    var own := FirstOverlap(ag.settlements, agent, from, to, 0);
    FirstOverlapIs(ag.settlements, agent, from, to, 0);
    assert forall c :: c in ag.lines ==> LineOk(ag, c, ag.lines[c]);
    RedrawnLinesAre(ag, agent, from, to, own, if own.Some? then own.value else |ag.settlements|);
    hide AgencyInv, FirstOverlap, RedrawnLines, DrawnLines, Total;
  }

  lemma GeneratedLines(ag: Agency, tickets: seq<Ticket>, agent: nat, fromDay: int, toDay: int)
    requires AgencyInv(ag, tickets) && Generate(ag, tickets, agent, fromDay, toDay).Success?
    ensures var (e, s) := Generate(ag, tickets, agent, fromDay, toDay).value;
      Drawn(ag, e, agent, fromDay * DAY_MS, toDay * DAY_MS + DAY_MS - 1, s)
  {
    DrawnOver(ag, tickets, agent, fromDay * DAY_MS, toDay * DAY_MS + DAY_MS - 1);
    hide GenerateOver, AgencyInv, DAY_MS, Drawn;
  }

  /** Drawing up a settlement again keeps exactly those of its own lines whose commissions are still
      unreversed: it can shrink, never grow. */
  lemma RegenerationKeeps(ag: Agency, tickets: seq<Ticket>, agent: nat, fromDay: int, toDay: int, c: nat)
    requires AgencyInv(ag, tickets) && Generate(ag, tickets, agent, fromDay, toDay).Success?
    requires Generate(ag, tickets, agent, fromDay, toDay).value.1 < |ag.settlements|
    ensures var (e, s) := Generate(ag, tickets, agent, fromDay, toDay).value;
      (c in e.lines && e.lines[c].settlement == s)
        <==> (c in ag.lines && ag.lines[c].settlement == s && c < |ag.commissions| && !ag.commissions[c].reversed)
  {
    GeneratedLines(ag, tickets, agent, fromDay, toDay);
    FirstOverlapIs(ag.settlements, agent, fromDay * DAY_MS, toDay * DAY_MS + DAY_MS - 1, 0);
    assert c in ag.lines ==> LineOk(ag, c, ag.lines[c]);
  }

  /** Two agencies whose lines of settlement r are the same have the same sums for it. */
  lemma SameLinesSameSums(ag: Agency, e: Agency, tickets: seq<Ticket>, r: nat)
    requires e.commissions == ag.commissions
    requires forall c: nat :: (c in e.lines && e.lines[c].settlement == r) <==> (c in ag.lines && ag.lines[c].settlement == r)
    requires forall c: nat :: c in e.lines && e.lines[c].settlement == r ==> e.lines[c] == ag.lines[c]
    ensures Total(|ag.commissions|, LineAmountAt(e, r)) == Total(|ag.commissions|, LineAmountAt(ag, r))
    ensures Total(|ag.commissions|, LineFareAt(e, tickets, r)) == Total(|ag.commissions|, LineFareAt(ag, tickets, r))
  {
    TotalCong(|ag.commissions|, LineAmountAt(e, r), LineAmountAt(ag, r));
    TotalCong(|ag.commissions|, LineFareAt(e, tickets, r), LineFareAt(ag, tickets, r));
  }

  /** The picked commissions are summed exactly once each by the lines drawn up for them. */
  lemma PickedSums(ag: Agency, e: Agency, tickets: seq<Ticket>, agent: nat, from: int, to: int, own: Option<nat>, s: nat)
    requires e.commissions == ag.commissions
    requires forall c: nat :: (c in e.lines && e.lines[c].settlement == s) <==> Picked(ag, agent, from, to, own, c)
    requires forall c: nat :: c in e.lines && e.lines[c].settlement == s && c < |ag.commissions| ==> e.lines[c].amount == ag.commissions[c].amount
    ensures Total(|ag.commissions|, PickedAmount(ag, agent, from, to, own)) == Total(|ag.commissions|, LineAmountAt(e, s))
    ensures Total(|ag.commissions|, PickedFare(ag, tickets, agent, from, to, own)) == Total(|ag.commissions|, LineFareAt(e, tickets, s))
  {
    forall c: nat | c < |ag.commissions|
      ensures PickedAmount(ag, agent, from, to, own)(c) == LineAmountAt(e, s)(c)
      ensures PickedFare(ag, tickets, agent, from, to, own)(c) == LineFareAt(e, tickets, s)(c)
    {
      assert Picked(ag, agent, from, to, own, c) <==> c in e.lines && e.lines[c].settlement == s;
    }
    TotalCong(|ag.commissions|, PickedAmount(ag, agent, from, to, own), LineAmountAt(e, s));
    TotalCong(|ag.commissions|, PickedFare(ag, tickets, agent, from, to, own), LineFareAt(e, tickets, s));
  }

  /** The row drawn up sums the picked commissions; other rows stay. */
  predicate RowDrawn(ag: Agency, e: Agency, tickets: seq<Ticket>, agent: nat, from: int, to: int, s: nat) {
    var own := FirstOverlap(ag.settlements, agent, from, to, 0);
    && e.commissions == ag.commissions && e.agents == ag.agents && s < |e.settlements| && |ag.settlements| <= |e.settlements| <= |ag.settlements| + 1
    && (forall r :: 0 <= r < |e.settlements| && r != s ==> r < |ag.settlements| && e.settlements[r] == ag.settlements[r])
    && var row := e.settlements[s];
       && row.agent == agent < |ag.agents| && row.from <= row.to && row.net == row.sales - row.commission >= 0
       && row.commission == Total(|ag.commissions|, PickedAmount(ag, agent, from, to, own))
       && row.sales == Total(|ag.commissions|, PickedFare(ag, tickets, agent, from, to, own))
  }

  lemma RowIs(ag: Agency, tickets: seq<Ticket>, agent: nat, from: int, to: int)
    requires GenerateOver(ag, tickets, agent, from, to).Success?
    ensures RowDrawn(ag, GenerateOver(ag, tickets, agent, from, to).value.0, tickets, agent, from, to, GenerateOver(ag, tickets, agent, from, to).value.1)
  {
    FirstOverlapIs(ag.settlements, agent, from, to, 0);
    hide FirstOverlap, RedrawnLines, Picked, PickedAmount, PickedFare, Total;
  }

  lemma DrawnRowOk(ag: Agency, e: Agency, tickets: seq<Ticket>, agent: nat, from: int, to: int, s: nat)
    requires RowDrawn(ag, e, tickets, agent, from, to, s) && Drawn(ag, e, agent, from, to, s)
    ensures SettlementOk(e, tickets, s)
  {
    hide FirstOverlap, Picked, PickedAmount, PickedFare, LineAmountAt, LineFareAt, Total;
    PickedSums(ag, e, tickets, agent, from, to, FirstOverlap(ag.settlements, agent, from, to, 0), s);
  }

  lemma OtherRowOk(ag: Agency, e: Agency, tickets: seq<Ticket>, agent: nat, from: int, to: int, s: nat, r: nat)
    requires RowDrawn(ag, e, tickets, agent, from, to, s) && Drawn(ag, e, agent, from, to, s)
    requires r != s && r < |ag.settlements| && SettlementOk(ag, tickets, r)
    ensures SettlementOk(e, tickets, r)
  {
    hide FirstOverlap, Picked, PickedAmount, PickedFare, LineAmountAt, LineFareAt, Total;
    SameLinesSameSums(ag, e, tickets, r);
  }

  lemma GenerateKeepsTotals(ag: Agency, tickets: seq<Ticket>, agent: nat, fromDay: int, toDay: int, r: nat)
    requires AgencyInv(ag, tickets) && Generate(ag, tickets, agent, fromDay, toDay).Success?
    requires r < |Generate(ag, tickets, agent, fromDay, toDay).value.0.settlements|
    ensures SettlementOk(Generate(ag, tickets, agent, fromDay, toDay).value.0, tickets, r)
  {
    var from, to := fromDay * DAY_MS, toDay * DAY_MS + DAY_MS - 1;
    var (e, s) := Generate(ag, tickets, agent, fromDay, toDay).value;
    RowIs(ag, tickets, agent, from, to);
    DrawnOver(ag, tickets, agent, from, to);
    hide GenerateOver, CommissionsOk, LinesOk, DAY_MS, SettlementOk, Drawn, Total, PickedAmount, PickedFare;
    if r == s { DrawnRowOk(ag, e, tickets, agent, from, to, s); } else { OtherRowOk(ag, e, tickets, agent, from, to, s, r); }
  }

  lemma GenerateKeepsLines(ag: Agency, tickets: seq<Ticket>, agent: nat, fromDay: int, toDay: int)
    requires AgencyInv(ag, tickets) && Generate(ag, tickets, agent, fromDay, toDay).Success?
    ensures LinesOk(Generate(ag, tickets, agent, fromDay, toDay).value.0)
  {
    var (e, s) := Generate(ag, tickets, agent, fromDay, toDay).value;
    GeneratedLines(ag, tickets, agent, fromDay, toDay);
    forall c | c in e.lines ensures LineOk(e, c, e.lines[c]) {
      if e.lines[c].settlement != s { assert LineOk(ag, c, ag.lines[c]); }
    }
  }

  lemma GenerateKeepsInv(ag: Agency, tickets: seq<Ticket>, agent: nat, fromDay: int, toDay: int)
    requires AgencyInv(ag, tickets) && Generate(ag, tickets, agent, fromDay, toDay).Success?
    ensures AgencyInv(Generate(ag, tickets, agent, fromDay, toDay).value.0, tickets)
  {
    var (e, s) := Generate(ag, tickets, agent, fromDay, toDay).value;
    FirstOverlapIs(ag.settlements, agent, fromDay * DAY_MS, toDay * DAY_MS + DAY_MS - 1, 0);
    GenerateKeepsLines(ag, tickets, agent, fromDay, toDay);
    forall r | 0 <= r < |e.settlements| ensures SettlementOk(e, tickets, r) {
      GenerateKeepsTotals(ag, tickets, agent, fromDay, toDay, r);
    }
  }

  // ---------------------------------------------------------------- the other requests

  lemma SettleKeepsInv(ag: Agency, tickets: seq<Ticket>, s: nat)
    requires AgencyInv(ag, tickets) && Settle(ag, s).Success?
    ensures AgencyInv(Settle(ag, s).value, tickets)
  {
    var e := Settle(ag, s).value;
    forall r | 0 <= r < |e.settlements| ensures SettlementOk(e, tickets, r) {
      assert SettlementOk(ag, tickets, r);
      TotalCong(|ag.commissions|, LineAmountAt(ag, r), LineAmountAt(e, r));
      TotalCong(|ag.commissions|, LineFareAt(ag, tickets, r), LineFareAt(e, tickets, r));
    }
    forall c | c in e.lines ensures LineOk(e, c, e.lines[c]) { assert LineOk(ag, c, ag.lines[c]); }
  }

  /** Changes elsewhere: new agents, tickets and commissions, and reversals of commissions. */
  predicate Grown(ag: Agency, tickets: seq<Ticket>, e: Agency, after: seq<Ticket>) {
    && e.settlements == ag.settlements && e.lines == ag.lines && |ag.agents| <= |e.agents|
    && |tickets| <= |after| && (forall t :: 0 <= t < |tickets| ==> after[t].fare == tickets[t].fare)
    && |ag.commissions| <= |e.commissions|
    && (forall c :: 0 <= c < |ag.commissions| ==> e.commissions[c].(reversed := ag.commissions[c].reversed) == ag.commissions[c])
  }

  lemma GrowthKeepsTotals(ag: Agency, tickets: seq<Ticket>, e: Agency, after: seq<Ticket>, r: nat)
    requires CommissionsOk(ag, tickets) && LinesOk(ag) && Grown(ag, tickets, e, after)
    ensures Total(|e.commissions|, LineAmountAt(e, r)) == Total(|ag.commissions|, LineAmountAt(ag, r))
    ensures Total(|e.commissions|, LineFareAt(e, after, r)) == Total(|ag.commissions|, LineFareAt(ag, tickets, r))
  {
    var n, m := |ag.commissions|, |e.commissions|;
    forall c: nat | n <= c < m ensures LineAmountAt(e, r)(c) == 0 == LineFareAt(e, after, r)(c) {
      assert c in ag.lines ==> LineOk(ag, c, ag.lines[c]);
    }
    TotalGrow(n, m, LineAmountAt(ag, r), LineAmountAt(e, r));
    TotalGrow(n, m, LineFareAt(ag, tickets, r), LineFareAt(e, after, r));
  }

  lemma GrowthKeepsInv(ag: Agency, tickets: seq<Ticket>, e: Agency, after: seq<Ticket>)
    requires AgencyInv(ag, tickets) && CommissionsOk(e, after) && Grown(ag, tickets, e, after)
    ensures AgencyInv(e, after)
  {
    forall c | c in e.lines ensures LineOk(e, c, e.lines[c]) { assert LineOk(ag, c, ag.lines[c]); }
    forall r | 0 <= r < |e.settlements| ensures SettlementOk(e, after, r) {
      assert SettlementOk(ag, tickets, r);
      GrowthKeepsTotals(ag, tickets, e, after, r);
    }
  }

  lemma EarningKeepsInv(ag: Agency, tickets: seq<Ticket>, after: seq<Ticket>, agent: nat, now: int)
    requires AgencyInv(ag, tickets) && agent < |ag.agents| && tickets <= after
    ensures AgencyInv(ag.(commissions := ag.commissions
      + Earned(ag.agents[agent].rate, agent, after, |tickets|, |after| - |tickets|, now)), after)
  {
    var rows := Earned(ag.agents[agent].rate, agent, after, |tickets|, |after| - |tickets|, now);
    GrowthKeepsInv(ag, tickets, ag.(commissions := ag.commissions + rows), after);
  }

  // ---------------------------------------------------------------- the balance

  function CellAt(ag: Agency, agent: nat): (nat, nat) -> int {
    (s: nat, c: nat) => if s < |ag.settlements| && ag.settlements[s].agent == agent && ag.settlements[s].settled then LineAmountAt(ag, s)(c) else 0
  }

  function PaidAt(ag: Agency, agent: nat): nat -> int {
    (c: nat) => if c < |ag.commissions| && ag.commissions[c].agent == agent && OnSettledLine(ag, c) then ag.commissions[c].amount else 0
  }

  /** What final settlements paid an agent is the sum of the commissions on their lines. */
  lemma PaidOverall(ag: Agency, tickets: seq<Ticket>, agent: nat)
    requires AgencyInv(ag, tickets)
    ensures Total(|ag.settlements|, SettledAt(ag, agent)) == Total(|ag.commissions|, PaidAt(ag, agent))
  {
    var n, m, f := |ag.settlements|, |ag.commissions|, CellAt(ag, agent);
    forall s: nat | s < n ensures SettledAt(ag, agent)(s) == Total(m, (c: nat) => f(s, c)) {
      assert SettlementOk(ag, tickets, s);
      if ag.settlements[s].agent == agent && ag.settlements[s].settled {
        TotalCong(m, LineAmountAt(ag, s), (c: nat) => f(s, c));
      } else {
        TotalZero(m, (c: nat) => f(s, c));
      }
    }
    forall c: nat | c < m ensures PaidAt(ag, agent)(c) == Total(n, (s: nat) => f(s, c)) {
      if c in ag.lines {
        assert LineOk(ag, c, ag.lines[c]);
        var k := ag.lines[c].settlement;
        forall s: nat | s < n && s != k ensures f(s, c) == 0 { assert LineAmountAt(ag, s)(c) == 0; }
        assert LineAmountAt(ag, k)(c) == ag.lines[c].amount;
        TotalOne(n, (s: nat) => f(s, c), k);
      } else {
        forall s: nat | s < n ensures f(s, c) == 0 { assert LineAmountAt(ag, s)(c) == 0; }
        TotalZero(n, (s: nat) => f(s, c));
      }
    }
    TotalSwap(n, m, f, SettledAt(ag, agent), PaidAt(ag, agent));
  }

  /** The balance shown for an agent is what is earned and not yet on a final settlement, less
      what a final settlement paid for commissions that were reversed afterwards. */
  lemma BalanceMeaning(ag: Agency, tickets: seq<Ticket>, agent: nat)
    requires AgencyInv(ag, tickets)
    ensures Balance(ag, agent) == Total(|ag.commissions|, UnpaidAt(ag, agent)) - Total(|ag.commissions|, OverpaidAt(ag, agent))
  {
    var m := |ag.commissions|;
    PaidOverall(ag, tickets, agent);
    var both := (c: nat) => EarnedAt(ag, agent)(c) + OverpaidAt(ag, agent)(c);
    TotalAdd(m, EarnedAt(ag, agent), OverpaidAt(ag, agent), both);
    TotalAdd(m, PaidAt(ag, agent), UnpaidAt(ag, agent), both);
  }
}
