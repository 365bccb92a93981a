/** Which settlements can be drawn up, which commissions they take, and what they come to. */
module SettlementTerms {
  import opened Wrappers
  import opened Sums
  import opened TripDesk
  import opened Settlements
  import opened SettlementProofs

  /** The time lies in the whole days from fromDay to toDay, both included. */
  predicate InDays(at: int, fromDay: int, toDay: int) { fromDay * 86400000 <= at < (toDay + 1) * 86400000 }

  /** An agent's unreversed commission of these days. */
  predicate Due(ag: Agency, agent: nat, fromDay: int, toDay: int, c: nat) {
    c < |ag.commissions| && ag.commissions[c].agent == agent && ag.commissions[c].reversed == false && InDays(ag.commissions[c].at, fromDay, toDay)
  }

  /** No settlement of the agent shares a day with these days. */
  predicate NoneShares(ag: Agency, agent: nat, fromDay: int, toDay: int) {
    forall s :: 0 <= s < |ag.settlements| && ag.settlements[s].agent == agent ==>
      ag.settlements[s].to < fromDay * 86400000 || (toDay + 1) * 86400000 <= ag.settlements[s].from
  }

  /** An unsettled settlement of the agent over exactly these days. */
  predicate Redrawable(ag: Agency, agent: nat, fromDay: int, toDay: int, s: nat) {
    && s < |ag.settlements| && ag.settlements[s].agent == agent && !ag.settlements[s].settled
    && ag.settlements[s].from == fromDay * 86400000 && ag.settlements[s].to == (toDay + 1) * 86400000 - 1
  }

  function AmountOf(ag: Agency, taken: set<nat>): nat -> int {
    (c: nat) => if c in taken && c < |ag.commissions| then ag.commissions[c].amount else 0
  }
  function FareOf(ag: Agency, tickets: seq<Ticket>, taken: set<nat>): nat -> int {
    (c: nat) => if c in taken && c < |ag.commissions| && ag.commissions[c].ticket < |tickets| then tickets[ag.commissions[c].ticket].fare else 0
  }
  function AmountSum(ag: Agency, taken: set<nat>): int { Total(|ag.commissions|, AmountOf(ag, taken)) }
  function FareSum(ag: Agency, tickets: seq<Ticket>, taken: set<nat>): int { Total(|ag.commissions|, FareOf(ag, tickets, taken)) }

  /** The settlement of these commissions: fares less commissions, not yet settled. */
  function DrawnRow(ag: Agency, tickets: seq<Ticket>, agent: nat, from: int, to: int, taken: set<nat>): Settlement {
    Settlement(agent, from, to, FareSum(ag, tickets, taken), AmountSum(ag, taken),
               FareSum(ag, tickets, taken) - AmountSum(ag, taken), false)
  }

  function WithRow(rows: seq<Settlement>, s: nat, row: Settlement): seq<Settlement> {
    if s < |rows| then rows[s := row] else rows + [row]
  }

  /** Settlement s is drawn up from these commissions, and no other settlement, line or commission changes. */
  predicate DrawnFrom(ag: Agency, e: Agency, tickets: seq<Ticket>, agent: nat, fromDay: int, toDay: int, s: nat, taken: set<nat>) {
    && s < |e.settlements|
    && e.settlements[s] == DrawnRow(ag, tickets, agent, fromDay * 86400000, (toDay + 1) * 86400000 - 1, taken)
    && e.commissions == ag.commissions && e.agents == ag.agents
    && (forall r :: 0 <= r < |ag.settlements| && r != s ==> r < |e.settlements| && e.settlements[r] == ag.settlements[r])
    && LinesOf(ag, e.lines, s, taken)
  }

  /** The lines of settlement s are those of the taken commissions; all other lines are as before. */
  predicate LinesOf(ag: Agency, lines: map<nat, Line>, s: nat, taken: set<nat>) {
    && (forall c :: c in taken ==> c < |ag.commissions| && c in lines && lines[c] == Line(s, ag.commissions[c].amount))
    && (forall c :: c in lines && c !in taken ==> c in ag.lines && lines[c] == ag.lines[c] && lines[c].settlement != s)
    && (forall c :: c in ag.lines && ag.lines[c].settlement != s ==> c in lines && lines[c] == ag.lines[c])
  }

  lemma TakenLinesAre(ag: Agency, agent: nat, from: int, to: int, own: Option<nat>, s: nat, taken: set<nat>)
    requires (forall c: nat :: c in taken <==> Picked(ag, agent, from, to, own, c)) && (own.Some? ==> own.value == s)
    ensures LinesOf(ag, RedrawnLines(ag, agent, from, to, own, s), s, taken)
  {}

  lemma TakenSums(ag: Agency, tickets: seq<Ticket>, agent: nat, from: int, to: int, own: Option<nat>, taken: set<nat>)
    requires forall c: nat :: c in taken <==> Picked(ag, agent, from, to, own, c)
    ensures Total(|ag.commissions|, PickedAmount(ag, agent, from, to, own)) == AmountSum(ag, taken)
    ensures Total(|ag.commissions|, PickedFare(ag, tickets, agent, from, to, own)) == FareSum(ag, tickets, taken)
  {
    TotalCong(|ag.commissions|, PickedAmount(ag, agent, from, to, own), AmountOf(ag, taken));
    TotalCong(|ag.commissions|, PickedFare(ag, tickets, agent, from, to, own), FareOf(ag, tickets, taken));
  }

  /** These commissions make settlement s if their fares cover them, and otherwise the request is refused. */
  predicate DrawsUp(ag: Agency, tickets: seq<Ticket>, agent: nat, fromDay: int, toDay: int, s: nat, taken: set<nat>) {
    var r := Generate(ag, tickets, agent, fromDay, toDay);
    && (r.Success? <==> FareSum(ag, tickets, taken) >= AmountSum(ag, taken))
    && (r.Success? ==> r.value.1 == s && DrawnFrom(ag, r.value.0, tickets, agent, fromDay, toDay, s, taken)
                       && |r.value.0.settlements| == if s < |ag.settlements| then |ag.settlements| else |ag.settlements| + 1)
  }

  /** The settlement that is drawn up again over this time, if there is one, and the commissions it takes. */
  ghost predicate Draws(ag: Agency, agent: nat, from: int, to: int, own: Option<nat>, taken: set<nat>) {
    && from <= to && agent < |ag.agents| && own == FirstOverlap(ag.settlements, agent, from, to, 0)
    && (own.Some? ==> own.value < |ag.settlements| && MayRedraw(ag.settlements[own.value], from, to))
    && (forall c: nat :: c in taken <==> Picked(ag, agent, from, to, own, c))
  }

  lemma RowsDrawn(ag: Agency, tickets: seq<Ticket>, agent: nat, from: int, to: int, own: Option<nat>, taken: set<nat>)
    requires Draws(ag, agent, from, to, own, taken)
    ensures var r, s := GenerateOver(ag, tickets, agent, from, to), if own.Some? then own.value else |ag.settlements|;
      && (r.Success? <==> FareSum(ag, tickets, taken) >= AmountSum(ag, taken))
      && (r.Success? ==> r.value.1 == s)
      && (r.Success? ==> r.value.0.settlements == WithRow(ag.settlements, s, DrawnRow(ag, tickets, agent, from, to, taken)))
      && (r.Success? ==> r.value.0 == ag.(settlements := r.value.0.settlements, lines := r.value.0.lines))
      && (r.Success? ==> r.value.0.lines == RedrawnLines(ag, agent, from, to, own, s))
  {
    TakenSums(ag, tickets, agent, from, to, own, taken);
    hide Picked, RedrawnLines, PickedAmount, PickedFare, AmountSum, FareSum, FirstOverlap, Total;
  }

  lemma DaysAre(fromDay: int, toDay: int)
    ensures fromDay * DAY_MS == fromDay * 86400000 && toDay * DAY_MS + DAY_MS - 1 == (toDay + 1) * 86400000 - 1
  {}

  lemma Drawing(ag: Agency, tickets: seq<Ticket>, agent: nat, fromDay: int, toDay: int, own: Option<nat>, taken: set<nat>)
    requires Draws(ag, agent, fromDay * DAY_MS, toDay * DAY_MS + DAY_MS - 1, own, taken)
    ensures DrawsUp(ag, tickets, agent, fromDay, toDay, if own.Some? then own.value else |ag.settlements|, taken)
  {
    var from, to := fromDay * DAY_MS, toDay * DAY_MS + DAY_MS - 1;
    RowsDrawn(ag, tickets, agent, from, to, own, taken);
    TakenLinesAre(ag, agent, from, to, own, if own.Some? then own.value else |ag.settlements|, taken);
    DaysAre(fromDay, toDay);
    hide DAY_MS, GenerateOver, Picked, RedrawnLines, LinesOf, AmountSum, FareSum, FirstOverlap;
  }

  function FirstTaken(ag: Agency, agent: nat, fromDay: int, toDay: int): set<nat> {
    set c: nat | c < |ag.commissions| && Due(ag, agent, fromDay, toDay, c) && c !in ag.lines
  }

  lemma FirstTakenIs(ag: Agency, agent: nat, fromDay: int, toDay: int)
    ensures forall c: nat :: c in FirstTaken(ag, agent, fromDay, toDay) <==>
      Picked(ag, agent, fromDay * DAY_MS, toDay * DAY_MS + DAY_MS - 1, None, c)
  {
    DaysAre(fromDay, toDay);
    hide DAY_MS;
  }

  /** While no settlement of the agent shares a day with them, days can be settled exactly when they run
      forwards, the agent exists and the fares cover the commissions. The new settlement takes the agent's
      unreversed commissions of the days that no settlement took before, all of them and no others. */
  lemma FirstDrawingUp(ag: Agency, tickets: seq<Ticket>, agent: nat, fromDay: int, toDay: int)
    requires NoneShares(ag, agent, fromDay, toDay)
    ensures var r, taken := Generate(ag, tickets, agent, fromDay, toDay), FirstTaken(ag, agent, fromDay, toDay);
      if fromDay <= toDay && agent < |ag.agents| then DrawsUp(ag, tickets, agent, fromDay, toDay, |ag.settlements|, taken)
      else r == Failure(if fromDay > toDay then BadRequest else NotFound)
  {
    var from, to := fromDay * DAY_MS, toDay * DAY_MS + DAY_MS - 1;
    DaysAre(fromDay, toDay);
    hide DAY_MS, DrawsUp;
    if from <= to {
      FirstOverlapIs(ag.settlements, agent, from, to, 0);
      if agent < |ag.agents| {
        hide FirstOverlap, Generate;
        FirstTakenIs(ag, agent, fromDay, toDay);
        hide FirstTaken, Picked, NoneShares;
        Drawing(ag, tickets, agent, fromDay, toDay, None, FirstTaken(ag, agent, fromDay, toDay));
      }
    }
  }

  function RedrawnTaken(ag: Agency, agent: nat, fromDay: int, toDay: int, s: nat): set<nat> {
    set c: nat | c < |ag.commissions| && Due(ag, agent, fromDay, toDay, c) && c in ag.lines && ag.lines[c].settlement == s
  }

  lemma RedrawnTakenIs(ag: Agency, agent: nat, fromDay: int, toDay: int, s: nat)
    ensures forall c: nat :: c in RedrawnTaken(ag, agent, fromDay, toDay, s) <==>
      Picked(ag, agent, fromDay * DAY_MS, toDay * DAY_MS + DAY_MS - 1, Some(s), c)
  {
    DaysAre(fromDay, toDay);
    hide DAY_MS;
  }

  /** An unsettled settlement over exactly the same days can be drawn up again while the fares that remain
      cover the commissions that remain; it keeps its row and gives up its reversed commissions. */
  lemma DrawingUpAgain(ag: Agency, tickets: seq<Ticket>, agent: nat, fromDay: int, toDay: int, s: nat)
    requires AgencyInv(ag, tickets) && Redrawable(ag, agent, fromDay, toDay, s)
    ensures DrawsUp(ag, tickets, agent, fromDay, toDay, s, RedrawnTaken(ag, agent, fromDay, toDay, s))
  {
    var from, to := fromDay * DAY_MS, toDay * DAY_MS + DAY_MS - 1;
    RedrawnTakenIs(ag, agent, fromDay, toDay, s);
    DaysAre(fromDay, toDay);
    hide DAY_MS, DrawsUp, CommissionsOk, LinesOk, Picked, RedrawnTaken;
    assert SettlementOk(ag, tickets, s);
    FirstOverlapIs(ag.settlements, agent, from, to, 0);
    AnyOverlapWillDo(ag, tickets, agent, from, to, s, FirstOverlap(ag.settlements, agent, from, to, 0).value);
    hide FirstOverlap, SettlementsOk, AgencyInv, SettlementOk;
    Drawing(ag, tickets, agent, fromDay, toDay, Some(s), RedrawnTaken(ag, agent, fromDay, toDay, s));
  }

  /** Days that share a day with a settlement of the agent, other than an unsettled one over exactly the same
      days, are refused; so are unknown agents and days that run backwards. */
  lemma OtherwiseRefused(ag: Agency, tickets: seq<Ticket>, agent: nat, fromDay: int, toDay: int)
    requires !NoneShares(ag, agent, fromDay, toDay) && (forall s :: 0 <= s < |ag.settlements| ==> !Redrawable(ag, agent, fromDay, toDay, s))
    ensures Generate(ag, tickets, agent, fromDay, toDay)
      == Failure(if fromDay > toDay then BadRequest else if agent >= |ag.agents| then NotFound else Conflict)
  {
    var from, to := fromDay * DAY_MS, toDay * DAY_MS + DAY_MS - 1;
    FirstOverlapIs(ag.settlements, agent, from, to, 0);
    if fromDay <= toDay {
      var s :| 0 <= s < |ag.settlements| && ag.settlements[s].agent == agent
               && !(ag.settlements[s].to < fromDay * 86400000 || (toDay + 1) * 86400000 <= ag.settlements[s].from);
      assert Overlaps(ag.settlements[s], agent, from, to);
      var first := FirstOverlap(ag.settlements, agent, from, to, 0).value;
      assert !Redrawable(ag, agent, fromDay, toDay, first);
    }
  }

  /** In all other cases what refuses a settlement is the database, because its net would be negative. */
  lemma LossRefused(ag: Agency, tickets: seq<Ticket>, agent: nat, fromDay: int, toDay: int)
    requires AgencyInv(ag, tickets) && fromDay <= toDay && agent < |ag.agents|
    requires NoneShares(ag, agent, fromDay, toDay) || exists s: nat :: Redrawable(ag, agent, fromDay, toDay, s)
    ensures Generate(ag, tickets, agent, fromDay, toDay).Failure? ==> Generate(ag, tickets, agent, fromDay, toDay).error == Constraint
  {
    var from, to := fromDay * DAY_MS, toDay * DAY_MS + DAY_MS - 1;
    DaysAre(fromDay, toDay);
    FirstOverlapIs(ag.settlements, agent, from, to, 0);
    hide DAY_MS, FirstOverlap, CommissionsOk, LinesOk, Total;
    if s: nat :| Redrawable(ag, agent, fromDay, toDay, s) {
      assert SettlementOk(ag, tickets, s);
      AnyOverlapWillDo(ag, tickets, agent, from, to, s, FirstOverlap(ag.settlements, agent, from, to, 0).value);
    }
  }

  /** A settlement is settled once; nothing but its mark changes. */
  lemma SettlingExactly(ag: Agency, s: nat)
    ensures var r := Settle(ag, s);
      && (r.Success? <==> s < |ag.settlements| && !ag.settlements[s].settled)
      && (r.Failure? ==> r.error == if s < |ag.settlements| then Conflict else NotFound)
      && (r.Success? ==>
            && r.value == ag.(settlements := r.value.settlements) && |r.value.settlements| == |ag.settlements|
            && forall i :: 0 <= i < |ag.settlements| ==>
                 r.value.settlements[i] == if i == s then ag.settlements[i].(settled := true) else ag.settlements[i])
  {}
}
