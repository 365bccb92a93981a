/** Agents' commissions and the settlements that pay them. */
module Settlements {
  import opened Wrappers
  import opened Sums
  import opened Money
  import opened TripDesk

  const DAY_MS: int := 24 * 60 * 60 * 1000

  datatype Agent = Agent(rate: Rate, active: bool)
  datatype Commission = Commission(agent: nat, booking: nat, ticket: nat, amount: nat, reversed: bool, at: int)
  datatype Settlement = Settlement(agent: nat, from: int, to: int, sales: int, commission: int, net: int, settled: bool)
  datatype Line = Line(settlement: nat, amount: nat)

  /** The settlement lines are indexed by their commission, which the database keeps unique. */
  datatype Agency = Agency(agents: seq<Agent>, commissions: seq<Commission>, settlements: seq<Settlement>, lines: map<nat, Line>)

  // ---------------------------------------------------------------- earning and reversing

  /** The commissions on the n tickets that start at number first. */
  function Earned(rate: Rate, agent: nat, tickets: seq<Ticket>, first: nat, n: nat, now: int): (rows: seq<Commission>)
    requires first + n <= |tickets|
    ensures |rows| == n
    ensures forall k :: 0 <= k < n ==> rows[k] == Commission(agent, tickets[first + k].booking, first + k,
                                                             CommissionDue(rate, tickets[first + k].fare), false, now)
  {
    if n == 0 then []
    else Earned(rate, agent, tickets, first, n - 1, now)
           + [Commission(agent, tickets[first + n - 1].booking, first + n - 1, CommissionDue(rate, tickets[first + n - 1].fare), false, now)]
  }

  function Reverse(commissions: seq<Commission>, booking: nat): (after: seq<Commission>)
    ensures |after| == |commissions|
  {
    seq(|commissions|, c requires 0 <= c < |commissions| =>
      if commissions[c].booking == booking then commissions[c].(reversed := true) else commissions[c])
  }

  // ---------------------------------------------------------------- settling

  predicate Overlaps(s: Settlement, agent: nat, from: int, to: int) {
    s.agent == agent && s.from <= to && s.to >= from
  }

  function FirstOverlap(settlements: seq<Settlement>, agent: nat, from: int, to: int, start: nat): Option<nat>
    requires start <= |settlements|
    decreases |settlements| - start
  {
    if start == |settlements| then None
    else if Overlaps(settlements[start], agent, from, to) then Some(start)
    else FirstOverlap(settlements, agent, from, to, start + 1)
  }

  /** The commissions a settlement takes: the agent's unreversed ones of the period that are on no
      line, or, when the settlement exists already, on its own lines. */
  predicate Picked(ag: Agency, agent: nat, from: int, to: int, own: Option<nat>, c: nat) {
    && c < |ag.commissions|
    && ag.commissions[c].agent == agent && !ag.commissions[c].reversed && from <= ag.commissions[c].at <= to
    && if own.Some? then c in ag.lines && ag.lines[c].settlement == own.value else c !in ag.lines
  }

  function PickedAmount(ag: Agency, agent: nat, from: int, to: int, own: Option<nat>): nat -> int {
    (c: nat) => if Picked(ag, agent, from, to, own, c) then ag.commissions[c].amount else 0
  }

  function PickedFare(ag: Agency, tickets: seq<Ticket>, agent: nat, from: int, to: int, own: Option<nat>): nat -> int {
    (c: nat) => if Picked(ag, agent, from, to, own, c) && ag.commissions[c].ticket < |tickets|
                then tickets[ag.commissions[c].ticket].fare else 0
  }

  function RedrawnLines(ag: Agency, agent: nat, from: int, to: int, own: Option<nat>, s: nat): map<nat, Line> {
    (map c | c in ag.lines && ag.lines[c].settlement != s :: ag.lines[c])
    + (map c: nat | c < |ag.commissions| && Picked(ag, agent, from, to, own, c) :: Line(s, ag.commissions[c].amount))
  }

  /** Drawing up, or drawing up again, the settlement of an agent for whole days. The database
      refuses a negative net amount. */
  function Generate(ag: Agency, tickets: seq<Ticket>, agent: nat, fromDay: int, toDay: int): Result<(Agency, nat)> {
    GenerateOver(ag, tickets, agent, fromDay * DAY_MS, toDay * DAY_MS + DAY_MS - 1)
  }

  function GenerateOver(ag: Agency, tickets: seq<Ticket>, agent: nat, from: int, to: int): Result<(Agency, nat)> {
    if from > to then Failure(BadRequest)
    else if agent >= |ag.agents| then Failure(NotFound)
    else
      var own := FirstOverlap(ag.settlements, agent, from, to, 0);
      if own.Some? && own.value < |ag.settlements|
         && (ag.settlements[own.value].settled || ag.settlements[own.value].from != from || ag.settlements[own.value].to != to)
      then Failure(Conflict)
      else
        var sales := Total(|ag.commissions|, PickedFare(ag, tickets, agent, from, to, own));
        var commission := Total(|ag.commissions|, PickedAmount(ag, agent, from, to, own));
        if sales < commission then Failure(Constraint)
        else
          var row := Settlement(agent, from, to, sales, commission, sales - commission, false);
          var s := if own.Some? then own.value else |ag.settlements|;
          Success((ag.(settlements := if s < |ag.settlements| then ag.settlements[s := row] else ag.settlements + [row],
                       lines := RedrawnLines(ag, agent, from, to, own, s)), s))
  }

  function Settle(ag: Agency, s: nat): Result<Agency> {
    if s >= |ag.settlements| then Failure(NotFound)
    else if ag.settlements[s].settled then Failure(Conflict)
    else Success(ag.(settlements := ag.settlements[s := ag.settlements[s].(settled := true)]))
  }

  // ---------------------------------------------------------------- an agent's balance

  function EarnedAt(ag: Agency, agent: nat): nat -> int {
    (c: nat) => if c < |ag.commissions| && ag.commissions[c].agent == agent && !ag.commissions[c].reversed
                then ag.commissions[c].amount else 0
  }

  function SettledAt(ag: Agency, agent: nat): nat -> int {
    (s: nat) => if s < |ag.settlements| && ag.settlements[s].agent == agent && ag.settlements[s].settled
                then ag.settlements[s].commission else 0
  }

  /** The balance shown for an agent: unreversed commissions less what final settlements paid. */
  function Balance(ag: Agency, agent: nat): int {
    Total(|ag.commissions|, EarnedAt(ag, agent)) - Total(|ag.settlements|, SettledAt(ag, agent))
  }

  predicate OnSettledLine(ag: Agency, c: nat) {
    c in ag.lines && ag.lines[c].settlement < |ag.settlements| && ag.settlements[ag.lines[c].settlement].settled
  }

  function UnpaidAt(ag: Agency, agent: nat): nat -> int {
    (c: nat) => if c < |ag.commissions| && ag.commissions[c].agent == agent && !ag.commissions[c].reversed && !OnSettledLine(ag, c)
                then ag.commissions[c].amount else 0
  }

  function OverpaidAt(ag: Agency, agent: nat): nat -> int {
    (c: nat) => if c < |ag.commissions| && ag.commissions[c].agent == agent && ag.commissions[c].reversed && OnSettledLine(ag, c)
                then ag.commissions[c].amount else 0
  }

  // ---------------------------------------------------------------- invariants

  function LineAmountAt(ag: Agency, s: nat): nat -> int {
    (c: nat) => if c in ag.lines && ag.lines[c].settlement == s then ag.lines[c].amount else 0
  }

  function LineFareAt(ag: Agency, tickets: seq<Ticket>, s: nat): nat -> int {
    (c: nat) => if c in ag.lines && ag.lines[c].settlement == s && c < |ag.commissions| && ag.commissions[c].ticket < |tickets|
                then tickets[ag.commissions[c].ticket].fare else 0
  }

  predicate CommissionsOk(ag: Agency, tickets: seq<Ticket>) {
    && (forall c :: 0 <= c < |ag.commissions| ==>
          ag.commissions[c].agent < |ag.agents| && ag.commissions[c].ticket < |tickets|
          && ag.commissions[c].booking == tickets[ag.commissions[c].ticket].booking)
    && (forall c, e :: 0 <= c < e < |ag.commissions| ==> ag.commissions[c].ticket != ag.commissions[e].ticket)
  }

  /** A line repeats its commission and lies within its settlement's agent and period. */
  predicate LinesOk(ag: Agency) {
    forall c :: c in ag.lines ==> LineOk(ag, c, ag.lines[c])
  }

  predicate LineOk(ag: Agency, c: nat, line: Line) {
    && c < |ag.commissions| && line.settlement < |ag.settlements|
    && line.amount == ag.commissions[c].amount
    && ag.commissions[c].agent == ag.settlements[line.settlement].agent
    && ag.settlements[line.settlement].from <= ag.commissions[c].at <= ag.settlements[line.settlement].to
  }

  predicate SettlementsOk(ag: Agency, tickets: seq<Ticket>) {
    && (forall s :: 0 <= s < |ag.settlements| ==> SettlementOk(ag, tickets, s))
    && (forall s, r :: 0 <= s < r < |ag.settlements| && ag.settlements[s].agent == ag.settlements[r].agent ==>
          ag.settlements[s].to < ag.settlements[r].from || ag.settlements[r].to < ag.settlements[s].from)
  }

  /** The totals of a settlement are the sums over its lines and balance. */
  predicate SettlementOk(ag: Agency, tickets: seq<Ticket>, s: nat)
    requires s < |ag.settlements|
  {
    var row := ag.settlements[s];
    && row.agent < |ag.agents| && row.from <= row.to
    && row.commission == Total(|ag.commissions|, LineAmountAt(ag, s))
    && row.sales == Total(|ag.commissions|, LineFareAt(ag, tickets, s))
    && row.net == row.sales - row.commission >= 0
  }

  predicate AgencyInv(ag: Agency, tickets: seq<Ticket>) {
    CommissionsOk(ag, tickets) && LinesOk(ag) && SettlementsOk(ag, tickets)
  }
}
