/** Which database transaction a piece of work runs in. A request runs in one transaction of its
    organisation; transactions asked for inside it are the same transaction. */
module TenantContext {
  import opened Wrappers

  /** How a step ends: it has written, or it raises an error of the application after what it wrote, or
      the database refuses one of its statements. */
  datatype Reply<S> = Wrote(state: S) | Raised(state: S) | Violated

  /** What services do, as far as transactions are concerned: steps on the database, steps in order,
      nested transactions, tenant contexts, and errors that are caught. */
  datatype Work<!S> =
    | Step(run: S -> Reply<S>)
    | Then(first: Work<S>, second: Work<S>)
    | Transaction(body: Work<S>)
    | Tenant(organization: string, body: Work<S>)
    | Caught(body: Work<S>, handler: Work<S>)

  /** The state seen, and whether the transaction is aborted: once the database has refused a statement
      it takes no other until the transaction ends. */
  datatype Tx<S> = Tx(state: S, aborted: bool)
  datatype Outcome<S> = Outcome(tx: Tx<S>, ok: bool)

  /** What work does in the context of an organisation's transaction, or outside of any. The commit of an
      aborted transaction is a rollback. */
  function Perform<S>(w: Work<S>, tx: Tx<S>, context: Option<string>): Outcome<S> {
    match w
    case Step(run) =>
      if context.None? || tx.aborted then Outcome(tx, false)
      else (match run(tx.state)
            case Wrote(state) => Outcome(Tx(state, false), true)
            case Raised(state) => Outcome(Tx(state, false), false)
            case Violated => Outcome(Tx(tx.state, true), false))
    case Then(first, second) =>
      var r := Perform(first, tx, context);
      if r.ok then Perform(second, r.tx, context) else r
    case Transaction(body) => if context.Some? then Perform(body, tx, context) else Outcome(tx, false)
    case Tenant(organization, body) =>
      if context.Some? then
        if context.value == organization then Perform(body, tx, context) else Outcome(tx, false)
      else
        var r := Perform(body, Tx(tx.state, false), Some(organization));
        Outcome(Tx(if r.ok && !r.tx.aborted then r.tx.state else tx.state, false), r.ok)
    case Caught(body, handler) =>
      var r := Perform(body, tx, context);
      if r.ok then r else Perform(handler, r.tx, context)
  }

  // ---------------------------------------------------------------- inside a request

  /** The work without its inner transactions and inner contexts of the same organisation. */
  function Flat<S>(w: Work<S>, organization: string): Work<S> {
    match w
    case Step(run) => w
    case Then(first, second) => Then(Flat(first, organization), Flat(second, organization))
    case Transaction(body) => Flat(body, organization)
    case Tenant(other, body) => if other == organization then Flat(body, organization) else Refuse()
    case Caught(body, handler) => Caught(Flat(body, organization), Flat(handler, organization))
  }

  function Refuse<S>(): Work<S> { Step((s: S) => Raised(s)) }

  predicate IsFlat<S>(w: Work<S>) {
    match w
    case Step(run) => true
    case Then(first, second) => IsFlat(first) && IsFlat(second)
    case Caught(body, handler) => IsFlat(body) && IsFlat(handler)
    case _ => false
  }

  /** Inside a request, nested transactions neither commit nor roll back anything of their own. */
  lemma {:induction false} NestingDoesNothing<S>(w: Work<S>, tx: Tx<S>, organization: string)
    ensures IsFlat(Flat(w, organization))
    ensures Perform(Flat(w, organization), tx, Some(organization)) == Perform(w, tx, Some(organization))
    decreases w
  {
    match w {
      case Step(run) =>
      case Then(first, second) =>
        NestingDoesNothing(first, tx, organization);
        NestingDoesNothing(second, Perform(first, tx, Some(organization)).tx, organization);
      case Transaction(body) => NestingDoesNothing(body, tx, organization);
      case Tenant(other, body) => NestingDoesNothing(body, tx, organization);
      case Caught(body, handler) =>
        NestingDoesNothing(body, tx, organization);
        NestingDoesNothing(handler, Perform(body, tx, Some(organization)).tx, organization);
    }
  }

  /** After the database has refused a statement the request writes nothing more and cannot end well,
      whatever it catches. */
  lemma {:induction false} AbortedForGood<S>(w: Work<S>, tx: Tx<S>, organization: string)
    requires tx.aborted
    ensures Perform(w, tx, Some(organization)) == Outcome(tx, false)
    decreases w
  {
    match w {
      case Step(run) =>
      case Then(first, second) => AbortedForGood(first, tx, organization);
      case Transaction(body) => AbortedForGood(body, tx, organization);
      case Tenant(other, body) => AbortedForGood(body, tx, organization);
      case Caught(body, handler) => AbortedForGood(body, tx, organization); AbortedForGood(handler, tx, organization);
    }
  }

  predicate Commits<S>(organization: string, body: Work<S>, s: S) {
    var r := Perform(body, Tx(s, false), Some(organization));
    r.ok && !r.tx.aborted
  }

  /** A request whose main work fails and is caught is committed if and only if no statement was refused
      by the database and the handler succeeds on what the failed work left; otherwise nothing of it is. */
  lemma CaughtErrorsCommitExactly<S>(body: Work<S>, handler: Work<S>, s: S, organization: string)
    requires !Perform(body, Tx(s, false), Some(organization)).ok
    ensures var left := Perform(body, Tx(s, false), Some(organization)).tx;
      && (Commits(organization, Caught(body, handler), s) <==> !left.aborted && Commits(organization, handler, left.state))
      && Perform(Tenant(organization, Caught(body, handler)), Tx(s, false), None).tx.state
           == if !left.aborted && Commits(organization, handler, left.state)
              then Perform(handler, left, Some(organization)).tx.state else s
  {
    var left := Perform(body, Tx(s, false), Some(organization)).tx;
    if left.aborted { AbortedForGood(handler, left, organization); } else { assert left == Tx(left.state, false); }
    assert Perform(Caught(body, handler), Tx(s, false), Some(organization)) == Perform(handler, left, Some(organization));
  }

  // ---------------------------------------------------------------- between requests

  datatype Request<!S> = Request(organization: string, body: Work<S>)

  /** The requests that work outside of any context commits, in order. */
  function Committed<S>(w: Work<S>, s: S): seq<Request<S>> {
    match w
    case Step(run) => []
    case Then(first, second) =>
      var r := Perform(first, Tx(s, false), None);
      Committed(first, s) + if r.ok then Committed(second, r.tx.state) else []
    case Transaction(body) => []
    case Tenant(organization, body) => if Commits(organization, body, s) then [Request(organization, body)] else []
    case Caught(body, handler) =>
      var r := Perform(body, Tx(s, false), None);
      Committed(body, s) + if r.ok then [] else Committed(handler, r.tx.state)
  }

  function Effect<S>(r: Request<S>, s: S): S { Perform(r.body, Tx(s, false), Some(r.organization)).tx.state }

  function Replay<S>(requests: seq<Request<S>>, s: S): S
    decreases |requests|
  {
    if requests == [] then s else Replay(requests[1..], Effect(requests[0], s))
  }

  /** Each of the requests commits from the state that those before it left. */
  predicate AllCommit<S>(requests: seq<Request<S>>, s: S)
    decreases |requests|
  {
    requests == [] || (Commits(requests[0].organization, requests[0].body, s) && AllCommit(requests[1..], Effect(requests[0], s)))
  }

  lemma {:induction false} ReplayInTwoParts<S>(x: seq<Request<S>>, y: seq<Request<S>>, s: S)
    requires AllCommit(x, s) && AllCommit(y, Replay(x, s))
    ensures AllCommit(x + y, s) && Replay(x + y, s) == Replay(y, Replay(x, s))
    decreases |x|
  {
    if x == [] {
      assert x + y == y;
    } else {
      assert (x + y)[0] == x[0] && (x + y)[1..] == x[1..] + y;
      ReplayInTwoParts(x[1..], y, Effect(x[0], s));
    }
  }

  lemma {:induction false} OutsideNeverAborted<S>(w: Work<S>, s: S)
    ensures !Perform(w, Tx(s, false), None).tx.aborted
  {
    match w {
      case Then(first, second) =>
        OutsideNeverAborted(first, s);
        OutsideNeverAborted(second, Perform(first, Tx(s, false), None).tx.state);
        assert Perform(first, Tx(s, false), None).tx == Tx(Perform(first, Tx(s, false), None).tx.state, false);
      case Caught(body, handler) =>
        OutsideNeverAborted(body, s);
        OutsideNeverAborted(handler, Perform(body, Tx(s, false), None).tx.state);
        assert Perform(body, Tx(s, false), None).tx == Tx(Perform(body, Tx(s, false), None).tx.state, false);
      case _ =>
    }
  }

  /** Outside a request, the state after any work is exactly the effects of the requests that committed,
      in order: requests that failed, and everything else, leave nothing. */
  lemma {:induction false} OnlyCommittedRequestsWrite<S>(w: Work<S>, s: S)
    ensures AllCommit(Committed(w, s), s) && Perform(w, Tx(s, false), None).tx.state == Replay(Committed(w, s), s)
    decreases w
  {
    match w {
      case Step(run) =>
      case Transaction(body) =>
      case Tenant(organization, body) =>
        var one := [Request(organization, body)];
        assert one[1..] == [] && Replay(one, s) == Effect(one[0], s);
      case Then(first, second) =>
        var r := Perform(first, Tx(s, false), None);
        OutsideNeverAborted(first, s);
        OnlyCommittedRequestsWrite(first, s);
        if r.ok {
          assert r.tx == Tx(r.tx.state, false);
          OnlyCommittedRequestsWrite(second, r.tx.state);
          ReplayInTwoParts(Committed(first, s), Committed(second, r.tx.state), s);
        } else {
          assert Committed(first, s) + [] == Committed(first, s);
        }
      case Caught(body, handler) =>
        var r := Perform(body, Tx(s, false), None);
        OutsideNeverAborted(body, s);
        OnlyCommittedRequestsWrite(body, s);
        if r.ok {
          assert Committed(body, s) + [] == Committed(body, s);
        } else {
          assert r.tx == Tx(r.tx.state, false);
          OnlyCommittedRequestsWrite(handler, r.tx.state);
          ReplayInTwoParts(Committed(body, s), Committed(handler, r.tx.state), s);
        }
    }
  }
}
