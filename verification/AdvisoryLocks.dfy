/** The advisory locks of one organisation's requests, and why they never form a cycle. */
module AdvisoryLocks {

  /** A lock is named by one text or by two; the database keeps the two kinds apart. Texts stand
      for their hashes, without the organisation's own prefix. */
  datatype Name = One(text: string) | Two(space: string, text: string)

  /** The requests that take advisory locks. Keys are whatever the client sent. */
  datatype Locker =
    | Booking(trip: string, key: string)
    | BookingCancel(trip: string, key: string)
    | TripCancel(trip: string, key: string)
    | ManifestLock(trip: string)
    | EventPosting(key: string, entry: string)
    | EntryPosting(entry: string)
    | EntryReversal(entry: string, key: string)
    | SettlementGeneration(agent: string)
    | SettlementFinish(settlement: string)

  const TRIPS := "ticketty"
  const REVERSAL := "journal-reversal:"

  function Idem(endpoint: string, key: string): Name { Two("idempotency:" + endpoint, key) }

  /** The locks of a request in the order it takes them. */
  function Locks(l: Locker): seq<Name> {
    match l
    case Booking(trip, key) => [Two(TRIPS, "trip:" + trip), One(key)]
    case BookingCancel(trip, key) => [Two(TRIPS, "trip:" + trip), Idem("bookings.cancel", key)]
    case TripCancel(trip, key) => [Two(TRIPS, "trip:" + trip), Idem("trips.cancel", key)]
    case ManifestLock(trip) => [Two(TRIPS, "trip:" + trip)]
    case EventPosting(key, entry) => [Idem("accounting.events.post", key), One("journal-entry:" + entry)]
    case EntryPosting(entry) => [One("journal-entry:" + entry)]
    case EntryReversal(entry, key) => [One(REVERSAL + entry), Idem("accounting.entries.reverse", key)]
    case SettlementGeneration(agent) => [One("settlement:" + agent)]
    case SettlementFinish(settlement) => [One("settlement-record:" + settlement)]
  }

  /** The level of a lock can be read off its name, even where a client's booking key spells the
      name of a journal lock. */
  function Level(n: Name): nat {
    match n
    case Two(space, _) => if space == TRIPS then 0 else 2
    case One(text) => if REVERSAL <= text then 1 else 3
  }

  /** Every request takes its locks in strictly rising level. */
  lemma LevelsRise(l: Locker, i: nat, j: nat)
    requires i < j < |Locks(l)|
    ensures Level(Locks(l)[i]) < Level(Locks(l)[j])
  {
    assert TRIPS[0] == 't' && forall endpoint: string :: ("idempotency:" + endpoint)[0] == 'i';
    if l.EventPosting? {
      assert ("journal-entry:" + l.entry)[8] == 'e' && REVERSAL[8] == 'r';
    }
  }

  // ---------------------------------------------------------------- running requests

  /** A request and how many of its locks it has. */
  datatype Task = Task(locker: Locker, got: nat)
  type Tasks = map<nat, Task>

  predicate Has(t: Task, n: Name) { exists i :: 0 <= i < t.got && i < |Locks(t.locker)| && Locks(t.locker)[i] == n }

  ghost predicate Disjoint(t: Task, u: Task) { forall n :: Has(t, n) ==> !Has(u, n) }

  /** No lock is held by two requests. */
  ghost predicate Consistent(tasks: Tasks) {
    forall p, q :: p in tasks && q in tasks && p != q ==> Disjoint(tasks[p], tasks[q])
  }

  predicate Waits(tasks: Tasks, p: nat) { p in tasks && tasks[p].got < |Locks(tasks[p].locker)| }

  function Next(tasks: Tasks, p: nat): Name
    requires Waits(tasks, p)
  {
    Locks(tasks[p].locker)[tasks[p].got]
  }

  predicate Free(tasks: Tasks, p: nat, n: Name) { forall q :: q in tasks && q != p ==> !Has(tasks[q], n) }

  datatype Event = Starts(task: nat, locker: Locker) | Acquires(task: nat) | Ends(task: nat)

  predicate Enabled(tasks: Tasks, e: Event) {
    match e
    case Starts(p, _) => p !in tasks
    case Acquires(p) => Waits(tasks, p) && Free(tasks, p, Next(tasks, p))
    case Ends(p) => p in tasks
  }

  /** A request that commits or rolls back drops all its locks. */
  function Happen(tasks: Tasks, e: Event): Tasks
    requires Enabled(tasks, e)
  {
    match e
    case Starts(p, locker) => tasks[p := Task(locker, 0)]
    case Acquires(p) => tasks[p := tasks[p].(got := tasks[p].got + 1)]
    case Ends(p) => tasks - {p}
  }

  lemma TakenKeepsDisjoint(t: Task, u: Task)
    requires t.got < |Locks(t.locker)|
    requires Disjoint(t, u) && Disjoint(u, t) && !Has(u, Locks(t.locker)[t.got])
    ensures Disjoint(t.(got := t.got + 1), u) && Disjoint(u, t.(got := t.got + 1))
  {
    var after := t.(got := t.got + 1);
    forall n | Has(after, n) ensures !Has(u, n) {
      var i :| 0 <= i < after.got && i < |Locks(t.locker)| && Locks(t.locker)[i] == n;
      assert Has(t, n) || i == t.got;
    }
  }

  lemma HappenKeepsConsistent(tasks: Tasks, e: Event)
    requires Consistent(tasks) && Enabled(tasks, e)
    ensures Consistent(Happen(tasks, e))
  {
    var after := Happen(tasks, e);
    forall p, q | p in after && q in after && p != q ensures Disjoint(after[p], after[q]) {
      if e.Acquires? && p == e.task {
        TakenKeepsDisjoint(tasks[p], tasks[q]);
      } else if e.Acquires? && q == e.task {
        TakenKeepsDisjoint(tasks[q], tasks[p]);
      }
    }
  }

  predicate History(tasks: Tasks, events: seq<Event>)
    decreases events
  {
    events != [] ==> Enabled(tasks, events[0]) && History(Happen(tasks, events[0]), events[1..])
  }

  function Outcome(tasks: Tasks, events: seq<Event>): Tasks
    requires History(tasks, events)
    decreases events
  {
    if events == [] then tasks else Outcome(Happen(tasks, events[0]), events[1..])
  }

  lemma {:induction false} HistoryKeepsConsistent(tasks: Tasks, events: seq<Event>)
    requires Consistent(tasks) && History(tasks, events)
    ensures Consistent(Outcome(tasks, events))
    decreases events
  {
    if events != [] {
      HappenKeepsConsistent(tasks, events[0]);
      HistoryKeepsConsistent(Happen(tasks, events[0]), events[1..]);
    }
  }

  // ---------------------------------------------------------------- no deadlock

  lemma {:induction false} HighestWaiter(tasks: Tasks, waiting: set<nat>) returns (p: nat)
    requires waiting != {} && forall q :: q in waiting ==> Waits(tasks, q)
    ensures p in waiting && forall q :: q in waiting ==> Level(Next(tasks, q)) <= Level(Next(tasks, p))
  {
    p :| p in waiting;
    if waiting != {p} {
      var r := HighestWaiter(tasks, waiting - {p});
      if Level(Next(tasks, p)) < Level(Next(tasks, r)) { p := r; }
    }
  }

  /** However requests were interleaved, no set of them waits on one another: among any requests
      that still want a lock, one wants a lock that none of the others has. */
  lemma NoDeadlock(events: seq<Event>, waiting: set<nat>) returns (p: nat)
    requires History(map[], events)
    requires waiting != {} && forall q :: q in waiting ==> Waits(Outcome(map[], events), q)
    ensures p in waiting && forall q :: q in waiting && q != p ==> q in Outcome(map[], events) && !Has(Outcome(map[], events)[q], Next(Outcome(map[], events), p))
  {
    var tasks := Outcome(map[], events);
    p := HighestWaiter(tasks, waiting);
    forall q | q in waiting && q != p ensures !Has(tasks[q], Next(tasks, p)) {
      if Has(tasks[q], Next(tasks, p)) {
        var i :| 0 <= i < tasks[q].got && i < |Locks(tasks[q].locker)| && Locks(tasks[q].locker)[i] == Next(tasks, p);
        LevelsRise(tasks[q].locker, i, tasks[q].got);
      }
    }
  }

  /** In every reachable state with requests under way, one of them can go on: it can take its next
      lock, or it has them all and can end. */
  lemma SomeoneMoves(events: seq<Event>) returns (e: Event)
    requires History(map[], events) && Outcome(map[], events) != map[]
    ensures Enabled(Outcome(map[], events), e) && !e.Starts?
    ensures e.Ends? ==> !Waits(Outcome(map[], events), e.task)
  {
    var tasks := Outcome(map[], events);
    if forall p :: p in tasks ==> Waits(tasks, p) {
      assert tasks.Keys == {} ==> tasks == map[];
      var p := NoDeadlock(events, tasks.Keys);
      assert Free(tasks, p, Next(tasks, p));
      e := Acquires(p);
    } else {
      var p :| p in tasks && !Waits(tasks, p);
      e := Ends(p);
    }
  }

  // ---------------------------------------------------------------- who waits for whom

  predicate Blocks(tasks: Tasks, q: nat, p: nat) { Waits(tasks, p) && q in tasks && q != p && Has(tasks[q], Next(tasks, p)) }

  predicate CanGoOn(tasks: Tasks, p: nat) { p in tasks && (Waits(tasks, p) ==> Free(tasks, p, Next(tasks, p))) }

  /** Each request on the path wants a lock that the next one has. */
  predicate WaitPath(tasks: Tasks, path: seq<nat>) {
    path != [] && path[0] in tasks && forall i :: 0 < i < |path| ==> Blocks(tasks, path[i], path[i - 1])
  }

  /** A request waits for at most one other, because a lock has at most one holder. */
  lemma OneBlocker(tasks: Tasks, p: nat, q: nat, r: nat)
    requires Consistent(tasks) && Blocks(tasks, q, p) && Blocks(tasks, r, p)
    ensures q == r
  {}

  lemma BlockerWantsMore(tasks: Tasks, q: nat, p: nat)
    requires Blocks(tasks, q, p) && Waits(tasks, q)
    ensures Level(Next(tasks, p)) < Level(Next(tasks, q)) <= 3
  {
    var i :| 0 <= i < tasks[q].got && i < |Locks(tasks[q].locker)| && Locks(tasks[q].locker)[i] == Next(tasks, p);
    LevelsRise(tasks[q].locker, i, tasks[q].got);
  }

  lemma {:induction false} FollowHolders(tasks: Tasks, p: nat) returns (path: seq<nat>)
    requires p in tasks
    ensures WaitPath(tasks, path) && path[0] == p && CanGoOn(tasks, path[|path| - 1])
    ensures |path| <= if Waits(tasks, p) then 5 - Level(Next(tasks, p)) else 1
    decreases if Waits(tasks, p) then 4 - Level(Next(tasks, p)) else 0
  {
    if CanGoOn(tasks, p) { return [p]; }
    var q :| q in tasks && q != p && Has(tasks[q], Next(tasks, p));
    assert Blocks(tasks, q, p);
    if Waits(tasks, q) { BlockerWantsMore(tasks, q, p); }
    var rest := FollowHolders(tasks, q);
    path := [p] + rest;
  }

  lemma {:induction false} OnlyPath(tasks: Tasks, path: seq<nat>, other: seq<nat>)
    requires Consistent(tasks) && WaitPath(tasks, path) && CanGoOn(tasks, path[|path| - 1])
    requires WaitPath(tasks, other) && other[0] == path[0]
    ensures other <= path
    decreases |other|
  {
    if |other| > 1 {
      assert Blocks(tasks, other[1], other[0]);
      assert |path| > 1 && Blocks(tasks, path[1], path[0]);
      OneBlocker(tasks, path[0], other[1], path[1]);
      OnlyPath(tasks, path[1..], other[1..]);
      assert other == [other[0]] + other[1..] && path == [path[0]] + path[1..];
    }
  }

  /** In every reachable state, following from any request who has the lock it wants is a single path of
      at most five requests that ends in one which can go on. */
  lemma WaitingEnds(events: seq<Event>, p: nat) returns (path: seq<nat>)
    requires History(map[], events) && p in Outcome(map[], events)
    ensures WaitPath(Outcome(map[], events), path) && path[0] == p && |path| <= 5
    ensures CanGoOn(Outcome(map[], events), path[|path| - 1])
    ensures forall other: seq<nat> :: WaitPath(Outcome(map[], events), other) && other[0] == p ==> other <= path
  {
    var tasks := Outcome(map[], events);
    HistoryKeepsConsistent(map[], events);
    path := FollowHolders(tasks, p);
    forall other: seq<nat> | WaitPath(tasks, other) && other[0] == p ensures other <= path {
      OnlyPath(tasks, path, other);
    }
  }

  // ---------------------------------------------------------------- who excludes whom

  datatype Subject = Trip(id: string) | Entry(id: string) | Undone(id: string) | Agent(id: string) | Settlement(id: string)
                   | OrderKey(key: string) | Operation(kind: string, key: string)

  /** What nobody else may work on at the same time: the trip that is sold, cancelled or sent off, the entry
      that is posted, the entry that is reversed, the agent or settlement that is settled, and the operation
      that the client's key stands for. */
  function Subjects(l: Locker): set<Subject> {
    match l
    case Booking(trip, key) => {Trip(trip), OrderKey(key)}
    case BookingCancel(trip, key) => {Trip(trip), Operation("bookings.cancel", key)}
    case TripCancel(trip, key) => {Trip(trip), Operation("trips.cancel", key)}
    case ManifestLock(trip) => {Trip(trip)}
    case EventPosting(key, entry) => {Operation("accounting.events.post", key), Entry(entry)}
    case EntryPosting(entry) => {Entry(entry)}
    case EntryReversal(entry, key) => {Undone(entry), Operation("accounting.entries.reverse", key)}
    case SettlementGeneration(agent) => {Agent(agent)}
    case SettlementFinish(settlement) => {Settlement(settlement)}
  }

  /** The text that a lock on this subject is taken under. */
  function NameOf(s: Subject): Name {
    match s
    case Trip(id) => Two("ticketty", "trip:" + id)
    case Entry(id) => One("journal-entry:" + id)
    case Undone(id) => One("journal-reversal:" + id)
    case Agent(id) => One("settlement:" + id)
    case Settlement(id) => One("settlement-record:" + id)
    case OrderKey(key) => One(key)
    case Operation(kind, key) => Two("idempotency:" + kind, key)
  }

  lemma LocksAreSubjects(l: Locker, n: Name)
    ensures n in Locks(l) <==> exists s :: s in Subjects(l) && NameOf(s) == n
  {
    if n in Locks(l) {
      var i :| 0 <= i < |Locks(l)| && Locks(l)[i] == n;
      match l
      case Booking(trip, key) => assert n == NameOf(if i == 0 then Trip(trip) else OrderKey(key));
      case BookingCancel(trip, key) => assert n == NameOf(if i == 0 then Trip(trip) else Operation("bookings.cancel", key));
      case TripCancel(trip, key) => assert n == NameOf(if i == 0 then Trip(trip) else Operation("trips.cancel", key));
      case ManifestLock(trip) => assert n == NameOf(Trip(trip));
      case EventPosting(key, entry) => assert n == NameOf(if i == 0 then Operation("accounting.events.post", key) else Entry(entry));
      case EntryPosting(entry) => assert n == NameOf(Entry(entry));
      case EntryReversal(entry, key) => assert n == NameOf(if i == 0 then Undone(entry) else Operation("accounting.entries.reverse", key));
      case SettlementGeneration(agent) => assert n == NameOf(Agent(agent));
      case SettlementFinish(settlement) => assert n == NameOf(Settlement(settlement));
    }
  }

  lemma SamePrefix(prefix: string, a: string, b: string)
    ensures prefix + a == prefix + b <==> a == b
  {
    assert (prefix + a)[|prefix|..] == a && (prefix + b)[|prefix|..] == b;
  }

  /** A client's key for an order is the text of a lock that has nothing to do with orders. */
  predicate Spells(s: Subject, t: Subject) {
    s.OrderKey? && match t
      case Entry(id) => s.key == "journal-entry:" + id
      case Undone(id) => s.key == "journal-reversal:" + id
      case Agent(id) => s.key == "settlement:" + id
      case Settlement(id) => s.key == "settlement-record:" + id
      case _ => false
  }

  predicate Collide(s: Subject, t: Subject) { s == t || Spells(s, t) || Spells(t, s) }

  /** Different subjects have different locks, but for such keys. */
  lemma NamesCollide(s: Subject, t: Subject)
    ensures NameOf(s) == NameOf(t) <==> Collide(s, t)
  {
    match (s, t)
    case (Trip(a), Trip(b)) => SamePrefix("trip:", a, b);
    case (Entry(a), Entry(b)) => SamePrefix("journal-entry:", a, b);
    case (Undone(a), Undone(b)) => SamePrefix("journal-reversal:", a, b);
    case (Agent(a), Agent(b)) => SamePrefix("settlement:", a, b);
    case (Settlement(a), Settlement(b)) => SamePrefix("settlement-record:", a, b);
    case (Operation(a, _), Operation(b, _)) => SamePrefix("idempotency:", a, b);
    case (Trip(_), Operation(b, _)) => assert "ticketty"[0] == 't' && ("idempotency:" + b)[0] == 'i';
    case (Operation(a, _), Trip(_)) => assert "ticketty"[0] == 't' && ("idempotency:" + a)[0] == 'i';
    case _ => PrefixesDiffer(TextOf(s), TextOf(t));
  }

  function TextOf(s: Subject): string {
    match s
    case Trip(id) => id
    case Entry(id) => id
    case Undone(id) => id
    case Agent(id) => id
    case Settlement(id) => id
    case OrderKey(key) => key
    case Operation(_, key) => key
  }

  lemma PrefixesDiffer(a: string, b: string)
    ensures "journal-entry:" + a != "journal-reversal:" + b && "journal-reversal:" + a != "journal-entry:" + b
    ensures "settlement:" + a != "settlement-record:" + b && "settlement-record:" + a != "settlement:" + b
    ensures "journal-entry:" + a != "settlement:" + b && "settlement:" + a != "journal-entry:" + b
    ensures "journal-entry:" + a != "settlement-record:" + b && "settlement-record:" + a != "journal-entry:" + b
    ensures "journal-reversal:" + a != "settlement:" + b && "settlement:" + a != "journal-reversal:" + b
    ensures "journal-reversal:" + a != "settlement-record:" + b && "settlement-record:" + a != "journal-reversal:" + b
  {
    Spelling(a);
    Spelling(b);
  }

  lemma Spelling(a: string)
    ensures ("journal-entry:" + a)[0] == 'j' && ("journal-reversal:" + a)[0] == 'j' && ("settlement:" + a)[0] == 's' && ("settlement-record:" + a)[0] == 's'
    ensures ("journal-entry:" + a)[8] == 'e' && ("journal-reversal:" + a)[8] == 'r'
    ensures ("settlement:" + a)[10] == ':' && ("settlement-record:" + a)[10] == '-'
  {}

  predicate Apart(l: Locker, m: Locker) { forall s, t :: s in Subjects(l) && t in Subjects(m) ==> !Collide(s, t) }

  /** In every reachable state two requests that have all their locks work on different things: one trip is
      sold, cancelled or sent off by one of them at a time, one entry posted or reversed, one agent settled,
      one key answered. */
  lemma Excludes(events: seq<Event>, p: nat, q: nat)
    requires History(map[], events)
    requires p in Outcome(map[], events) && q in Outcome(map[], events) && p != q
    requires !Waits(Outcome(map[], events), p) && !Waits(Outcome(map[], events), q)
    ensures Apart(Outcome(map[], events)[p].locker, Outcome(map[], events)[q].locker)
  {
    HistoryKeepsConsistent(map[], events);
    var tasks := Outcome(map[], events);
    var l, m := tasks[p].locker, tasks[q].locker;
    forall s, t | s in Subjects(l) && t in Subjects(m) ensures !Collide(s, t) {
      NamesCollide(s, t);
      LocksAreSubjects(l, NameOf(s));
      LocksAreSubjects(m, NameOf(t));
      assert NameOf(s) in Locks(l) ==> Has(tasks[p], NameOf(s));
      assert NameOf(t) in Locks(m) ==> Has(tasks[q], NameOf(t));
    }
  }

  /** And a request waits for another only if the two work on the same thing, or an order's key spells the name
      of the other's lock. */
  lemma WaitsOnlyFor(tasks: Tasks, p: nat, q: nat)
    requires Blocks(tasks, q, p)
    ensures !Apart(tasks[p].locker, tasks[q].locker)
  {
    var n := Next(tasks, p);
    LocksAreSubjects(tasks[p].locker, n);
    LocksAreSubjects(tasks[q].locker, n);
    var s :| s in Subjects(tasks[p].locker) && NameOf(s) == n;
    var t :| t in Subjects(tasks[q].locker) && NameOf(t) == n;
    NamesCollide(s, t);
  }
}
