/** Idempotency keys: a request that carries a key may take effect once while its record lives. */
module Idempotency {
  import opened Wrappers

  const RETENTION_MS: int := 24 * 60 * 60 * 1000

  /** Client is the text of a request header; ForEvent is the key the automatic posting of an
      accounting event derives from the event. Clients may send either. */
  datatype Key = Client(text: string) | ForEvent(event: nat)

  predicate ValidKey(key: Key) {
    key.Client? ==> 8 <= |key.text| <= 128
  }

  datatype Endpoint = CancelBookings | CancelTrips | PostEvents | ReverseEntries

  /** The stored payload stands for its hash. */
  datatype Record<P> = Record(payload: P, resource: Option<nat>, expires: int)

  type Records<P> = map<(Endpoint, Key), Record<P>>

  datatype Operation<P> = Replay(resource: Option<nat>) | Fresh(records: Records<P>)

  function Begin<P(==)>(records: Records<P>, endpoint: Endpoint, key: Key, payload: P, now: int): Result<Operation<P>> {
    if !ValidKey(key) then Failure(BadRequest)
    else if (endpoint, key) in records && records[(endpoint, key)].expires > now then
      if records[(endpoint, key)].payload != payload then Failure(Conflict)
      else Success(Replay(records[(endpoint, key)].resource))
    else Success(Fresh(records[(endpoint, key) := Record(payload, None, now + RETENTION_MS)]))
  }

  function Complete<P>(records: Records<P>, endpoint: Endpoint, key: Key, resource: nat): Records<P>
    requires (endpoint, key) in records
  {
    records[(endpoint, key) := records[(endpoint, key)].(resource := Some(resource))]
  }

  /** From the first use of a key to the next: for 24 hours after an operation was entered and completed
      the same payload gets its resource back and any other is refused; afterwards the key is free. */
  lemma CompletedDecides<P>(records: Records<P>, endpoint: Endpoint, key: Key, payload: P, now: int, resource: nat, again: P, later: int)
    requires Begin(records, endpoint, key, payload, now).Success? && Begin(records, endpoint, key, payload, now).value.Fresh?
    ensures var completed := Complete(Begin(records, endpoint, key, payload, now).value.records, endpoint, key, resource);
      && (forall k :: k in records && k != (endpoint, key) ==> k in completed && completed[k] == records[k])
      && Begin(completed, endpoint, key, again, later) ==
           if later >= now + RETENTION_MS then Success(Fresh(completed[(endpoint, key) := Record(again, None, later + RETENTION_MS)]))
           else if again == payload then Success(Replay(Some(resource)))
           else Failure(Conflict)
  {}
}
