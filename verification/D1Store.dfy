/**
 The D1 database of the Cloudflare backend, as a value, and what each SQL statement makes of it. A batch is one
 transaction. Clock readings are arguments: no property below depends on them.
 */
module D1Store {
  import opened Options
  import opened DeliveryPolicy
  import opened Chunker

  /** A row of `events`. */
  datatype Row = Row(
    eventType: string,
    legacyPayload: Bytes,
    status: EventStatus,
    attempts: nat,
    fingerprint: string,
    token: Option<nat>,
    lease: Option<int>)

  /** A row of `outbox`; `sent` is its state. */
  datatype Box = Box(sent: bool, sends: nat, claim: Option<nat>, lease: Option<int>, updated: int)

  /**
   `keys` is the unique index on the idempotency key hash; `chunks` holds, for each event id, the chunk rows
   by index.
   */
  datatype D1 = D1(
    events: map<string, Row>,
    keys: map<string, string>,
    chunks: map<string, map<nat, Bytes>>,
    outbox: map<string, Box>)

  const EMPTY_DB := D1(map[], map[], map[], map[])

  /** The schema's references: chunk rows, outbox rows and key entries point at events. */
  predicate Referential(d: D1) {
    && d.chunks.Keys <= d.events.Keys && d.outbox.Keys <= d.events.Keys
    && forall k :: k in d.keys ==> d.keys[k] in d.events
  }

  datatype Request = Request(eventType: string, payload: Bytes)

  // ---------------------------------------------------------------- acceptance

  function NewRow(eventType: string, fingerprint: string): Row {
    Row(eventType, [], Queued, 0, fingerprint, None, None)
  }

  /** INSERT ... ON CONFLICT(idempotency_key_hash) DO NOTHING; None when the primary key is taken. */
  function InsertEvent(d: D1, e: string, eventType: string, key: Option<string>, fingerprint: string): Option<D1> {
    if key.Some? && key.value in d.keys then Some(d)
    else if e in d.events then None
    else Some(d.(events := d.events[e := NewRow(eventType, fingerprint)],
                 keys := if key.Some? then d.keys[key.value := e] else d.keys))
  }

  function ChunkRows(d: D1, e: string): map<nat, Bytes> { if e in d.chunks then d.chunks[e] else map[] }

  /** INSERT ... SELECT ... WHERE EXISTS (event) ON CONFLICT(event_id, chunk_index) DO NOTHING. */
  function InsertChunk(d: D1, e: string, i: nat, piece: Bytes): D1 {
    if e !in d.events || i in ChunkRows(d, e) then d
    else d.(chunks := d.chunks[e := ChunkRows(d, e)[i := piece]])
  }

  /** The chunk inserts of a batch, the first `n` of them. */
  function InsertChunks(d: D1, e: string, pieces: seq<Bytes>, n: nat): D1
    requires n <= |pieces|
  {
    if n == 0 then d else InsertChunk(InsertChunks(d, e, pieces, n - 1), e, n - 1, pieces[n - 1])
  }

  function InsertOutbox(d: D1, e: string, now: int): D1 {
    if e !in d.events || e in d.outbox then d
    else d.(outbox := d.outbox[e := Box(false, 0, None, None, now)])
  }

  /** The row the batch's last statement selects. */
  datatype Selected = Selected(e: string, fingerprint: string, status: EventStatus, attempts: nat)

  function Lookup(d: D1, e: string, key: Option<string>): Option<Selected> {
    var id := if key == None then Some(e) else if key.value in d.keys then Some(d.keys[key.value]) else None;
    if id.Some? && id.value in d.events
    then
      var row := d.events[id.value];
      Some(Selected(id.value, row.fingerprint, row.status, row.attempts))
    else None
  }

  /** The acceptance batch; an error rolls everything back. */
  function AcceptBatch(d: D1, e: string, eventType: string, pieces: seq<Bytes>, key: Option<string>,
                       fingerprint: string, now: int): (D1, Reply<Selected>)
  {
    match InsertEvent(d, e, eventType, key, fingerprint)
    case None => (d, Err)
    case Some(d1) =>
      var d2 := InsertOutbox(InsertChunks(d1, e, pieces, |pieces|), e, now);
      match Lookup(d2, e, key)
      case None => (d2, Err)
      case Some(row) => (d2, Ok(row))
  }

  /** What `accept` makes of the selected row. */
  datatype Acceptance = Conflicting | Recorded(e: string, created: bool, status: EventStatus, attempts: nat)

  function Judge(row: Selected, e: string, key: Option<string>, fingerprint: string): Acceptance {
    if key.Some? && row.fingerprint != fingerprint then Conflicting
    else Recorded(row.e, row.e == e, row.status, row.attempts)
  }

  // ---------------------------------------------------------------- payload

  /** The chunks with indices below `n`, joined in index order. */
  function JoinBelow(rows: map<nat, Bytes>, n: nat): Bytes {
    if n == 0 then [] else JoinBelow(rows, n - 1) + (if n - 1 in rows then rows[n - 1] else [])
  }

  ghost predicate IsHighest(ids: set<nat>, m: nat) { m in ids && forall i :: i in ids ==> i <= m }

  lemma {:induction false} HighestExists(ids: set<nat>) returns (m: nat)
    requires ids != {}
    ensures IsHighest(ids, m)
  {
    m :| m in ids;
    var rest := ids - {m};
    if rest != {} {
      var n := HighestExists(rest);
      assert forall i :: i in ids ==> i == m || i in rest;
      if m < n { m := n; }
    } else {
      assert forall i :: i in ids ==> i == m || i in rest;
    }
  }

  /** One more than the highest index. */
  ghost function Span(rows: map<nat, Bytes>): (n: nat)
    ensures forall i :: i in rows ==> i < n
    ensures rows != map[] ==> n > 0 && n - 1 in rows
    ensures rows == map[] ==> n == 0
  {
    if rows == map[] then 0
    else
      assert exists m: nat :: IsHighest(rows.Keys, m) by { var m := HighestExists(rows.Keys); }
      var m: nat :| IsHighest(rows.Keys, m);
      m + 1
  }

  /** `_load_payload_json`: the chunks in index order, or the payload an older row carries inline. */
  ghost function LoadPayload(d: D1, e: string, legacy: Bytes): Option<Bytes> {
    if ChunkRows(d, e) != map[] then Some(JoinBelow(ChunkRows(d, e), Span(ChunkRows(d, e))))
    else if legacy != [] then Some(legacy)
    else None
  }

  // ---------------------------------------------------------------- outbox

  predicate Claimable(d: D1, now: int, e: string) {
    && e in d.outbox && !d.outbox[e].sent
    && (d.outbox[e].claim == None || (d.outbox[e].lease.Some? && d.outbox[e].lease.value <= now))
  }

  /** The subselect: at most `limit` claimable rows, the least recently updated first; ties are left open. */
  ghost predicate Picks(d: D1, now: int, limit: nat, picked: set<string>) {
    && |picked| <= limit
    && (forall e :: e in picked ==> Claimable(d, now, e))
    && (forall e, f :: e in picked && f in d.outbox && Claimable(d, now, f) && f !in picked ==>
          d.outbox[e].updated <= d.outbox[f].updated)
    && (|picked| < limit ==> forall f :: f in d.outbox && Claimable(d, now, f) ==> f in picked)
  }

  /** `order` is some order of the picked rows. */
  ghost predicate Lists(order: seq<string>, picked: set<string>) {
    && |order| == |picked|
    && (forall e :: e in picked <==> e in order)
    && (forall i, j :: 0 <= i < j < |order| ==> order[i] != order[j])
  }

  function Elements(order: seq<string>): set<string> { set e | e in order }

  function Claimed(box: Box, token: nat, leaseUntil: int, now: int): Box {
    box.(claim := Some(token), lease := Some(leaseUntil), updated := now)
  }

  function ClaimOutbox(d: D1, picked: set<string>, token: nat, leaseUntil: int, now: int): D1 {
    d.(outbox := map e | e in d.outbox ::
         if e in picked then Claimed(d.outbox[e], token, leaseUntil, now) else d.outbox[e])
  }

  /** `token` None is the ingress path, which may mark only an unclaimed row. */
  predicate Dispatchable(d: D1, e: string, token: Option<nat>) {
    e in d.outbox && !d.outbox[e].sent && d.outbox[e].claim == token
  }

  function MarkDispatched(d: D1, e: string, token: Option<nat>, now: int): (D1, bool) {
    if Dispatchable(d, e, token)
    then (d.(outbox := d.outbox[e := Box(true, d.outbox[e].sends + 1, None, None, now)]), true)
    else (d, false)
  }

  function ReleaseClaim(d: D1, e: string, token: nat, now: int): D1 {
    if Dispatchable(d, e, Some(token))
    then d.(outbox := d.outbox[e := d.outbox[e].(claim := None, lease := None, updated := now)])
    else d
  }

  // ---------------------------------------------------------------- delivery

  /** The WHERE clause of the claiming UPDATE. */
  predicate Startable(row: Row, now: int, maximum: int) {
    || ((row.status == Queued || row.status == RetryScheduled) && row.attempts < maximum)
    || (&& row.status == Delivering
        && (row.lease == None || row.lease.value <= now)
        && row.attempts <= maximum)
  }

  /** Its CASE expression. */
  function NextAttempt(row: Row, maximum: int): nat {
    if row.status == Delivering && row.attempts < maximum then row.attempts + 1
    else if row.status == Delivering then row.attempts
    else row.attempts + 1
  }

  const DELIVERY_LEASE_MS := 30000

  function ClaimAttempt(d: D1, e: string, token: nat, now: int, maximum: int): (D1, Option<Row>) {
    if e in d.events && Startable(d.events[e], now, maximum) then
      var row := d.events[e].(
        status := Delivering,
        attempts := NextAttempt(d.events[e], maximum),
        token := Some(token),
        lease := Some(now + DELIVERY_LEASE_MS));
      (d.(events := d.events[e := row]), Some(row))
    else (d, None)
  }

  /** The fallback: dead-letter a waiting row whose attempts are used up. The token column is left alone. */
  function BuryExhausted(d: D1, e: string, maximum: int): (D1, bool) {
    if e in d.events && d.events[e].status in {Queued, RetryScheduled} && d.events[e].attempts >= maximum
    then (d.(events := d.events[e := d.events[e].(status := DeadLetter)]), true)
    else (d, false)
  }

  /** `_update_terminal`, the compare-and-set on the delivery token. */
  function Transition(d: D1, e: string, status: EventStatus, token: nat): (D1, bool) {
    if e in d.events && d.events[e].status == Delivering && d.events[e].token == Some(token)
    then (d.(events := d.events[e := d.events[e].(status := status, token := None, lease := None)]), true)
    else (d, false)
  }
}
