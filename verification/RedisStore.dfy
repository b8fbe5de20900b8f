/**
 The Redis keyspace that `RedisEventStore` works on, as a value, and what each Lua script makes of it.

 The state admits contents no Hooklane process wrote: keys of a foreign type, hashes with missing or
 garbled fields, pending entries without a message, messages with any field list.
 */
module RedisStore {
  import opened Options
  import opened DeliveryPolicy

  // ---------------------------------------------------------------- stream ids

  datatype StreamId = StreamId(ms: nat, sequence: nat)

  const ZERO_ID := StreamId(0, 0)

  predicate Less(a: StreamId, b: StreamId) {
    a.ms < b.ms || (a.ms == b.ms && a.sequence < b.sequence)
  }

  predicate AtMost(a: StreamId, b: StreamId) { a == b || Less(a, b) }

  /** The id XADD '*' generates when the server clock reads `clock`. */
  function NextId(last: StreamId, clock: nat): (id: StreamId)
    ensures Less(last, id)
  {
    if last.ms < clock then StreamId(clock, 0) else StreamId(last.ms, last.sequence + 1)
  }

  // ---------------------------------------------------------------- keyspace

  type Fields = seq<(string, string)>

  /**
   The id text of a status hash: absent or not of the form digits-digits; of that form, but unreadable to Redis, whose
   ids have two 64-bit halves; an id Redis reads although it would write it without leading zeros; or an id as Redis
   writes it. Scripts that compare texts accept only the last; XPENDING and XRANGE read the last two alike, and raise
   on an unreadable one.
   */
  datatype IdText = NoId | Unreadable | Padded(id: StreamId) | Plain(id: StreamId)

  predicate Readable(text: IdText) { text.Padded? || text.Plain? }

  /** A HINCRBY-able field of a status hash. */
  datatype Counter = Absent | Garbled | Number(n: int)

  /** A status hash. `None` stands for a field that is absent or holds no well-formed value. */
  datatype StatusHash = StatusHash(
    eventId: Option<string>,
    status: Option<EventStatus>,
    attempts: Counter,
    streamId: IdText,
    lastError: Option<string>,
    deadLetterAt: Option<nat>)

  /** An entry of the consumer group's pending list. */
  datatype Claim = Claim(consumer: nat, since: int)

  /** An idempotency record. */
  datatype Binding = Binding(eventId: Option<string>, fingerprint: Option<string>)

  /** An entry of the dead-letter stream: the source message's fields and the three that are appended. */
  datatype DeadRecord = DeadRecord(fields: Fields, errorClass: string, attempts: int, source: StreamId)

  /** An entry of the quarantine stream. */
  datatype QuarantineRecord = QuarantineRecord(source: StreamId, reason: string, eventId: Option<string>)

  datatype Key = StreamKey | RetryKey | DeadLetterKey | QuarantineKey | StatusKey(e: string) | IndexKey(k: string)

  /**
   `foreign` names the keys that hold a value of another type. `lastRead` is the group's last-delivered id;
   it is 0-0 before the group exists, the id the group is created at.
   */
  datatype Store = Store(
    hasStream: bool,
    entries: map<StreamId, Fields>,
    lastId: StreamId,
    hasGroup: bool,
    lastRead: StreamId,
    pending: map<StreamId, Claim>,
    statuses: map<string, StatusHash>,
    retries: map<string, int>,
    deadLetters: seq<DeadRecord>,
    quarantined: seq<QuarantineRecord>,
    index: map<string, Binding>,
    foreign: set<Key>)

  const EMPTY_STORE := Store(false, map[], ZERO_ID, false, ZERO_ID, map[], map[], map[], [], [], map[], {})

  // ---------------------------------------------------------------- fields of a message

  /** The first value of a field: `field_value` in the release, claim and quarantine scripts. */
  function FieldValue(fields: Fields, name: string): Option<string> {
    if fields == [] then None
    else if fields[0].0 == name then Some(fields[0].1)
    else FieldValue(fields[1..], name)
  }

  /** The last value of a field: the loop of the dead-letter script, and the client's dictionary of fields. */
  function LastValue(fields: Fields, name: string): Option<string> {
    if fields == [] then None
    else
      var last := fields[|fields| - 1];
      if last.0 == name then Some(last.1) else LastValue(fields[..|fields| - 1], name)
  }

  /** What an accepted event says, in the canonical texts the scripts receive. */
  datatype Content = Content(eventType: string, payload: string, acceptedAt: string)

  function Encode(e: string, c: Content): Fields {
    [("event_id", e), ("event_type", c.eventType), ("payload", c.payload), ("accepted_at_ms", c.acceptedAt)]
  }

  predicate IsHex(c: char) { '0' <= c <= '9' || 'a' <= c <= 'f' || 'A' <= c <= 'F' }

  predicate IsDash(i: int) { i == 8 || i == 13 || i == 18 || i == 23 }

  predicate UuidFrom(v: string, i: nat)
    decreases |v| - i
  {
    i >= |v| || ((if IsDash(i) then v[i] == '-' else IsHex(v[i])) && UuidFrom(v, i + 1))
  }

  /** `is_uuid`: 36 characters, dashes in the four places and hexadecimal digits everywhere else. */
  predicate IsUuid(v: string) { |v| == 36 && UuidFrom(v, 0) }

  // ---------------------------------------------------------------- commands

  predicate HasHash(s: Store, e: string) { e in s.statuses && StatusKey(e) !in s.foreign }

  /** XADD to the event stream. */
  function Post(s: Store, fields: Fields, clock: nat): Store {
    var id := NextId(s.lastId, clock);
    s.(hasStream := true, entries := s.entries[id := fields], lastId := id)
  }

  /** XACK of a pending id. */
  function Ack(s: Store, id: StreamId): Store { s.(pending := s.pending - {id}) }

  function SetHash(s: Store, e: string, h: StatusHash): Store { s.(statuses := s.statuses[e := h]) }

  predicate Unread(s: Store, id: StreamId) { id in s.entries && Less(s.lastRead, id) }

  /** What Redis itself sees to: the group lives inside the stream, and no entry has the id 0-0. */
  ghost predicate Physical(s: Store) {
    && (s.hasGroup ==> s.hasStream)
    && (!s.hasGroup ==> s.pending == map[] && s.lastRead == ZERO_ID)
    && (!s.hasStream ==> s.entries == map[])
    && (forall id :: id in s.entries ==> Less(ZERO_ID, id))
  }

  /** The messages the group's lag counts; before the group exists, all of them. */
  function UnreadIds(s: Store): set<StreamId> { set id | id in s.entries && Less(s.lastRead, id) }

  // ---------------------------------------------------------------- acceptance scripts

  function FreshHash(e: string, id: StreamId): StatusHash {
    StatusHash(Some(e), Some(Queued), Number(0), Plain(id), None, None)
  }

  function Create(s: Store, e: string, c: Content, clock: nat): Store {
    SetHash(Post(s, Encode(e, c), clock), e, FreshHash(e, NextId(s.lastId, clock)))
  }

  predicate StatusKeyFree(s: Store, e: string) { e !in s.statuses && StatusKey(e) !in s.foreign }

  function Enqueue(s: Store, e: string, c: Content, clock: nat): (Store, Reply<StreamId>) {
    if StreamKey in s.foreign || !StatusKeyFree(s, e) then (s, Err)
    else (Create(s, e, c, clock), Ok(NextId(s.lastId, clock)))
  }

  datatype Decision = Created(e: string) | Reused(e: string) | Conflict(e: string)

  function EnqueueKeyed(s: Store, k: string, fingerprint: string, e: string, c: Content, clock: nat)
    : (Store, Reply<Decision>)
  {
    if StreamKey in s.foreign || IndexKey(k) in s.foreign then (s, Err)
    else if k in s.index then
      var b := s.index[k];
      if b.fingerprint == None || b.eventId == None then (s, Err)
      else if b.fingerprint == Some(fingerprint) then (s, Ok(Reused(b.eventId.value)))
      else (s, Ok(Conflict(b.eventId.value)))
    else if !StatusKeyFree(s, e) then (s, Err)
    else
      var made := Create(s, e, c, clock);
      (made.(index := made.index[k := Binding(Some(e), Some(fingerprint))]), Ok(Created(e)))
  }

  // ---------------------------------------------------------------- delivery scripts

  predicate Bound(s: Store, e: string, id: StreamId) { HasHash(s, e) && s.statuses[e].streamId == Plain(id) }

  /** HINCRBY by one; it fails on a text. */
  function Increment(c: Counter): Counter {
    match c
    case Garbled => Garbled
    case Absent => Number(1)
    case Number(n) => Number(n + 1)
  }

  function StartDelivery(s: Store, e: string, id: StreamId): (Store, Reply<int>) {
    if !Bound(s, e, id) then (s, Err)
    else
      var h := s.statuses[e];
      var next := Increment(h.attempts);
      (SetHash(s, e, h.(status := Some(Delivering), attempts := next)), if next.Number? then Ok(next.n) else Err)
  }

  predicate IsPending(s: Store, id: StreamId) { s.hasStream && s.hasGroup && id in s.pending }

  function CompleteDelivery(s: Store, e: string, id: StreamId): (Store, Reply<()>) {
    if !Bound(s, e, id) || StreamKey in s.foreign || !IsPending(s, id) then (s, Err)
    else (SetHash(Ack(s, id), e, s.statuses[e].(status := Some(Delivered))), Ok(()))
  }

  function ScheduleRetry(s: Store, e: string, id: StreamId, due: int, error: string): (Store, Reply<()>) {
    if !Bound(s, e, id) || RetryKey in s.foreign then (s, Err)
    else
      var h := s.statuses[e].(status := Some(RetryScheduled), lastError := Some(error));
      (SetHash(s, e, h).(retries := s.retries[e := due]), Ok(()))
  }

  /** The members ZRANGEBYSCORE can return. */
  function Due(s: Store, now: int): set<string> { set e | e in s.retries && s.retries[e] <= now }

  /** `e` has the lowest score among the due members; the choice among equal scores is left open. */
  predicate FirstDue(s: Store, now: int, e: string) {
    e in Due(s, now) && forall d :: d in Due(s, now) ==> s.retries[e] <= s.retries[d]
  }

  /** The status hash is that of `e`, is scheduled, and its id text has the form of a stream id. */
  predicate Scheduled(s: Store, e: string) {
    && IsUuid(e) && HasHash(s, e)
    && s.statuses[e].eventId == Some(e)
    && s.statuses[e].status == Some(RetryScheduled)
    && s.statuses[e].streamId != NoId
  }

  /** Status hash, pending entry and stream message of `e` agree. */
  predicate Agrees(s: Store, e: string) {
    && Scheduled(s, e) && Readable(s.statuses[e].streamId)
    && var id := s.statuses[e].streamId.id;
    && id in s.pending && id in s.entries
    && FieldValue(s.entries[id], "event_id") == Some(e)
  }

  /** `remove_invalid_record`: the only case in which it also writes the status. */
  predicate Condemnable(s: Store, e: string) {
    Scheduled(s, e) && s.statuses[e].attempts.Number? && s.statuses[e].attempts.n >= 1
  }

  function RemoveInvalid(s: Store, e: string): Store {
    var s' := if Condemnable(s, e)
              then SetHash(s, e, s.statuses[e].(status := Some(DeadLetter), lastError := Some("invariant_violation")))
              else s;
    s'.(retries := s'.retries - {e})
  }

  function Requeue(s: Store, e: string, clock: nat): Store
    requires Agrees(s, e)
  {
    var h := s.statuses[e];
    var posted := Ack(Post(s, s.entries[h.streamId.id], clock), h.streamId.id);
    SetHash(posted, e, h.(status := Some(Queued), streamId := Plain(NextId(s.lastId, clock)), lastError := None))
      .(retries := s.retries - {e})
  }

  /** `e` is the member ZRANGEBYSCORE returned, or None when nothing is due. */
  function ReleaseDueRetry(s: Store, first: Option<string>, clock: nat): (Store, Reply<int>) {
    if StreamKey in s.foreign || !s.hasStream || RetryKey in s.foreign then (s, Err)
    else if first == None then (s, Ok(0))
    else
      var e := first.value;
      if Scheduled(s, e) && (!s.hasGroup || s.statuses[e].streamId == Unreadable) then (s, Err)
      else if Agrees(s, e) then (Requeue(s, e, clock), Ok(1))
      else (RemoveInvalid(s, e), Ok(2))
  }

  // ---------------------------------------------------------------- claiming

  datatype Disposition = ForDelivery | ForRetry | Violation

  function Dispose(s: Store, id: StreamId): Disposition
    requires id in s.entries
  {
    var e := FieldValue(s.entries[id], "event_id");
    if e == None || !IsUuid(e.value) || !Bound(s, e.value, id) || s.statuses[e.value].eventId != e then Violation
    else match s.statuses[e.value].status
      case Some(RetryScheduled) => ForRetry
      case Some(Queued) => ForDelivery
      case Some(Delivering) => ForDelivery
      case _ => Violation
  }

  predicate Claimable(s: Store, id: StreamId) { id in s.entries && Dispose(s, id) != ForRetry }

  /** The pending ids XPENDING reports as idle for at least `minIdle`. */
  function Idle(s: Store, now: int, minIdle: int): set<StreamId> {
    set id | id in s.pending && now - s.pending[id].since >= minIdle
  }

  function IdleBefore(s: Store, now: int, minIdle: int, id: StreamId): set<StreamId> {
    set x | x in Idle(s, now, minIdle) && Less(x, id)
  }

  const SCAN_LIMIT := 100

  /** `id` is among the first hundred idle entries. */
  predicate Scanned(s: Store, now: int, minIdle: int, id: StreamId) {
    id in Idle(s, now, minIdle) && |IdleBefore(s, now, minIdle, id)| < SCAN_LIMIT
  }

  /** The claim scan settles on the lowest claimable id it looks at. */
  ghost predicate ScanFinds(s: Store, now: int, minIdle: int, found: Option<StreamId>) {
    match found
    case None => forall id :: Scanned(s, now, minIdle, id) ==> !Claimable(s, id)
    case Some(x) =>
      && Scanned(s, now, minIdle, x) && Claimable(s, x)
      && forall id :: Scanned(s, now, minIdle, id) && Less(id, x) ==> !Claimable(s, id)
  }

  /** XCLAIM. */
  function Take(s: Store, id: StreamId, consumer: nat, now: int): Store {
    s.(pending := s.pending[id := Claim(consumer, now)])
  }

  // ---------------------------------------------------------------- reading

  predicate NextUnread(s: Store, found: Option<StreamId>) {
    match found
    case None => forall id :: id in s.entries ==> !Unread(s, id)
    case Some(x) => Unread(s, x) && forall id :: id in s.entries && Unread(s, id) ==> AtMost(x, id)
  }

  /** XREADGROUP of one new message. */
  function Deliver(s: Store, id: StreamId, consumer: nat, now: int): Store {
    s.(pending := s.pending[id := Claim(consumer, now)], lastRead := id)
  }

  /** XGROUP CREATE ... 0-0 MKSTREAM, with BUSYGROUP ignored. */
  function EnsureGroup(s: Store): (Store, Reply<()>) {
    if StreamKey in s.foreign then (s, Err)
    else if s.hasStream && s.hasGroup then (s, Ok(()))
    else (s.(hasStream := true, hasGroup := true, lastRead := ZERO_ID, pending := map[]), Ok(()))
  }

  // ---------------------------------------------------------------- giving up

  /** Quarantine may rewrite the status only when the hash is bound to this very message. */
  predicate SafeToCondemn(s: Store, id: StreamId)
    requires id in s.entries
  {
    && FieldValue(s.entries[id], "event_id").Some?
    && var e := FieldValue(s.entries[id], "event_id").value;
    && IsUuid(e) && Bound(s, e, id)
    && s.statuses[e].eventId == Some(e)
    && s.statuses[e].status in {Some(Queued), Some(Delivering)}
  }

  function QuarantineEntry(s: Store, id: StreamId, reason: string): QuarantineRecord
    requires id in s.entries
  {
    var e := FieldValue(s.entries[id], "event_id");
    QuarantineRecord(id, reason, if e.Some? && IsUuid(e.value) then e else None)
  }

  function Quarantine(s: Store, id: StreamId, reason: string): (Store, Reply<()>) {
    if StreamKey in s.foreign || QuarantineKey in s.foreign || !IsPending(s, id) || id !in s.entries then (s, Err)
    else
      var s1 := Ack(s, id).(quarantined := s.quarantined + [QuarantineEntry(s, id, reason)]);
      if SafeToCondemn(s, id) then
        var e := FieldValue(s.entries[id], "event_id").value;
        (SetHash(s1, e, s.statuses[e].(status := Some(DeadLetter), lastError := Some(reason))), Ok(()))
      else (s1, Ok(()))
  }

  /** The checks of the dead-letter script, in its order; `e` names the hash. */
  predicate MayDeadLetter(s: Store, e: string, id: StreamId) {
    && StreamKey !in s.foreign && s.hasStream && DeadLetterKey !in s.foreign && RetryKey !in s.foreign
    && Bound(s, e, id)
    && var h := s.statuses[e];
    && h.status == Some(Delivering) && h.eventId.Some? && h.attempts.Number? && h.attempts.n >= 1
    && IsPending(s, id) && id in s.entries
    && LastValue(s.entries[id], "event_id") == h.eventId
  }

  function MoveToDeadLetter(s: Store, e: string, id: StreamId, error: string): (Store, Reply<nat>) {
    if !MayDeadLetter(s, e, id) then (s, Err)
    else
      var h := s.statuses[e];
      var at := |s.deadLetters|;
      var s1 := Ack(s, id).(
        deadLetters := s.deadLetters + [DeadRecord(s.entries[id], error, h.attempts.n, id)],
        retries := s.retries - {h.eventId.value});
      (SetHash(s1, e, h.(status := Some(DeadLetter), lastError := Some(error), deadLetterAt := Some(at))), Ok(at))
  }
}
