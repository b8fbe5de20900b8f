/**
 What every run of the Redis protocol keeps under full interleaving, stale workers and crashes included:
 no accepted event is stranded, no event has two live messages, each event ends at most once, and every copy
 of an event carries what was accepted.
 */
module RedisSafety {
  import opened Options
  import opened DeliveryPolicy
  import opened RedisStore
  import opened RedisWorld

  // ---------------------------------------------------------------- vocabulary

  /** The stream id recorded in the event's status hash. */
  function Current(s: Store, e: string): StreamId {
    if e in s.statuses && Readable(s.statuses[e].streamId) then s.statuses[e].streamId.id else ZERO_ID
  }

  function StatusOf(s: Store, e: string): Option<EventStatus> {
    if e in s.statuses then s.statuses[e].status else None
  }

  function AttemptsOf(s: Store, e: string): int {
    if e in s.statuses && s.statuses[e].attempts.Number? then s.statuses[e].attempts.n else 0
  }

  /** Unread, or delivered to a consumer and not acknowledged. */
  predicate Live(s: Store, id: StreamId) { id in s.pending || Unread(s, id) }

  // ---------------------------------------------------------------- the invariant

  predicate HashOk(w: World, e: string) {
    && IsUuid(e) && e in w.store.statuses
    && var h := w.store.statuses[e];
    && h.eventId == Some(e) && h.status.Some? && h.attempts.Number? && h.attempts.n >= 0
    && h.streamId.Plain? && h.streamId.id in w.store.entries
    && h.streamId.id in w.owner && w.owner[h.streamId.id] == e
    && (h.status == Some(Delivering) ==> h.attempts.n >= 1)
    && (h.status == Some(Delivered) ==> e in w.taken)
  }

  /** A status that fits where the event's current message is. */
  predicate Placed(w: World, e: string) {
    var id := Current(w.store, e);
    && (Unread(w.store, id) ==> StatusOf(w.store, e) == Some(Queued))
    && (id in w.store.pending ==>
          || StatusOf(w.store, e) in {Some(Queued), Some(Delivering)}
          || (StatusOf(w.store, e) == Some(RetryScheduled) && e in w.store.retries))
  }

  predicate EntryOk(w: World, id: StreamId) {
    var s := w.store;
    && id in s.entries && Less(ZERO_ID, id) && AtMost(id, s.lastId)
    && id in w.owner && w.owner[id] in w.accepted && s.entries[id] == Encode(w.owner[id], w.accepted[w.owner[id]])
    && (Live(s, id) ==> Current(s, w.owner[id]) == id)
    && (AtMost(id, s.lastRead) && id !in s.pending ==> id in w.fates)
  }

  /** A message was requeued exactly when its event has moved on to a later message. */
  predicate FateOk(w: World, id: StreamId) {
    && id in w.store.entries && id !in w.store.pending && AtMost(id, w.store.lastRead)
    && id in w.fates && id in w.owner && (w.fates[id] == Requeued <==> Current(w.store, w.owner[id]) != id)
    && (w.fates[id] == Completed ==> w.owner[id] in w.taken)
  }

  predicate PcOk(w: World, pc: Pc) {
    && (HasId(pc) ==> IdOf(pc) in w.store.entries && AtMost(IdOf(pc), w.store.lastRead))
    && (HasMessage(pc) ==>
          && pc.m.id in w.owner && w.owner[pc.m.id] == pc.m.e
          && pc.m.e in w.accepted && w.accepted[pc.m.e] == pc.m.c)
    && (pc.Started? || pc.Taken? || pc.Refused? ==> pc.attempt >= 1)
    && (pc.Taken? ==> pc.m.e in w.taken)
    && (pc.Claimed? ==> pc.fit)
  }

  predicate GroupOk(s: Store) {
    && s.foreign == {} && AtMost(s.lastRead, s.lastId)
    && (s.hasGroup ==> s.hasStream) && (!s.hasStream ==> s.entries == map[])
    && (!s.hasGroup ==> s.lastRead == ZERO_ID && s.pending == map[])
    && (forall id :: id in s.pending ==> id in s.entries && AtMost(id, s.lastRead))
  }

  predicate RecordOk(w: World, r: DeadRecord) {
    && r.source in w.fates && w.fates[r.source] == DeadLettered
    && r.source in w.store.entries && r.fields == w.store.entries[r.source] && r.attempts >= 1
  }

  ghost predicate RecordsOk(w: World) {
    && (forall i :: 0 <= i < |w.store.deadLetters| ==> RecordOk(w, w.store.deadLetters[i]))
    && (forall i, j :: 0 <= i < j < |w.store.deadLetters| ==>
          w.store.deadLetters[i].source != w.store.deadLetters[j].source)
  }

  predicate CallOk(w: World, call: SinkCall) { call.e in w.accepted && call.c == w.accepted[call.e] }

  ghost predicate Core(w: World) {
    && GroupOk(w.store)
    && w.accepted.Keys == w.store.statuses.Keys && w.owner.Keys == w.store.entries.Keys
    && (forall e {:trigger HashOk(w, e)} :: e in w.accepted ==> HashOk(w, e))
    && (forall e {:trigger Placed(w, e)} :: e in w.accepted ==> Placed(w, e))
    && (forall id {:trigger EntryOk(w, id)} :: id in w.store.entries ==> EntryOk(w, id))
    && (forall id {:trigger FateOk(w, id)} :: id in w.fates ==> FateOk(w, id))
  }

  ghost predicate Inv(w: World) { Core(w) && Witnesses(w) }

  // ---------------------------------------------------------------- messages

  lemma EncodeFields(e: string, c: Content)
    ensures FieldValue(Encode(e, c), "event_id") == Some(e)
    ensures LastValue(Encode(e, c), "event_id") == Some(e)
    ensures LastValue(Encode(e, c), "event_type") == Some(c.eventType)
    ensures LastValue(Encode(e, c), "payload") == Some(c.payload)
    ensures LastValue(Encode(e, c), "accepted_at_ms") == Some(c.acceptedAt)
  {
    var f := Encode(e, c);
    var f1, f2, f3 := [f[0]], [f[0], f[1]], [f[0], f[1], f[2]];
    assert f[..3] == f3 && f3[..2] == f2 && f2[..1] == f1;
    assert LastValue(f1, "event_id") == Some(e);
    assert LastValue(f2, "event_id") == Some(e) && LastValue(f2, "event_type") == Some(c.eventType);
    assert LastValue(f3, "event_id") == Some(e) && LastValue(f3, "event_type") == Some(c.eventType);
  }

  /** Decoding returns what was accepted, or refuses. */
  lemma DecodeReturnsAccepted(cfg: Config, id: StreamId, e: string, c: Content)
    requires IsUuid(e)
    ensures Decode(cfg, id, Encode(e, c)) == if cfg.decodes(Encode(e, c)) then Some(Held(id, e, c)) else None
  {
    EncodeFields(e, c);
  }

  // ---------------------------------------------------------------- what only grows

  /** Messages, acceptances, fates and downstream takings are never withdrawn; reading never goes back. */
  ghost predicate Grows(w: World, w': World) {
    && (forall id :: id in w.store.entries ==> id in w'.store.entries && w'.store.entries[id] == w.store.entries[id])
    && (forall e :: e in w.accepted ==> e in w'.accepted && w'.accepted[e] == w.accepted[e])
    && (forall id :: id in w.owner ==> id in w'.owner && w'.owner[id] == w.owner[id])
    && (forall id :: id in w.fates ==> id in w'.fates && w'.fates[id] == w.fates[id])
    && w.taken <= w'.taken
    && AtMost(w.store.lastRead, w'.store.lastRead)
  }

  lemma GrowthKeepsPc(w: World, w': World, pc: Pc)
    requires Grows(w, w') && PcOk(w, pc)
    ensures PcOk(w', pc)
  {
  }

  /** Workers, dead-letter records and sink calls stay sound under growth. */
  ghost predicate Witnesses(w: World) {
    && (forall p :: p in w.pcs ==> PcOk(w, w.pcs[p]))
    && RecordsOk(w)
    && (forall i :: 0 <= i < |w.calls| ==> CallOk(w, w.calls[i]))
  }

  lemma GrowthKeepsWitnesses(w: World, w': World)
    requires Grows(w, w') && Witnesses(w)
    requires w'.calls == w.calls && w'.store.deadLetters == w.store.deadLetters
    requires forall p :: p in w'.pcs ==> PcOk(w', w'.pcs[p]) || (p in w.pcs && w'.pcs[p] == w.pcs[p])
    ensures Witnesses(w')
  {
    forall p | p in w'.pcs ensures PcOk(w', w'.pcs[p]) {
      if p in w.pcs && w'.pcs[p] == w.pcs[p] { GrowthKeepsPc(w, w', w.pcs[p]); }
    }
    forall i | 0 <= i < |w.store.deadLetters| ensures RecordOk(w', w'.store.deadLetters[i]) {
      assert RecordOk(w, w.store.deadLetters[i]);
    }
    forall i | 0 <= i < |w.calls| ensures CallOk(w', w'.calls[i]) {
      assert CallOk(w, w.calls[i]);
    }
  }

  // ---------------------------------------------------------------- the kinds of store change

  /** A new event with its first message. */
  ghost predicate Creates(w: World, w': World, e: string, c: Content, clock: nat) {
    && IsUuid(e) && StatusKeyFree(w.store, e)
    && w' == w.(store := w'.store, accepted := w.accepted[e := c], keyless := w'.keyless,
                owner := w.owner[NextId(w.store.lastId, clock) := e])
    && w'.store == Create(w.store, e, c, clock).(index := w'.store.index)
  }

  lemma CreateKeepsCore(w: World, w': World, e: string, c: Content, clock: nat)
    requires Core(w) && Creates(w, w', e, c, clock)
    ensures Core(w') && Grows(w, w')
  {
    CreateGrows(w, w', e, c, clock);
    CreateKeepsGroup(w, w', e, c, clock);
    CreateKeepsEvents(w, w', e, c, clock);
    CreateKeepsEntries(w, w', e, c, clock);
    CreateKeepsFates(w, w', e, c, clock);
    hide Creates, Create, HashOk, Placed, EntryOk, FateOk, GroupOk, Grows;
  }

  lemma CreateGrows(w: World, w': World, e: string, c: Content, clock: nat)
    requires Core(w) && Creates(w, w', e, c, clock)
    ensures Grows(w, w')
  {
    var id := NextId(w.store.lastId, clock);
    assert id !in w.store.entries by { assert id in w.store.entries ==> EntryOk(w, id); }
    hide HashOk, Placed, EntryOk, FateOk, GroupOk;
  }

  lemma CreateKeepsGroup(w: World, w': World, e: string, c: Content, clock: nat)
    requires Core(w) && Creates(w, w', e, c, clock)
    ensures GroupOk(w'.store)
    ensures w'.accepted.Keys == w'.store.statuses.Keys && w'.owner.Keys == w'.store.entries.Keys
  {
    hide HashOk, Placed, EntryOk, FateOk;
  }

  lemma CreateKeepsFates(w: World, w': World, e: string, c: Content, clock: nat)
    requires Core(w) && Creates(w, w', e, c, clock)
    ensures forall x {:trigger FateOk(w', x)} :: x in w'.fates ==> FateOk(w', x)
  {
    forall x | x in w'.fates ensures FateOk(w', x) { assert FateOk(w, x); assert EntryOk(w, x); }
  }

  lemma CreateKeepsEvents(w: World, w': World, e: string, c: Content, clock: nat)
    requires Core(w) && Creates(w, w', e, c, clock)
    ensures forall d {:trigger HashOk(w', d)} {:trigger Placed(w', d)} ::
              d in w'.accepted ==> HashOk(w', d) && Placed(w', d)
  {
    var id := NextId(w.store.lastId, clock);
    assert id !in w.store.entries by { assert id in w.store.entries ==> EntryOk(w, id); }
    forall d | d in w'.accepted ensures HashOk(w', d) && Placed(w', d) {
      if d != e { assert HashOk(w, d) && Placed(w, d); }
    }
  }

  lemma CreateKeepsEntries(w: World, w': World, e: string, c: Content, clock: nat)
    requires Core(w) && Creates(w, w', e, c, clock)
    ensures forall x {:trigger EntryOk(w', x)} :: x in w'.store.entries ==> EntryOk(w', x)
  {
    forall x | x in w'.store.entries ensures EntryOk(w', x) {
      if x != NextId(w.store.lastId, clock) { assert EntryOk(w, x); }
    }
  }

  /**
   One event's hash is rewritten without moving it to another message; its current message may be
   acknowledged at the same time, with a fate recorded for it.
   */
  ghost predicate Touches(w: World, w': World, e: string) {
    var s, s', id := w.store, w'.store, Current(w.store, e);
    && e in w.accepted && w'.accepted == w.accepted && w'.taken == w.taken && w'.owner == w.owner
    && s'.entries == s.entries && s'.lastId == s.lastId && s'.lastRead == s.lastRead
    && s'.hasStream == s.hasStream && s'.hasGroup == s.hasGroup && s'.foreign == s.foreign
    && e in s.statuses && e in s'.statuses && s'.statuses == s.statuses[e := s'.statuses[e]]
    && s'.statuses[e].streamId == s.statuses[e].streamId
    && HashOk(w', e) && Placed(w', e)
    && (forall d :: d in s.retries && d != e ==> d in s'.retries)
    && (|| (s'.pending == s.pending && w'.fates == w.fates)
        || (&& id in s.pending && s'.pending == s.pending - {id}
            && id in w'.fates && w'.fates == w.fates[id := w'.fates[id]] && w'.fates[id] != Requeued
            && (w'.fates[id] == Completed ==> e in w.taken)))
  }

  lemma TouchKeepsCore(w: World, w': World, e: string)
    requires Core(w) && Touches(w, w', e)
    ensures Core(w') && Grows(w, w')
  {
    var id := Current(w.store, e);
    assert HashOk(w, e);
    assert id in w.store.pending ==> id !in w.fates by {
      assert id in w.fates ==> FateOk(w, id);
    }
    TouchKeepsEvents(w, w', e);
    TouchKeepsEntries(w, w', e);
    TouchKeepsFates(w, w', e);
  }

  lemma TouchKeepsEntries(w: World, w': World, e: string)
    requires Core(w) && Touches(w, w', e)
    ensures forall x {:trigger EntryOk(w', x)} :: x in w'.store.entries ==> EntryOk(w', x)
  {
    forall x | x in w'.store.entries ensures EntryOk(w', x) { assert EntryOk(w, x); }
  }

  lemma TouchKeepsFates(w: World, w': World, e: string)
    requires Core(w) && Touches(w, w', e)
    ensures forall x {:trigger FateOk(w', x)} :: x in w'.fates ==> FateOk(w', x)
  {
    assert HashOk(w, e);
    forall x | x in w'.fates ensures FateOk(w', x) {
      assert x in w.fates ==> FateOk(w, x);
      assert EntryOk(w, x);
    }
  }

  lemma TouchKeepsEvents(w: World, w': World, e: string)
    requires Core(w) && Touches(w, w', e)
    ensures forall d {:trigger HashOk(w', d)} {:trigger Placed(w', d)} ::
              d in w'.accepted ==> HashOk(w', d) && Placed(w', d)
  {
    assert HashOk(w, e);
    forall d | d in w'.accepted ensures HashOk(w', d) && Placed(w', d) {
      assert HashOk(w, d) && Placed(w, d);
    }
  }

  /** A scheduled event moves on to a new message with the same fields. */
  ghost predicate Requeues(w: World, w': World, e: string, clock: nat) {
    && e in w.accepted && Agrees(w.store, e)
    && w' == w.(store := Requeue(w.store, e, clock), pcs := w'.pcs,
                fates := w.fates[Current(w.store, e) := Requeued],
                owner := w.owner[NextId(w.store.lastId, clock) := e])
  }

  lemma RequeueKeepsCore(w: World, w': World, e: string, clock: nat)
    requires Core(w) && Requeues(w, w', e, clock)
    ensures Core(w') && Grows(w, w')
  {
    RequeueGrows(w, w', e, clock);
    RequeueKeepsGroup(w, w', e, clock);
    RequeueKeepsEvents(w, w', e, clock);
    RequeueKeepsEntries(w, w', e, clock);
    RequeueKeepsFates(w, w', e, clock);
    hide Requeues, Requeue, HashOk, Placed, EntryOk, FateOk, GroupOk, Grows;
  }

  lemma RequeueGrows(w: World, w': World, e: string, clock: nat)
    requires Core(w) && Requeues(w, w', e, clock)
    ensures Grows(w, w')
  {
    var s, id, id' := w.store, Current(w.store, e), NextId(w.store.lastId, clock);
    assert HashOk(w, e);
    assert id' !in s.entries by { assert id' in s.entries ==> EntryOk(w, id'); }
    assert id !in w.fates by { assert id in w.fates ==> FateOk(w, id); }
    hide HashOk, Placed, EntryOk, FateOk, GroupOk;
  }

  lemma RequeueKeepsGroup(w: World, w': World, e: string, clock: nat)
    requires Core(w) && Requeues(w, w', e, clock)
    ensures GroupOk(w'.store)
    ensures w'.accepted.Keys == w'.store.statuses.Keys && w'.owner.Keys == w'.store.entries.Keys
  {
    hide HashOk, Placed, EntryOk, FateOk;
  }

  lemma RequeueKeepsFates(w: World, w': World, e: string, clock: nat)
    requires Core(w) && Requeues(w, w', e, clock)
    ensures forall x {:trigger FateOk(w', x)} :: x in w'.fates ==> FateOk(w', x)
  {
    assert HashOk(w, e);
    forall x | x in w'.fates ensures FateOk(w', x) {
      if x != Current(w.store, e) { assert FateOk(w, x); }
      assert EntryOk(w, x);
    }
  }

  lemma RequeueKeepsEvents(w: World, w': World, e: string, clock: nat)
    requires Core(w) && Requeues(w, w', e, clock)
    ensures forall d {:trigger HashOk(w', d)} {:trigger Placed(w', d)} ::
              d in w'.accepted ==> HashOk(w', d) && Placed(w', d)
  {
    var id' := NextId(w.store.lastId, clock);
    assert HashOk(w, e);
    assert id' !in w.store.entries by { assert id' in w.store.entries ==> EntryOk(w, id'); }
    forall d | d in w'.accepted ensures HashOk(w', d) && Placed(w', d) {
      assert HashOk(w, d) && Placed(w, d);
    }
  }

  lemma RequeueKeepsEntries(w: World, w': World, e: string, clock: nat)
    requires Core(w) && Requeues(w, w', e, clock)
    ensures forall x {:trigger EntryOk(w', x)} :: x in w'.store.entries ==> EntryOk(w', x)
  {
    var id := Current(w.store, e);
    assert HashOk(w, e) && EntryOk(w, id);
    forall x | x in w'.store.entries ensures EntryOk(w', x) {
      if x != NextId(w.store.lastId, clock) { assert EntryOk(w, x); }
    }
  }

  /** The next unread message becomes pending. */
  lemma DeliverKeepsCore(w: World, w': World, id: StreamId, consumer: nat, now: int)
    requires Core(w) && NextUnread(w.store, Some(id)) && w.store.hasGroup
    requires w' == w.(store := Deliver(w.store, id, consumer, now), pcs := w'.pcs)
    ensures Core(w') && Grows(w, w')
  {
    assert EntryOk(w, id);
    DeliverKeepsEntries(w, w', id, consumer, now);
    DeliverKeepsEvents(w, w', id, consumer, now);
  }

  lemma DeliverKeepsEntries(w: World, w': World, id: StreamId, consumer: nat, now: int)
    requires Core(w) && NextUnread(w.store, Some(id)) && w.store.hasGroup
    requires w' == w.(store := Deliver(w.store, id, consumer, now), pcs := w'.pcs)
    ensures forall x {:trigger EntryOk(w', x)} :: x in w'.store.entries ==> EntryOk(w', x)
    ensures forall x {:trigger FateOk(w', x)} :: x in w'.fates ==> FateOk(w', x)
  {
    forall x | x in w'.store.entries ensures EntryOk(w', x) { assert EntryOk(w, x); }
    forall x | x in w'.fates ensures FateOk(w', x) { assert FateOk(w, x); }
  }

  lemma DeliverKeepsEvents(w: World, w': World, id: StreamId, consumer: nat, now: int)
    requires Core(w) && NextUnread(w.store, Some(id)) && w.store.hasGroup
    requires w' == w.(store := Deliver(w.store, id, consumer, now), pcs := w'.pcs)
    ensures forall d {:trigger HashOk(w', d)} {:trigger Placed(w', d)} ::
              d in w'.accepted ==> HashOk(w', d) && Placed(w', d)
  {
    forall d | d in w'.accepted ensures HashOk(w', d) && Placed(w', d) {
      assert HashOk(w, d) && Placed(w, d);
    }
  }

  /** Nothing the invariant reads changes, except that strangers may leave the retry schedule. */
  ghost predicate Calm(w: World, w': World) {
    var s, s' := w.store, w'.store;
    && w'.accepted == w.accepted && w'.fates == w.fates && w'.owner == w.owner && w.taken <= w'.taken
    && s'.statuses == s.statuses && s'.entries == s.entries && s'.lastId == s.lastId && s'.lastRead == s.lastRead
    && s'.pending.Keys == s.pending.Keys
    && (forall e {:trigger e in s'.retries} :: e in s.retries && e in w.accepted ==> e in s'.retries)
    && GroupOk(s')
  }

  lemma CalmKeepsEntries(w: World, w': World)
    requires Core(w) && Calm(w, w')
    ensures forall x {:trigger EntryOk(w', x)} :: x in w'.store.entries ==> EntryOk(w', x)
  {
    forall x | x in w'.store.entries ensures EntryOk(w', x) { assert EntryOk(w, x); }
  }

  lemma CalmKeepsFates(w: World, w': World)
    requires Core(w) && Calm(w, w')
    ensures forall x {:trigger FateOk(w', x)} :: x in w'.fates ==> FateOk(w', x)
  {
    forall x | x in w'.fates ensures FateOk(w', x) { assert FateOk(w, x); }
  }

  lemma CalmKeepsEvents(w: World, w': World)
    requires Core(w) && Calm(w, w')
    ensures forall d {:trigger HashOk(w', d)} {:trigger Placed(w', d)} ::
              d in w'.accepted ==> HashOk(w', d) && Placed(w', d)
  {
    forall d | d in w'.accepted ensures HashOk(w', d) && Placed(w', d) {
      assert HashOk(w, d) && Placed(w, d);
    }
  }

  lemma CalmKeepsCore(w: World, w': World)
    requires Core(w) && Calm(w, w')
    ensures Core(w') && Grows(w, w')
  {
    CalmKeepsEntries(w, w');
    CalmKeepsFates(w, w');
    CalmKeepsEvents(w, w');
  }

  // ---------------------------------------------------------------- preservation, step by step

  lemma PcLookup(w: World, p: nat)
    requires Inv(w)
    ensures PcOk(w, PcOf(w, p))
  {
  }

  /** A step that only moves a worker, or only changes who a pending message is assigned to. */
  lemma MoveKeeps(w: World, w': World, p: nat)
    requires Inv(w)
    requires w'.accepted == w.accepted && w'.fates == w.fates && w'.owner == w.owner && w.taken == w'.taken
    requires w'.store == w.store.(pending := w'.store.pending) && w'.store.pending.Keys == w.store.pending.Keys
    requires w'.calls == w.calls && p in w'.pcs && w'.pcs == w.pcs[p := w'.pcs[p]] && PcOk(w', w'.pcs[p])
    ensures Inv(w')
  {
    StillCalm(w, w');
    CalmKeepsCore(w, w');
    GrowthKeepsWitnesses(w, w');
  }

  lemma StillCalm(w: World, w': World)
    requires Core(w)
    requires w'.accepted == w.accepted && w'.fates == w.fates && w'.owner == w.owner && w.taken <= w'.taken
    requires w'.store == w.store.(pending := w'.store.pending) && w'.store.pending.Keys == w.store.pending.Keys
    ensures Calm(w, w')
  {
  }

  lemma AcceptKeeps(w: World, e: string, c: Content, clock: nat)
    requires Inv(w) && IsUuid(e)
    ensures Inv(DoAccept(w, e, c, clock))
  {
    var w' := DoAccept(w, e, c, clock);
    if w' != w {
      CreateKeepsCore(w, w', e, c, clock);
      GrowthKeepsWitnesses(w, w');
    }
  }

  lemma AcceptKeyedKeeps(w: World, k: string, f: string, e: string, c: Content, clock: nat)
    requires Inv(w) && IsUuid(e)
    ensures Inv(DoAcceptKeyed(w, k, f, e, c, clock))
  {
    var w' := DoAcceptKeyed(w, k, f, e, c, clock);
    if w' != w {
      CreateKeepsCore(w, w', e, c, clock);
      GrowthKeepsWitnesses(w, w');
    }
  }

  lemma EnsureKeeps(w: World, p: nat, lost: bool)
    requires Inv(w) && PcOf(w, p) == Ready
    ensures Inv(DoEnsure(w, p, lost))
  {
    var w' := DoEnsure(w, p, lost);
    assert w'.store == w.store.(hasStream := true, hasGroup := true);
    CalmKeepsCore(w, w');
    GrowthKeepsWitnesses(w, w');
  }

  lemma RequeueStepKeeps(w: World, p: nat, e: string, clock: nat, lost: bool)
    requires Inv(w) && PcOf(w, p) == Grouped && ReleaseDueRetry(w.store, Some(e), clock).1 == Ok(1)
    ensures Inv(DoRelease(w, p, Some(e), clock, lost))
  {
    hide Core, Witnesses;
    var w' := DoRelease(w, p, Some(e), clock, lost);
    var w1 := w.(store := w'.store, fates := w'.fates, owner := w'.owner);
    KnownWhenAgreed(w, e);
    RequeueKeepsCore(w, w1, e, clock);
    GrowthKeepsWitnesses(w, w1);
    MoveKeeps(w1, w', p);
  }

  lemma RemovalStepKeeps(w: World, p: nat, e: string, clock: nat, lost: bool)
    requires Inv(w) && PcOf(w, p) == Grouped && ReleaseDueRetry(w.store, Some(e), clock).1 == Ok(2)
    ensures Inv(DoRelease(w, p, Some(e), clock, lost))
  {
    hide Core, Witnesses;
    var w' := DoRelease(w, p, Some(e), clock, lost);
    var w1 := w.(store := w'.store);
    RemoveKeeps(w, w1, e);
    GrowthKeepsWitnesses(w, w1);
    MoveKeeps(w1, w', p);
  }

  lemma ReleaseKeeps(w: World, p: nat, first: Option<string>, clock: nat, lost: bool)
    requires Inv(w) && PcOf(w, p) == Grouped
    ensures Inv(DoRelease(w, p, first, clock, lost))
  {
    hide Core, Witnesses, Requeue, RemoveInvalid, Agrees;
    var reply := ReleaseDueRetry(w.store, first, clock).1;
    if reply == Ok(1) {
      RequeueStepKeeps(w, p, first.value, clock, lost);
    } else if reply == Ok(2) {
      RemovalStepKeeps(w, p, first.value, clock, lost);
    } else {
      MoveKeeps(w, DoRelease(w, p, first, clock, lost), p);
    }
  }

  lemma KnownWhenAgreed(w: World, e: string)
    requires Inv(w) && Agrees(w.store, e)
    ensures e in w.accepted
  {
  }

  lemma RemoveKeeps(w: World, w': World, e: string)
    requires Inv(w) && !Agrees(w.store, e)
    requires w' == w.(store := RemoveInvalid(w.store, e), pcs := w'.pcs)
    ensures Core(w') && Grows(w, w')
  {
    if e in w.accepted {
      RemoveTouches(w, w', e);
      TouchKeepsCore(w, w', e);
    } else {
      RemoveStrangerKeeps(w, w', e);
    }
  }

  lemma RemoveTouches(w: World, w': World, e: string)
    requires Inv(w) && e in w.accepted && !Agrees(w.store, e)
    requires w' == w.(store := RemoveInvalid(w.store, e), pcs := w'.pcs)
    ensures Touches(w, w', e)
  {
    var id := Current(w.store, e);
    assert HashOk(w, e) && Placed(w, e) && EntryOk(w, id);
    EncodeFields(e, w.accepted[e]);
  }

  lemma RemoveStrangerKeeps(w: World, w': World, e: string)
    requires Inv(w) && e !in w.accepted
    requires w' == w.(store := RemoveInvalid(w.store, e), pcs := w'.pcs)
    ensures Core(w') && Grows(w, w')
  {
    assert w'.store == w.store.(retries := w.store.retries - {e});
    CalmKeepsCore(w, w');
  }

  /** The claim scan never meets a pending message it would call a violation. */
  lemma PendingIsFit(w: World, id: StreamId)
    requires Inv(w) && id in w.store.pending
    ensures id in w.store.entries && Dispose(w.store, id) != Violation
  {
    assert EntryOk(w, id);
    var e := w.owner[id];
    assert HashOk(w, e) && Placed(w, e);
    EncodeFields(e, w.accepted[e]);
  }

  lemma ScanKeeps(w: World, p: nat, now: int, minIdle: int, found: Option<StreamId>, lost: bool)
    requires Inv(w) && PcOf(w, p) == Swept && ScanFinds(w.store, now, minIdle, found)
    ensures Inv(DoScan(w, p, now, found, lost))
  {
    var w' := DoScan(w, p, now, found, lost);
    if found.Some? {
      PendingIsFit(w, found.value);
    }
    MoveKeeps(w, w', p);
  }

  lemma DecodedIsOk(cfg: Config, w: World, id: StreamId, idleAfter: bool)
    requires Inv(w) && id in w.store.entries && AtMost(id, w.store.lastRead)
    ensures PcOk(w, Decoded(cfg, id, w.store.entries[id], idleAfter))
  {
    assert EntryOk(w, id);
    assert HashOk(w, w.owner[id]);
    DecodeReturnsAccepted(cfg, id, w.owner[id], w.accepted[w.owner[id]]);
  }

  lemma RereadKeeps(cfg: Config, w: World, p: nat)
    requires Inv(w) && PcOf(w, p).Claimed?
    ensures Inv(DoReread(cfg, w, p))
  {
    PcLookup(w, p);
    DecodedIsOk(cfg, w, PcOf(w, p).id, false);
    MoveKeeps(w, DoReread(cfg, w, p), p);
  }

  lemma ReadKeeps(cfg: Config, w: World, p: nat, now: int, found: Option<StreamId>, lost: bool)
    requires Inv(w) && PcOf(w, p) == Unclaimed && NextUnread(w.store, found)
    ensures Inv(DoRead(cfg, w, p, now, found, lost))
  {
    var w' := DoRead(cfg, w, p, now, found, lost);
    if found == None || !w.store.hasGroup || !w.store.hasStream {
      MoveKeeps(w, w', p);
    } else {
      var id := found.value;
      var w1 := w.(store := Deliver(w.store, id, p, now));
      DeliverKeepsCore(w, w1, id, p, now);
      GrowthKeepsWitnesses(w, w1);
      DecodedIsOk(cfg, w1, id, true);
      MoveKeeps(w1, w', p);
    }
  }

  lemma IsolateKeeps(w: World, p: nat, lost: bool)
    requires Inv(w) && PcOf(w, p).Unfit?
    ensures Inv(DoIsolate(w, p, lost))
  {
    hide Core, Witnesses;
    var pc := PcOf(w, p);
    PcLookup(w, p);
    var (s, reply) := Quarantine(w.store, pc.id, pc.reason);
    var next := if lost || reply.Err? || pc.idleAfter then Ready else Unclaimed;
    if reply.Err? {
      MoveKeeps(w, Goto(w, p, next), p);
    } else {
      var w1 := w.(store := s, fates := w.fates[pc.id := Quarantined]);
      QuarantineKeeps(w, w1, pc.id, pc.reason);
      GrowthKeepsWitnesses(w, w1);
      MoveKeeps(w1, Goto(w1, p, next), p);
    }
  }

  lemma QuarantineKeeps(w: World, w': World, id: StreamId, reason: string)
    requires Inv(w) && Quarantine(w.store, id, reason).1.Ok?
    requires w' == w.(store := Quarantine(w.store, id, reason).0, pcs := w'.pcs, fates := w.fates[id := Quarantined])
    ensures Core(w') && Grows(w, w') && w'.store.deadLetters == w.store.deadLetters
  {
    QuarantineTouches(w, w', id, reason);
    TouchKeepsCore(w, w', w.owner[id]);
  }

  lemma QuarantineTouches(w: World, w': World, id: StreamId, reason: string)
    requires Inv(w) && Quarantine(w.store, id, reason).1.Ok?
    requires w' == w.(store := Quarantine(w.store, id, reason).0, pcs := w'.pcs, fates := w.fates[id := Quarantined])
    ensures id in w.owner && Touches(w, w', w.owner[id])
  {
    hide Quarantine, FieldValue, LastValue;
    QuarantineEffect(w.store, id, reason);
    assert EntryOk(w, id);
    var e := w.owner[id];
    assert HashOk(w, e) && Placed(w, e);
    EncodeFields(e, w.accepted[e]);
    SameUpdate(w.store.statuses, e);
  }

  lemma QuarantineEffect(s: Store, id: StreamId, reason: string)
    requires Quarantine(s, id, reason).1.Ok?
    ensures id in s.entries && id in s.pending
    ensures var s' := Quarantine(s, id, reason).0;
            s' == Ack(s, id).(quarantined := s'.quarantined, statuses :=
              if SafeToCondemn(s, id)
              then var e := FieldValue(s.entries[id], "event_id").value;
                   s.statuses[e := s.statuses[e].(status := Some(DeadLetter), lastError := Some(reason))]
              else s.statuses)
  {
  }

  lemma SameUpdate<K, V>(m: map<K, V>, k: K)
    requires k in m
    ensures m == m[k := m[k]]
  {
  }

  lemma BeginKeeps(w: World, p: nat, lost: bool)
    requires Inv(w) && PcOf(w, p).Holding?
    ensures Inv(DoBegin(w, p, lost))
  {
    hide Core, Witnesses;
    var m := PcOf(w, p).m;
    PcLookup(w, p);
    if Bound(w.store, m.e, m.id) {
      var w1 := w.(store := StartDelivery(w.store, m.e, m.id).0);
      BeginTouches(w, w1, m);
      TouchKeepsCore(w, w1, m.e);
      GrowthKeepsWitnesses(w, w1);
      GrowthKeepsPc(w, w1, PcOf(w, p));
      MoveKeeps(w1, DoBegin(w, p, lost), p);
    } else {
      MoveKeeps(w, DoBegin(w, p, lost), p);
    }
  }

  lemma BeginTouches(w: World, w': World, m: Held)
    requires Inv(w) && PcOk(w, Holding(m)) && Bound(w.store, m.e, m.id)
    requires w' == w.(store := StartDelivery(w.store, m.e, m.id).0, pcs := w'.pcs)
    ensures Touches(w, w', m.e)
    ensures StartDelivery(w.store, m.e, m.id).1.Ok? && StartDelivery(w.store, m.e, m.id).1.value >= 1
  {
    assert HashOk(w, m.e) && Placed(w, m.e);
  }

  lemma CallKeeps(w: World, p: nat, response: Response)
    requires Inv(w) && PcOf(w, p).Started?
    ensures Inv(DoCall(w, p, response))
  {
    var w' := DoCall(w, p, response);
    PcLookup(w, p);
    StillCalm(w, w');
    CalmKeepsCore(w, w');
    GrowthKeepsPc(w, w', PcOf(w, p));
    forall q | q in w'.pcs ensures PcOk(w', w'.pcs[q]) {
      if q != p { GrowthKeepsPc(w, w', w.pcs[q]); }
    }
    forall i | 0 <= i < |w.store.deadLetters| ensures RecordOk(w', w'.store.deadLetters[i]) {
      assert RecordOk(w, w.store.deadLetters[i]);
    }
    forall i | 0 <= i < |w'.calls| ensures CallOk(w', w'.calls[i]) {
      if i < |w.calls| { assert CallOk(w, w.calls[i]); }
    }
  }

  lemma FinishKeeps(w: World, p: nat)
    requires Inv(w) && PcOf(w, p).Taken?
    ensures Inv(DoFinish(w, p))
  {
    hide Core, Witnesses;
    var w' := DoFinish(w, p);
    var m := PcOf(w, p).m;
    PcLookup(w, p);
    if w'.store == w.store {
      MoveKeeps(w, w', p);
    } else {
      FinishTouches(w, w', m);
      TouchKeepsCore(w, w', m.e);
      GrowthKeepsWitnesses(w, w');
    }
  }

  lemma FinishTouches(w: World, w': World, m: Held)
    requires Inv(w) && PcOk(w, Taken(m, 1)) && CompleteDelivery(w.store, m.e, m.id).1.Ok?
    requires w' == w.(store := CompleteDelivery(w.store, m.e, m.id).0, pcs := w'.pcs,
                      fates := w.fates[m.id := Completed])
    ensures Touches(w, w', m.e)
  {
    assert HashOk(w, m.e) && Placed(w, m.e);
  }

  lemma GiveUpKeeps(cfg: Config, w: World, p: nat, due: int)
    requires Inv(w) && PcOf(w, p).Refused?
    ensures Inv(DoGiveUp(cfg, w, p, due))
  {
    hide Core, Witnesses;
    var w' := DoGiveUp(cfg, w, p, due);
    var pc := PcOf(w, p);
    PcLookup(w, p);
    if w'.store == w.store {
      MoveKeeps(w, w', p);
    } else if Buries(cfg.policy(p), pc.error, pc.attempt) {
      BuryTouches(w, w', pc.m, ErrorName(pc.error));
      TouchKeepsCore(w, w', pc.m.e);
      BuryKeepsWitnesses(w, w', p);
    } else {
      ScheduleTouches(w, w', pc.m, due, ErrorName(pc.error));
      TouchKeepsCore(w, w', pc.m.e);
      GrowthKeepsWitnesses(w, w');
    }
  }

  lemma BuryTouches(w: World, w': World, m: Held, error: string)
    requires Inv(w) && PcOk(w, Holding(m)) && MayDeadLetter(w.store, m.e, m.id)
    requires w' == w.(store := MoveToDeadLetter(w.store, m.e, m.id, error).0, pcs := w'.pcs,
                      fates := w.fates[m.id := DeadLettered])
    ensures Touches(w, w', m.e)
  {
    assert HashOk(w, m.e) && Placed(w, m.e);
  }

  lemma ScheduleTouches(w: World, w': World, m: Held, due: int, error: string)
    requires Inv(w) && PcOk(w, Holding(m)) && Bound(w.store, m.e, m.id)
    requires w' == w.(store := ScheduleRetry(w.store, m.e, m.id, due, error).0, pcs := w'.pcs)
    ensures Touches(w, w', m.e)
  {
    assert HashOk(w, m.e) && Placed(w, m.e);
  }

  lemma BuryKeepsWitnesses(w: World, w': World, p: nat)
    requires Inv(w) && PcOf(w, p).Refused? && Grows(w, w')
    requires var m := PcOf(w, p).m;
             && MayDeadLetter(w.store, m.e, m.id)
             && w' == Goto(w.(store := MoveToDeadLetter(w.store, m.e, m.id, ErrorName(PcOf(w, p).error)).0,
                              fates := w.fates[m.id := DeadLettered]), p, Ready)
    ensures Witnesses(w')
  {
    var m := PcOf(w, p).m;
    assert m.id !in w.fates by { assert m.id in w.fates ==> FateOk(w, m.id); }
    forall q | q in w'.pcs ensures PcOk(w', w'.pcs[q]) {
      if q != p { GrowthKeepsPc(w, w', w.pcs[q]); }
    }
    forall i | 0 <= i < |w'.store.deadLetters| ensures RecordOk(w', w'.store.deadLetters[i]) {
      if i < |w.store.deadLetters| { assert RecordOk(w, w.store.deadLetters[i]); }
    }
    forall i | 0 <= i < |w.store.deadLetters| ensures w.store.deadLetters[i].source != m.id {
      assert RecordOk(w, w.store.deadLetters[i]);
    }
    forall i | 0 <= i < |w.calls| ensures CallOk(w', w'.calls[i]) { assert CallOk(w, w.calls[i]); }
  }

  /** Every step keeps the invariant. */
  lemma StepKeeps(cfg: Config, w: World, step: Step)
    requires Inv(w) && Enabled(w, step)
    ensures Inv(Apply(cfg, w, step))
  {
    match step
    case Accept(e, c, clock) => AcceptKeeps(w, e, c, clock);
    case AcceptKeyed(k, e, c, clock) => AcceptKeyedKeeps(w, k, Fingerprint(cfg, c), e, c, clock);
    case Crash(p) => MoveKeeps(w, Goto(w, p, Ready), p);
    case Ensure(p, lost) => EnsureKeeps(w, p, lost);
    case Release(p, now, first, clock, lost) => ReleaseKeeps(w, p, first, clock, lost);
    case Scan(p, now, minIdle, found, lost) => ScanKeeps(w, p, now, minIdle, found, lost);
    case Reread(p) => RereadKeeps(cfg, w, p);
    case Read(p, now, found, lost) => ReadKeeps(cfg, w, p, now, found, lost);
    case Isolate(p, lost) => IsolateKeeps(w, p, lost);
    case Begin(p, lost) => BeginKeeps(w, p, lost);
    case CallSink(p, response) => CallKeeps(w, p, response);
    case Finish(p) => FinishKeeps(w, p);
    case GiveUp(p, due) => GiveUpKeeps(cfg, w, p, due);
  }

  /** Every world of every run satisfies the invariant. */
  lemma {:induction false} RunKeeps(cfg: Config, ws: seq<World>, steps: seq<Step>, i: nat)
    requires IsRun(cfg, ws, steps) && i < |ws|
    ensures Inv(ws[i])
  {
    if i > 0 {
      RunKeeps(cfg, ws, steps, i - 1);
      StepKeeps(cfg, ws[i - 1], steps[i - 1]);
    }
  }
}
