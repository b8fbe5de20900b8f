/**
 What a caller can rely on of each script, in terms of keys and fields only: exactly when it goes through, and
 exactly what is then different.
 */
module RedisEffects {
  import opened Options
  import opened DeliveryPolicy
  import opened RedisStore

  // ---------------------------------------------------------------- ids and fields

  /** XADD gives the least id that is above the last one and not before the clock. */
  lemma NextIdIsLeast(last: StreamId, clock: nat, x: StreamId)
    ensures Less(last, NextId(last, clock)) && NextId(last, clock).ms >= clock
    ensures Less(last, x) && x.ms >= clock ==> AtMost(NextId(last, clock), x)
  {
  }

  /** The order of stream ids is that of their two numbers, the first before the second. */
  lemma IdsAreOrdered(x: StreamId, y: StreamId, z: StreamId)
    ensures !Less(x, x) && (Less(x, y) || x == y || Less(y, x)) && (Less(x, y) && Less(y, z) ==> Less(x, z))
    ensures x.ms < y.ms ==> Less(x, y)
    ensures x.ms == y.ms ==> (Less(x, y) <==> x.sequence < y.sequence)
  {
  }

  /** Field `i` is the first of its name. */
  predicate IsFirst(fields: Fields, i: nat, name: string) {
    i < |fields| && fields[i].0 == name && forall j :: 0 <= j < i ==> fields[j].0 != name
  }

  predicate IsLast(fields: Fields, i: nat, name: string) {
    i < |fields| && fields[i].0 == name && forall j :: i < j < |fields| ==> fields[j].0 != name
  }

  lemma {:induction false} FieldValueIsFirst(fields: Fields, name: string, i: nat)
    ensures IsFirst(fields, i, name) ==> FieldValue(fields, name) == Some(fields[i].1)
    ensures FieldValue(fields, name) == None <==> forall j :: 0 <= j < |fields| ==> fields[j].0 != name
  {
    if fields != [] {
      if fields[0].0 != name {
        FieldValueIsFirst(fields[1..], name, if i > 0 then i - 1 else 0);
        assert forall j :: 0 <= j < |fields[1..]| ==> fields[1..][j] == fields[j + 1];
        assert forall j :: 0 < j < |fields| ==> fields[j] == fields[1..][j - 1];
      }
    }
  }

  lemma {:induction false} LastValueIsLast(fields: Fields, name: string, i: nat)
    ensures IsLast(fields, i, name) ==> LastValue(fields, name) == Some(fields[i].1)
    ensures LastValue(fields, name) == None <==> forall j :: 0 <= j < |fields| ==> fields[j].0 != name
  {
    if fields != [] {
      var n := |fields| - 1;
      if fields[n].0 != name {
        LastValueIsLast(fields[..n], name, i);
        assert forall j :: 0 <= j < n ==> fields[..n][j] == fields[j];
      }
    }
  }

  /** 8-4-4-4-12 hexadecimal digits with dashes between. */
  lemma {:induction false} UuidFormFrom(v: string, i: nat)
    requires |v| == 36
    ensures UuidFrom(v, i) <==>
            forall j :: i <= j < 36 ==>
              if j in {8, 13, 18, 23} then v[j] == '-'
              else '0' <= v[j] <= '9' || 'a' <= v[j] <= 'f' || 'A' <= v[j] <= 'F'
    decreases 36 - i
  {
    if i < 36 { UuidFormFrom(v, i + 1); }
  }

  // ---------------------------------------------------------------- acceptance

  /** A message with the four fields under a new greatest id, and a queued hash that names it; nothing else. */
  predicate Made(s: Store, s': Store, e: string, c: Content) {
    && Less(s.lastId, s'.lastId)
    && s' == s.(hasStream := true, lastId := s'.lastId, index := s'.index,
                entries := s.entries[s'.lastId := Encode(e, c)],
                statuses := s.statuses[e := StatusHash(Some(e), Some(Queued), Number(0), Plain(s'.lastId), None, None)])
  }

  lemma EnqueueEffect(s: Store, e: string, c: Content, clock: nat)
    ensures var (s', reply) := Enqueue(s, e, c, clock);
            && (reply.Ok? <==> StreamKey !in s.foreign && e !in s.statuses && StatusKey(e) !in s.foreign)
            && (!reply.Ok? ==> s' == s)
            && (reply.Ok? ==> Made(s, s', e, c) && reply.value == s'.lastId && s'.index == s.index)
  {
  }

  lemma EnqueueKeyedEffect(s: Store, k: string, f: string, e: string, c: Content, clock: nat)
    ensures var (s', reply) := EnqueueKeyed(s, k, f, e, c, clock);
            var bound := k in s.index && s.index[k].eventId.Some? && s.index[k].fingerprint.Some?;
            && (reply.Ok? <==>
                  && StreamKey !in s.foreign && IndexKey(k) !in s.foreign
                  && if k in s.index then bound else e !in s.statuses && StatusKey(e) !in s.foreign)
            && (s' != s ==> reply == Ok(Created(e)))
            && (reply.Ok? && k !in s.index ==>
                  && reply.value == Created(e) && Made(s, s', e, c)
                  && s'.index == s.index[k := Binding(Some(e), Some(f))])
            && (reply.Ok? && bound ==>
                  reply.value == if s.index[k].fingerprint.value == f then Reused(s.index[k].eventId.value)
                                 else Conflict(s.index[k].eventId.value))
  {
  }

  // ---------------------------------------------------------------- one attempt

  /** The hash of `e` can be read as a hash, and its id text is the very text of `id`. */
  predicate Names(s: Store, e: string, id: StreamId) {
    e in s.statuses && StatusKey(e) !in s.foreign && s.statuses[e].streamId == Plain(id)
  }

  /** Only the hash of `e`, the pending list, the schedule and the dead-letter stream may differ. */
  predicate Keeps(s: Store, s': Store, e: string) {
    s' == s.(pending := s'.pending, retries := s'.retries, deadLetters := s'.deadLetters, statuses := s'.statuses)
    && s'.statuses.Keys == s.statuses.Keys
    && forall d :: d in s.statuses && d != e ==> s'.statuses[d] == s.statuses[d]
  }

  lemma StartEffect(s: Store, e: string, id: StreamId)
    ensures var (s', reply) := StartDelivery(s, e, id);
            && Keeps(s, s', e) && s'.pending == s.pending && s'.retries == s.retries && s'.deadLetters == s.deadLetters
            && (reply.Ok? <==> Names(s, e, id) && !s.statuses[e].attempts.Garbled?)
            && (!Names(s, e, id) ==> s' == s)
            && (Names(s, e, id) ==>
                  && s'.statuses[e] == s.statuses[e].(status := Some(Delivering), attempts := s'.statuses[e].attempts)
                  && match s.statuses[e].attempts
                     case Garbled => s'.statuses[e].attempts == Garbled
                     case Absent => reply == Ok(1) && s'.statuses[e].attempts == Number(1)
                     case Number(n) => reply == Ok(n + 1) && s'.statuses[e].attempts == Number(n + 1))
  {
  }

  lemma CompleteEffect(s: Store, e: string, id: StreamId)
    ensures var (s', reply) := CompleteDelivery(s, e, id);
            && Keeps(s, s', e) && s'.retries == s.retries && s'.deadLetters == s.deadLetters
            && (reply.Ok? <==>
                  Names(s, e, id) && StreamKey !in s.foreign && s.hasStream && s.hasGroup && id in s.pending)
            && (!reply.Ok? ==> s' == s)
            && (reply.Ok? ==>
                  s'.pending == s.pending - {id} && s'.statuses[e] == s.statuses[e].(status := Some(Delivered)))
  {
  }

  lemma ScheduleEffect(s: Store, e: string, id: StreamId, due: int, error: string)
    ensures var (s', reply) := ScheduleRetry(s, e, id, due, error);
            && Keeps(s, s', e) && s'.pending == s.pending && s'.deadLetters == s.deadLetters
            && (reply.Ok? <==> Names(s, e, id) && RetryKey !in s.foreign)
            && (!reply.Ok? ==> s' == s)
            && (reply.Ok? ==>
                  && s'.retries == s.retries[e := due]
                  && s'.statuses[e] == s.statuses[e].(status := Some(RetryScheduled), lastError := Some(error)))
  {
  }

  /** A scheduled member is due from its time on and not before. */
  lemma DueFrom(s: Store, e: string, id: StreamId, due: int, error: string, now: int)
    requires ScheduleRetry(s, e, id, due, error).1.Ok?
    ensures e in Due(ScheduleRetry(s, e, id, due, error).0, now) <==> now >= due
  {
  }

  /** The message is buried exactly when hash, pending list and message all say that it is this attempt's own. */
  lemma BurialEffect(s: Store, e: string, id: StreamId, error: string)
    ensures var (s', reply) := MoveToDeadLetter(s, e, id, error);
            && Keeps(s, s', e)
            && (reply.Ok? <==>
                  && Names(s, e, id)
                  && {StreamKey, DeadLetterKey, RetryKey} !! s.foreign && s.hasStream && s.hasGroup
                  && s.statuses[e].status == Some(Delivering)
                  && s.statuses[e].attempts.Number? && s.statuses[e].attempts.n >= 1
                  && id in s.pending && id in s.entries
                  && s.statuses[e].eventId.Some? && LastValue(s.entries[id], "event_id") == s.statuses[e].eventId)
            && (!reply.Ok? ==> s' == s)
            && (reply.Ok? ==>
                  var h := s.statuses[e];
                  && s'.deadLetters == s.deadLetters + [DeadRecord(s.entries[id], error, h.attempts.n, id)]
                  && reply.value == |s.deadLetters| && s'.pending == s.pending - {id}
                  && s'.statuses[e] == h.(status := Some(DeadLetter), lastError := Some(error),
                                          deadLetterAt := Some(reply.value))
                  && s'.retries == s.retries - {h.eventId.value})
  {
    assert {StreamKey, DeadLetterKey, RetryKey} !! s.foreign <==>
           StreamKey !in s.foreign && DeadLetterKey !in s.foreign && RetryKey !in s.foreign;
  }

  // ---------------------------------------------------------------- release

  /** The picked member's hash says that it waits for a retry; its id text has at least the right form. */
  predicate Waits(s: Store, e: string) {
    && e in s.statuses && StatusKey(e) !in s.foreign && IsUuid(e) && s.statuses[e].eventId == Some(e)
    && s.statuses[e].status == Some(RetryScheduled) && !s.statuses[e].streamId.NoId?
  }

  /** Its message, pending and its own. */
  predicate HasMessage(s: Store, e: string, id: StreamId) {
    id in s.pending && id in s.entries && FieldValue(s.entries[id], "event_id") == Some(e)
  }

  lemma ReleaseAnswers(s: Store, first: Option<string>, clock: nat)
    ensures var (s', reply) := ReleaseDueRetry(s, first, clock);
            && (reply.Err? <==>
                  || StreamKey in s.foreign || !s.hasStream || RetryKey in s.foreign
                  || (first.Some? && Waits(s, first.value)
                      && (!s.hasGroup || s.statuses[first.value].streamId == Unreadable)))
            && (reply.Err? || first == None ==> s' == s)
            && (reply.Ok? ==>
                  if first == None then reply.value == 0
                  else
                    var e := first.value;
                    reply.value == if Waits(s, e) && HasMessage(s, e, s.statuses[e].streamId.id) then 1 else 2)
  {
  }

  /** A requeued event: its message under a new greatest id, the old one done with, the hash pointing at the new. */
  lemma RequeueEffect(s: Store, e: string, clock: nat)
    requires ReleaseDueRetry(s, Some(e), clock).1 == Ok(1)
    ensures var s' := ReleaseDueRetry(s, Some(e), clock).0;
            && e in s.statuses && Readable(s.statuses[e].streamId)
            && var h := s.statuses[e];
            && h.streamId.id in s.entries && Less(s.lastId, s'.lastId)
            && s' == s.(lastId := s'.lastId,
                        entries := s.entries[s'.lastId := s.entries[h.streamId.id]],
                        pending := s.pending - {h.streamId.id},
                        retries := s.retries - {e},
                        statuses := s.statuses[e := h.(status := Some(Queued), streamId := Plain(s'.lastId),
                                                       lastError := None)])
  {
  }

  /** A record that is not in order leaves the schedule, and becomes a dead letter if its hash at least is. */
  lemma RemovalEffect(s: Store, e: string, clock: nat)
    requires ReleaseDueRetry(s, Some(e), clock).1 == Ok(2)
    ensures var s' := ReleaseDueRetry(s, Some(e), clock).0;
            && s' == s.(retries := s.retries - {e}, statuses := s'.statuses)
            && if Waits(s, e) && s.statuses[e].attempts.Number? && s.statuses[e].attempts.n >= 1
               then s'.statuses == s.statuses[e := s.statuses[e].(status := Some(DeadLetter),
                                                                  lastError := Some("invariant_violation"))]
               else s'.statuses == s.statuses
  {
  }

  // ---------------------------------------------------------------- claiming, reading, isolating

  /** The hash that the message names stands in one of these states and points back at this very message. */
  predicate Backed(s: Store, id: StreamId, states: set<EventStatus>)
    requires id in s.entries
  {
    && FieldValue(s.entries[id], "event_id").Some?
    && var e := FieldValue(s.entries[id], "event_id").value;
    && IsUuid(e) && Names(s, e, id) && s.statuses[e].eventId == Some(e)
    && s.statuses[e].status.Some? && s.statuses[e].status.value in states
  }

  lemma DispositionMeans(s: Store, id: StreamId)
    requires id in s.entries
    ensures Dispose(s, id) == ForDelivery <==> Backed(s, id, {Queued, Delivering})
    ensures Dispose(s, id) == ForRetry <==> Backed(s, id, {RetryScheduled})
  {
  }

  /** What a worker has just read or claimed is out of reach of every scan until it has been idle for long enough. */
  lemma HeldUntilIdle(s: Store, id: StreamId, consumer: nat, now: int, t: int, minIdle: int, x: StreamId)
    ensures x in Idle(Take(s, id, consumer, now), t, minIdle) <==>
            if x == id then t - now >= minIdle else x in Idle(s, t, minIdle)
    ensures x in Idle(Deliver(s, id, consumer, now), t, minIdle) <==>
            if x == id then t - now >= minIdle else x in Idle(s, t, minIdle)
    ensures Take(s, id, consumer, now).pending == s.pending[id := Claim(consumer, now)]
  {
  }

  /** Reading takes the least id not yet read, and leaves unread exactly the others. */
  lemma ReadEffect(s: Store, id: StreamId, consumer: nat, now: int)
    requires NextUnread(s, Some(id))
    ensures var s' := Deliver(s, id, consumer, now);
            && s' == s.(pending := s.pending[id := Claim(consumer, now)], lastRead := s'.lastRead)
            && id in s.entries && Less(s.lastRead, id)
            && UnreadIds(s') == UnreadIds(s) - {id}
  {
  }

  /** A missing stream or group is made, to be read from the beginning; one that is there is left alone. */
  lemma GroupEffect(s: Store)
    requires Physical(s)
    ensures var (s', reply) := EnsureGroup(s);
            && (reply.Err? <==> StreamKey in s.foreign)
            && (reply.Err? || s.hasGroup ==> s' == s)
            && (reply.Ok? ==> s' == s.(hasStream := true, hasGroup := true) && UnreadIds(s') == UnreadIds(s))
  {
  }

  lemma IsolationEffect(s: Store, id: StreamId, reason: string)
    ensures var (s', reply) := Quarantine(s, id, reason);
            && (reply.Ok? <==>
                  && {StreamKey, QuarantineKey} !! s.foreign && s.hasStream && s.hasGroup
                  && id in s.pending && id in s.entries)
            && (!reply.Ok? ==> s' == s)
            && (reply.Ok? ==>
                  var named := FieldValue(s.entries[id], "event_id");
                  var e := if named.Some? && IsUuid(named.value) then named else None;
                  && s' == s.(pending := s.pending - {id}, statuses := s'.statuses,
                              quarantined := s.quarantined + [QuarantineRecord(id, reason, e)])
                  && if Backed(s, id, {Queued, Delivering})
                     then s'.statuses == s.statuses[named.value := s.statuses[named.value].(
                                                                     status := Some(DeadLetter),
                                                                     lastError := Some(reason))]
                     else s'.statuses == s.statuses)
  {
    assert {StreamKey, QuarantineKey} !! s.foreign <==> StreamKey !in s.foreign && QuarantineKey !in s.foreign;
  }
}
