/**
 `RedisEventStore` as an object whose methods run the Lua scripts command by command on its fields.
 Every method is proved to leave exactly the keyspace that the script's specification in `RedisStore` names,
 and to answer with its reply. Where a script can answer with an error after it has written, the proof shows
 that the error is out of reach.
 */
module RedisScripts {
  import opened Options
  import opened DeliveryPolicy
  import opened RedisStore

  /** The lowest id of a non-empty set. */
  lemma {:induction false} LowestExists(ids: set<StreamId>)
    requires ids != {}
    ensures exists x :: x in ids && forall y :: y in ids ==> AtMost(x, y)
  {
    var z :| z in ids;
    if ids != {z} {
      LowestExists(ids - {z});
      var x :| x in ids - {z} && forall y :: y in ids - {z} ==> AtMost(x, y);
      assert forall y :: y in ids ==> y == z || y in ids - {z};
      if Less(z, x) {
        assert z in ids && forall y :: y in ids ==> AtMost(z, y);
      } else {
        assert x in ids && forall y :: y in ids ==> AtMost(x, y);
      }
    } else {
      assert z in ids && forall y :: y in ids ==> AtMost(z, y);
    }
  }

  ghost predicate Ascending(ids: seq<StreamId>) {
    forall i, j :: 0 <= i < j < |ids| ==> Less(ids[i], ids[j])
  }

  /** `listed` is the ascending list of the first `limit` members of `ids`. */
  ghost predicate ListsLowest(ids: set<StreamId>, listed: seq<StreamId>, limit: nat) {
    && Ascending(listed) && |listed| <= limit
    && (forall x :: x in listed ==> x in ids)
    && (forall x, y :: x in listed && y in ids && y !in listed ==> Less(x, y))
    && (|listed| < limit ==> forall y :: y in ids ==> y in listed)
  }

  /** Reading in id order, as XPENDING and XRANGE do. */
  method ListLowest(ids: set<StreamId>, limit: nat) returns (listed: seq<StreamId>)
    ensures ListsLowest(ids, listed, limit)
  {
    listed := [];
    var rest := ids;
    while rest != {} && |listed| < limit
      invariant Ascending(listed) && |listed| <= limit
      invariant forall x :: x in listed ==> x in ids && x !in rest
      invariant forall y :: y in ids ==> y in rest || y in listed
      invariant rest <= ids
      invariant forall x, y :: x in listed && y in rest ==> Less(x, y)
      decreases rest
    {
      LowestExists(rest);
      var x :| x in rest && forall y :: y in rest ==> AtMost(x, y);
      listed := listed + [x];
      rest := rest - {x};
    }
  }

  method FindField(fields: Fields, name: string) returns (value: Option<string>)
    ensures value == FieldValue(fields, name)
  {
    var i := 0;
    while i < |fields|
      invariant 0 <= i <= |fields|
      invariant FieldValue(fields, name) == FieldValue(fields[i..], name)
    {
      if fields[i].0 == name {
        return Some(fields[i].1);
      }
      i := i + 1;
    }
    value := None;
  }

  method FindLastField(fields: Fields, name: string) returns (value: Option<string>)
    ensures value == LastValue(fields, name)
  {
    value := None;
    var i := 0;
    while i < |fields|
      invariant 0 <= i <= |fields|
      invariant value == LastValue(fields[..i], name)
    {
      assert fields[..i + 1][..i] == fields[..i];
      if fields[i].0 == name {
        value := Some(fields[i].1);
      }
      i := i + 1;
    }
    assert fields[..i] == fields;
  }

  class RedisEventStore {
    var hasStream: bool
    var entries: map<StreamId, Fields>
    var lastId: StreamId
    var hasGroup: bool
    var lastRead: StreamId
    var pending: map<StreamId, Claim>
    var statuses: map<string, StatusHash>
    var retries: map<string, int>
    var deadLetters: seq<DeadRecord>
    var quarantined: seq<QuarantineRecord>
    var index: map<string, Binding>
    var foreign: set<Key>

    function View(): Store
      reads this
    {
      Store(hasStream, entries, lastId, hasGroup, lastRead, pending, statuses, retries,
            deadLetters, quarantined, index, foreign)
    }

    constructor ()
      ensures View() == EMPTY_STORE
    {
      hasStream, entries, lastId := false, map[], ZERO_ID;
      hasGroup, lastRead, pending := false, ZERO_ID, map[];
      statuses, retries, deadLetters, quarantined := map[], map[], [], [];
      index, foreign := map[], {};
    }

    // -------------------------------------------------------------- single commands

    method XAdd(fields: Fields, clock: nat) returns (id: StreamId)
      modifies this
      ensures View() == Post(old(View()), fields, clock)
      ensures id == NextId(old(lastId), clock)
    {
      id := NextId(lastId, clock);
      hasStream := true;
      entries := entries[id := fields];
      lastId := id;
    }

    method XAck(id: StreamId) returns (acknowledged: int)
      modifies this`pending
      ensures acknowledged == if IsPending(old(View()), id) then 1 else 0
      ensures acknowledged == 1 ==> View() == Ack(old(View()), id)
      ensures acknowledged == 0 ==> View() == old(View())
    {
      acknowledged := 0;
      if hasStream && hasGroup && id in pending {
        pending := pending - {id};
        acknowledged := 1;
      }
    }

    // -------------------------------------------------------------- acceptance

    method EnqueueEvent(e: string, c: Content, clock: nat) returns (reply: Reply<StreamId>)
      modifies this
      ensures (View(), reply) == Enqueue(old(View()), e, c, clock)
    {
      if StreamKey in foreign {
        return Err;
      }
      if e in statuses || StatusKey(e) in foreign {
        return Err;
      }
      var id := XAdd(Encode(e, c), clock);
      statuses := statuses[e := FreshHash(e, id)];
      reply := Ok(id);
    }

    method EnqueueIdempotent(k: string, fingerprint: string, e: string, c: Content, clock: nat)
      returns (reply: Reply<Decision>)
      modifies this
      ensures (View(), reply) == EnqueueKeyed(old(View()), k, fingerprint, e, c, clock)
    {
      if StreamKey in foreign || IndexKey(k) in foreign {
        return Err;
      }
      if k in index {
        var b := index[k];
        if b.fingerprint == None || b.eventId == None {
          return Err;
        }
        if b.fingerprint == Some(fingerprint) {
          return Ok(Reused(b.eventId.value));
        }
        return Ok(Conflict(b.eventId.value));
      }
      if e in statuses || StatusKey(e) in foreign {
        return Err;
      }
      var id := XAdd(Encode(e, c), clock);
      statuses := statuses[e := FreshHash(e, id)];
      index := index[k := Binding(Some(e), Some(fingerprint))];
      reply := Ok(Created(e));
    }

    // -------------------------------------------------------------- delivery

    method MarkDeliveryStarted(e: string, id: StreamId) returns (reply: Reply<int>)
      modifies this
      ensures (View(), reply) == StartDelivery(old(View()), e, id)
    {
      if StatusKey(e) in foreign || e !in statuses || statuses[e].streamId != Plain(id) {
        return Err;
      }
      statuses := statuses[e := statuses[e].(status := Some(Delivering))];
      var count := statuses[e].attempts;
      if count.Garbled? {
        assert View().statuses == old(View()).statuses[e := statuses[e]];
        return Err;
      }
      var next := if count.Number? then count.n + 1 else 1;
      statuses := statuses[e := statuses[e].(attempts := Number(next))];
      assert View().statuses == old(View()).statuses[e := statuses[e]];
      reply := Ok(next);
    }

    method MarkDelivered(e: string, id: StreamId) returns (reply: Reply<()>)
      modifies this
      ensures (View(), reply) == CompleteDelivery(old(View()), e, id)
    {
      if StatusKey(e) in foreign || e !in statuses || statuses[e].streamId != Plain(id) || StreamKey in foreign {
        return Err;
      }
      var acknowledged := XAck(id);
      if acknowledged != 1 {
        return Err;
      }
      statuses := statuses[e := statuses[e].(status := Some(Delivered))];
      reply := Ok(());
    }

    method ScheduleRetryAt(e: string, id: StreamId, due: int, error: string) returns (reply: Reply<()>)
      modifies this
      ensures (View(), reply) == ScheduleRetry(old(View()), e, id, due, error)
    {
      if StatusKey(e) in foreign || e !in statuses || RetryKey in foreign || statuses[e].streamId != Plain(id) {
        return Err;
      }
      statuses := statuses[e := statuses[e].(status := Some(RetryScheduled), lastError := Some(error))];
      retries := retries[e := due];
      reply := Ok(());
    }

    /** The body of `remove_invalid_record`. */
    method RemoveInvalidRecord(e: string)
      modifies this
      ensures View() == RemoveInvalid(old(View()), e)
    {
      var safe := false;
      if e in statuses && StatusKey(e) !in foreign && IsUuid(e) && statuses[e].eventId == Some(e) {
        var h := statuses[e];
        if h.status == Some(RetryScheduled) && h.attempts.Number? && h.attempts.n >= 1 && h.streamId != NoId {
          safe := true;
        }
      }
      if safe {
        statuses := statuses[e := statuses[e].(status := Some(DeadLetter), lastError := Some("invariant_violation"))];
      }
      retries := retries - {e};
    }

    /** ZRANGEBYSCORE ... LIMIT 0 1. */
    method FirstDueMember(now: int) returns (first: Option<string>)
      ensures first == None ==> Due(View(), now) == {}
      ensures first.Some? ==> FirstDue(View(), now, first.value)
    {
      var rest := Due(View(), now);
      first := None;
      while rest != {}
        invariant rest <= Due(View(), now)
        invariant first == None ==> rest == Due(View(), now)
        invariant first.Some? ==>
                    && first.value in Due(View(), now)
                    && forall d :: d in Due(View(), now) && d !in rest ==> retries[first.value] <= retries[d]
        decreases rest
      {
        var d :| d in rest;
        if first == None || retries[d] < retries[first.value] {
          first := Some(d);
        }
        rest := rest - {d};
      }
    }

    method ReleaseDue(now: int, clock: nat) returns (reply: Reply<int>, ghost first: Option<string>)
      modifies this
      ensures first == None ==> Due(old(View()), now) == {}
      ensures first.Some? ==> FirstDue(old(View()), now, first.value)
      ensures (View(), reply) == ReleaseDueRetry(old(View()), first, clock)
    {
      var member := FirstDueMember(now);
      first := member;
      if StreamKey in foreign || !hasStream || RetryKey in foreign {
        return Err, first;
      }
      if member == None {
        return Ok(0), first;
      }
      var e := member.value;
      if e !in statuses || StatusKey(e) in foreign || !IsUuid(e) || statuses[e].eventId != Some(e)
         || statuses[e].status != Some(RetryScheduled) || statuses[e].streamId == NoId {
        RemoveInvalidRecord(e);
        return Ok(2), first;
      }
      // XPENDING raises without the group, and on an id that Redis cannot read; nothing has been written yet.
      if !hasGroup || statuses[e].streamId == Unreadable {
        return Err, first;
      }
      var id := statuses[e].streamId.id;
      if id !in pending || id !in entries {
        RemoveInvalidRecord(e);
        return Ok(2), first;
      }
      var owner := FindField(entries[id], "event_id");
      if owner != Some(e) {
        RemoveInvalidRecord(e);
        return Ok(2), first;
      }
      var newId := XAdd(entries[id], clock);
      var acknowledged := XAck(id);
      // The error reply placed here, after XADD, cannot be given.
      assert acknowledged == 1;
      statuses := statuses[e := statuses[e].(status := Some(Queued), streamId := Plain(newId))];
      statuses := statuses[e := statuses[e].(lastError := None)];
      retries := retries - {e};
      assert View().statuses == old(View()).statuses[e := statuses[e]];
      reply := Ok(1);
    }

    // -------------------------------------------------------------- claiming and reading

    method PendingDisposition(id: StreamId) returns (d: Disposition)
      requires id in entries
      ensures d == Dispose(View(), id)
    {
      var e := FindField(entries[id], "event_id");
      if e == None || !IsUuid(e.value) {
        return Violation;
      }
      if e.value !in statuses || StatusKey(e.value) in foreign {
        return Violation;
      }
      var h := statuses[e.value];
      if h.eventId != e || h.streamId != Plain(id) {
        return Violation;
      }
      if h.status == Some(RetryScheduled) {
        return ForRetry;
      }
      if h.status == Some(Queued) || h.status == Some(Delivering) {
        return ForDelivery;
      }
      d := Violation;
    }

    method ClaimStalePending(consumer: nat, now: int, minIdle: int)
      returns (reply: Reply<Option<(StreamId, Disposition)>>)
      modifies this`pending
      ensures reply.Err? <==> StreamKey in foreign || !hasStream || !hasGroup
      ensures reply.Err? || reply.value == None ==> View() == old(View())
      ensures reply.Ok? ==> match reply.value
                            case None => ScanFinds(old(View()), now, minIdle, None)
                            case Some((id, d)) =>
                              && ScanFinds(old(View()), now, minIdle, Some(id))
                              && d == Dispose(old(View()), id)
                              && View() == Take(old(View()), id, consumer, now)
    {
      if StreamKey in foreign || !hasStream || !hasGroup {
        return Err;
      }
      ghost var s := View();
      var scan := ListLowest(Idle(View(), now, minIdle), SCAN_LIMIT);
      ScanIsScanned(s, now, minIdle, scan);
      var i := 0;
      while i < |scan|
        invariant 0 <= i <= |scan| && View() == s
        invariant forall j :: 0 <= j < i ==> !Claimable(s, scan[j])
      {
        var id := scan[i];
        if id in entries {
          var d := PendingDisposition(id);
          if d != ForRetry {
            pending := pending[id := Claim(consumer, now)];
            return Ok(Some((id, d)));
          }
        }
        i := i + 1;
      }
      reply := Ok(None);
    }

    method ReadNext(consumer: nat, now: int) returns (reply: Reply<Option<StreamId>>)
      modifies this
      ensures reply.Err? <==> StreamKey in old(foreign) || !old(hasStream) || !old(hasGroup)
      ensures reply.Err? || reply.value == None ==> View() == old(View())
      ensures reply.Ok? ==> NextUnread(old(View()), reply.value)
      ensures reply.Ok? && reply.value.Some? ==> View() == Deliver(old(View()), reply.value.value, consumer, now)
    {
      if StreamKey in foreign || !hasStream || !hasGroup {
        return Err;
      }
      var unread := set id | id in entries && Less(lastRead, id);
      if unread == {} {
        assert forall id :: id in entries && Less(lastRead, id) ==> id in unread;
        return Ok(None);
      }
      var first := ListLowest(unread, 1);
      assert first != [];
      assert first[0] in first;
      assert forall id :: id in unread ==> AtMost(first[0], id);
      assert forall id :: id in entries && Less(lastRead, id) ==> id in unread;
      pending := pending[first[0] := Claim(consumer, now)];
      lastRead := first[0];
      reply := Ok(Some(first[0]));
    }

    method EnsureConsumerGroup() returns (reply: Reply<()>)
      modifies this
      ensures (View(), reply) == EnsureGroup(old(View()))
    {
      if StreamKey in foreign {
        return Err;
      }
      if !hasStream || !hasGroup {
        hasStream, hasGroup, lastRead, pending := true, true, ZERO_ID, map[];
      }
      reply := Ok(());
    }

    // -------------------------------------------------------------- gauges

    /** The unread messages that the gauges count: none when the group's lag is unknown, which is read as zero. */
    function Counted(lagKnown: bool): set<StreamId>
      reads this
    {
      if hasGroup && !lagKnown then {} else UnreadIds(View())
    }

    /**
     `refresh_queue_metrics`: the depth and pending gauges, and the id whose age becomes the age gauge.
     It is a series of separate commands, read here with no step of another client in between. `lagKnown` says whether
     XINFO GROUPS reports a lag; Redis may not once entries have been deleted from the stream. The depth is right
     exactly when it does, or there is no group, or nothing is unread.
     */
    method RefreshQueueMetrics(lagKnown: bool)
      returns (refreshed: bool, depth: nat, inFlight: nat, oldest: Option<StreamId>)
      requires Physical(View())
      ensures refreshed <==> StreamKey !in foreign
      ensures refreshed ==> inFlight == |pending| && depth == |pending| + |Counted(lagKnown)|
      ensures refreshed ==>
                (depth == |pending| + |UnreadIds(View())| <==> lagKnown || !hasGroup || UnreadIds(View()) == {})
      ensures refreshed ==> (oldest == None <==> pending.Keys + Counted(lagKnown) == {})
      ensures refreshed && oldest.Some? ==>
                && oldest.value in pending.Keys + Counted(lagKnown)
                && forall id :: id in pending || id in Counted(lagKnown) ==> AtMost(oldest.value, id)
    {
      if StreamKey in foreign {
        return false, 0, 0, None;
      }
      refreshed := true;
      oldest := None;
      if !hasStream {
        return true, 0, 0, None;
      }
      if !hasGroup {
        depth, inFlight := |entries|, 0;
        assert UnreadIds(View()) == entries.Keys;
        var records := ListLowest(entries.Keys, 1);
        if records != [] {
          assert records[0] in records;
          oldest := Some(records[0]);
        }
        return;
      }
      inFlight := |pending|;
      var lag := if lagKnown then |UnreadIds(View())| else 0;
      depth := inFlight + lag;
      var waiting := ListLowest(pending.Keys, 1);
      if waiting != [] {
        assert waiting[0] in waiting;
        oldest := Some(waiting[0]);
      }
      if lag != 0 {
        var unread := ListLowest(UnreadIds(View()), 1);
        if unread != [] {
          assert unread[0] in unread;
          if oldest == None || Less(unread[0], oldest.value) {
            oldest := Some(unread[0]);
          }
        }
      }
    }

    // -------------------------------------------------------------- giving up

    method QuarantineMessage(id: StreamId, reason: string) returns (reply: Reply<()>)
      modifies this
      ensures (View(), reply) == Quarantine(old(View()), id, reason)
    {
      if StreamKey in foreign || !hasStream || QuarantineKey in foreign {
        return Err;
      }
      if !hasGroup || id !in pending || id !in entries {
        return Err;
      }
      var e := FindField(entries[id], "event_id");
      var safe := false;
      if e.Some? && IsUuid(e.value) {
        if e.value in statuses && StatusKey(e.value) !in foreign
           && statuses[e.value].eventId == e && statuses[e.value].streamId == Plain(id)
           && (statuses[e.value].status == Some(Queued) || statuses[e.value].status == Some(Delivering)) {
          safe := true;
        }
      }
      var named := if e.Some? && IsUuid(e.value) then e else None;
      quarantined := quarantined + [QuarantineRecord(id, reason, named)];
      var acknowledged := XAck(id);
      // The error reply placed here, after XADD to the quarantine stream, cannot be given.
      assert acknowledged == 1;
      if safe {
        statuses := statuses[e.value := statuses[e.value].(status := Some(DeadLetter), lastError := Some(reason))];
      }
      reply := Ok(());
    }

    method DeadLetterMessage(e: string, id: StreamId, error: string) returns (reply: Reply<nat>)
      modifies this
      ensures (View(), reply) == MoveToDeadLetter(old(View()), e, id, error)
    {
      if e !in statuses || StatusKey(e) in foreign || StreamKey in foreign || !hasStream
         || DeadLetterKey in foreign || RetryKey in foreign {
        return Err;
      }
      var h := statuses[e];
      if h.streamId != Plain(id) || h.status != Some(Delivering) {
        return Err;
      }
      if h.eventId == None || !h.attempts.Number? || h.attempts.n < 1 {
        return Err;
      }
      if !hasGroup || id !in pending || id !in entries {
        return Err;
      }
      var owner := FindLastField(entries[id], "event_id");
      if owner != h.eventId {
        return Err;
      }
      var at := |deadLetters|;
      deadLetters := deadLetters + [DeadRecord(entries[id], error, h.attempts.n, id)];
      var acknowledged := XAck(id);
      // The error reply placed here, after XADD to the dead-letter stream, cannot be given.
      assert acknowledged == 1;
      statuses := statuses[e := h.(status := Some(DeadLetter), lastError := Some(error), deadLetterAt := Some(at))];
      retries := retries - {h.eventId.value};
      reply := Ok(at);
    }
  }

  /** The listed ids are exactly the scanned ones: position in the list is the number of idle ids before. */
  lemma {:induction false} ScanIsScanned(s: Store, now: int, minIdle: int, scan: seq<StreamId>)
    requires ListsLowest(Idle(s, now, minIdle), scan, SCAN_LIMIT)
    ensures forall id :: Scanned(s, now, minIdle, id) <==> id in scan
  {
    var idle := Idle(s, now, minIdle);
    forall i | 0 <= i < |scan|
      ensures Scanned(s, now, minIdle, scan[i])
    {
      assert scan[i] in scan;
      assert IdleBefore(s, now, minIdle, scan[i]) == Members(scan[..i]);
      SetOfPrefix(scan, i);
    }
    forall id | Scanned(s, now, minIdle, id)
      ensures id in scan
    {
      if id !in scan {
        assert forall x :: x in scan ==> x in idle && Less(x, id);
        assert Members(scan[..|scan|]) <= IdleBefore(s, now, minIdle, id);
        SetOfPrefix(scan, |scan|);
        Subset(Members(scan[..|scan|]), IdleBefore(s, now, minIdle, id));
      }
    }
  }

  function Members(ids: seq<StreamId>): set<StreamId> { set x | x in ids }

  lemma {:induction false} SetOfPrefix(ids: seq<StreamId>, n: nat)
    requires Ascending(ids) && n <= |ids|
    ensures |Members(ids[..n])| == n
  {
    if n > 0 {
      SetOfPrefix(ids, n - 1);
      assert ids[..n] == ids[..n - 1] + [ids[n - 1]];
      assert Members(ids[..n]) == Members(ids[..n - 1]) + {ids[n - 1]};
      assert ids[n - 1] !in ids[..n - 1];
    }
  }

  lemma {:induction false} Subset<T>(a: set<T>, b: set<T>)
    requires a <= b
    ensures |a| <= |b|
  {
    assert b == a + (b - a);
  }
}
