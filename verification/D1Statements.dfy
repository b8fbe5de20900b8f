/**
 `D1EventStore` as an object whose methods run the SQL statements on its tables. Each method is proved to leave
 exactly the database that the statement's specification in `D1Store` names, and to answer with its reply.
 */
module D1Statements {
  import opened Options
  import opened DeliveryPolicy
  import opened Chunker
  import opened D1Store

  /** `DeliveryStart`, `EventNotFound` and `PersistenceUnavailable`. */
  datatype Start =
    | Started(token: nat, attempts: nat, eventType: string, payload: Bytes)
    | Finished(status: EventStatus, attempts: nat)
    | Busy(attempts: nat)
    | NotFound
    | Unavailable

  /** `mark_delivery_started` when nothing interleaves with it. */
  ghost function StartAlone(d: D1, e: string, token: nat, now: int, maximum: int): (D1, Start) {
    var (claimed, row) := ClaimAttempt(d, e, token, now, maximum);
    if row.Some? then
      match LoadPayload(claimed, e, row.value.legacyPayload)
      case None => (claimed, Unavailable)
      case Some(payload) => (claimed, Started(token, row.value.attempts, row.value.eventType, payload))
    else if e !in d.events then (d, NotFound)
    else if Terminal(d.events[e].status) then (d, Finished(d.events[e].status, d.events[e].attempts))
    else if d.events[e].status == Delivering then (d, Busy(d.events[e].attempts))
    else if d.events[e].attempts >= maximum then
      (BuryExhausted(d, e, maximum).0, Finished(DeadLetter, d.events[e].attempts))
    else (d, Unavailable)
  }

  class D1EventStore {
    var events: map<string, Row>
    var keys: map<string, string>
    var chunks: map<string, map<nat, Bytes>>
    var outbox: map<string, Box>

    function View(): D1
      reads this
    {
      D1(events, keys, chunks, outbox)
    }

    constructor ()
      ensures View() == EMPTY_DB
    {
      events, keys, chunks, outbox := map[], map[], map[], map[];
    }

    // -------------------------------------------------------------- acceptance

    method InsertChunkRows(e: string, pieces: seq<Bytes>)
      modifies this`chunks
      ensures View() == InsertChunks(old(View()), e, pieces, |pieces|)
    {
      for i := 0 to |pieces|
        invariant View() == InsertChunks(old(View()), e, pieces, i)
      {
        if e in events && i !in ChunkRows(View(), e) {
          chunks := chunks[e := ChunkRows(View(), e)[i := pieces[i]]];
        }
      }
    }

    /** The batch of `accept`, one transaction. */
    method RunAcceptBatch(e: string, eventType: string, pieces: seq<Bytes>, key: Option<string>, fingerprint: string,
                          now: int)
      returns (reply: Reply<Selected>)
      modifies this
      ensures (View(), reply) == AcceptBatch(old(View()), e, eventType, pieces, key, fingerprint, now)
    {
      if key.None? || key.value !in keys {
        if e in events {
          return Err;
        }
        events := events[e := NewRow(eventType, fingerprint)];
        if key.Some? {
          keys := keys[key.value := e];
        }
      }
      InsertChunkRows(e, pieces);
      if e in events && e !in outbox {
        outbox := outbox[e := Box(false, 0, None, None, now)];
      }
      var id := e;
      if key.Some? {
        if key.value !in keys {
          return Err;
        }
        id := keys[key.value];
      }
      if id !in events {
        return Err;
      }
      reply := Ok(Selected(id, events[id].fingerprint, events[id].status, events[id].attempts));
    }

    /** `accept`: None when the payload cannot be split, which happens before the database is touched. */
    method Accept(e: string, request: Request, key: Option<string>, fingerprint: string, limit: nat, now: int)
      returns (reply: Option<Reply<Acceptance>>)
      modifies this
      ensures match Split(request.payload, limit)
              case None => reply == None && View() == old(View())
              case Some(pieces) =>
                var (d, row) := AcceptBatch(old(View()), e, request.eventType, pieces, key, fingerprint, now);
                && View() == d
                && reply == Some(if row.Ok? then Ok(Judge(row.value, e, key, fingerprint)) else Err)
    {
      var pieces := PayloadChunks(request.payload, limit);
      if pieces.None? {
        return None;
      }
      var row := RunAcceptBatch(e, request.eventType, pieces.value, key, fingerprint, now);
      if row.Err? {
        return Some(Err);
      }
      if key.Some? && row.value.fingerprint != fingerprint {
        return Some(Ok(Conflicting));
      }
      reply := Some(Ok(Recorded(row.value.e, row.value.e == e, row.value.status, row.value.attempts)));
    }

    // -------------------------------------------------------------- payload

    /** `_load_payload_json`: the chunks in index order. */
    method LoadPayloadJson(e: string, legacy: Bytes) returns (payload: Option<Bytes>)
      ensures payload == LoadPayload(View(), e, legacy)
    {
      var rows := ChunkRows(View(), e);
      if rows == map[] {
        return if legacy != [] then Some(legacy) else None;
      }
      var text: Bytes, rest, i := [], rows.Keys, 0;
      ghost var span := Span(rows);
      while rest != {}
        invariant 0 <= i <= span && text == JoinBelow(rows, i)
        invariant forall k :: k in rest <==> k in rows && k >= i
        decreases span - i
      {
        if i in rest {
          text := text + rows[i];
          rest := rest - {i};
        }
        i := i + 1;
      }
      assert span - 1 in rows && i == span;
      payload := Some(text);
    }

    // -------------------------------------------------------------- outbox

    /** The subselect, least recently updated rows first. */
    method PickClaimable(limit: nat, now: int) returns (order: seq<string>)
      ensures Picks(View(), now, limit, Elements(order)) && Lists(order, Elements(order))
    {
      order := [];
      ghost var d := View();
      var rest := set e | e in outbox && Claimable(View(), now, e);
      while rest != {} && |order| < limit
        invariant Lists(order, Elements(order)) && |order| <= limit
        invariant Partition(d, now, Elements(order), rest)
        decreases rest
      {
        OldestExists(View(), rest);
        var e :| e in rest && forall f :: f in rest ==> outbox[e].updated <= outbox[f].updated;
        ListMore(order, e);
        PartitionMore(d, now, Elements(order), rest, e);
        order, rest := order + [e], rest - {e};
      }
    }

    method ClaimRows(limit: nat, token: nat, leaseMs: int, now: int) returns (order: seq<string>)
      modifies this`outbox
      ensures Picks(old(View()), now, limit, Elements(order)) && Lists(order, Elements(order))
      ensures View() == ClaimOutbox(old(View()), Elements(order), token, now + leaseMs, now)
      ensures forall e, t: int {:trigger Claimable(View(), t, e)} ::
                Claimable(View(), t, e) <==> if e in order then t >= now + leaseMs else Claimable(old(View()), t, e)
    {
      order := PickClaimable(limit, now);
      ghost var before := View();
      ClaimedUntilLeaseEnds(before, order, token, now + leaseMs, now);
      for i := 0 to |order|
        invariant outbox.Keys == old(outbox).Keys
        invariant forall e :: e in outbox ==>
                    outbox[e] == if e in order[..i]
                                 then Claimed(old(outbox)[e], token, now + leaseMs, now) else old(outbox)[e]
      {
        assert order[i] in order;
        assert order[..i + 1] == order[..i] + [order[i]];
        outbox := outbox[order[i] := Claimed(outbox[order[i]], token, now + leaseMs, now)];
      }
      assert order[..|order|] == order;
      assert View() == ClaimOutbox(before, Elements(order), token, now + leaseMs, now);
    }

    method MarkSent(e: string, token: Option<nat>, now: int) returns (done: bool)
      modifies this`outbox
      ensures (View(), done) == MarkDispatched(old(View()), e, token, now)
    {
      done := e in outbox && !outbox[e].sent && outbox[e].claim == token;
      if done {
        outbox := outbox[e := Box(true, outbox[e].sends + 1, None, None, now)];
      }
    }

    method ReleaseOutboxClaim(e: string, token: nat, now: int)
      modifies this`outbox
      ensures View() == ReleaseClaim(old(View()), e, token, now)
    {
      if e in outbox && !outbox[e].sent && outbox[e].claim == Some(token) {
        outbox := outbox[e := outbox[e].(claim := None, lease := None, updated := now)];
      }
    }

    // -------------------------------------------------------------- delivery

    /** The claiming UPDATE ... RETURNING. */
    method ClaimForDelivery(e: string, token: nat, now: int, maximum: int) returns (row: Option<Row>)
      modifies this`events
      ensures (View(), row) == ClaimAttempt(old(View()), e, token, now, maximum)
    {
      if e !in events {
        return None;
      }
      var r := events[e];
      var waiting := r.status == Queued || r.status == RetryScheduled;
      var expired := r.status == Delivering && (r.lease.None? || r.lease.value <= now);
      if (waiting && r.attempts < maximum) || (expired && r.attempts <= maximum) {
        var attempts := r.attempts;
        if r.status != Delivering || r.attempts < maximum {
          attempts := attempts + 1;
        }
        r := r.(status := Delivering, attempts := attempts,
                token := Some(token), lease := Some(now + DELIVERY_LEASE_MS));
        events := events[e := r];
        return Some(r);
      }
      row := None;
    }

    method DeadLetterExhausted(e: string, maximum: int) returns (changed: bool)
      modifies this`events
      ensures (View(), changed) == BuryExhausted(old(View()), e, maximum)
    {
      changed := e in events && (events[e].status == Queued || events[e].status == RetryScheduled)
                 && events[e].attempts >= maximum;
      if changed {
        events := events[e := events[e].(status := DeadLetter)];
      }
    }

    /** `_update_terminal`. */
    method UpdateTerminal(e: string, status: EventStatus, token: nat) returns (changed: bool)
      modifies this`events
      ensures (View(), changed) == Transition(old(View()), e, status, token)
    {
      changed := e in events && events[e].status == Delivering && events[e].token == Some(token);
      if changed {
        events := events[e := events[e].(status := status, token := None, lease := None)];
      }
    }

    /** `mark_delivery_started`, its statements in order. */
    method MarkDeliveryStarted(e: string, token: nat, now: int, maximum: int) returns (start: Start)
      requires maximum >= 1
      modifies this`events
      ensures (View(), start) == StartAlone(old(View()), e, token, now, maximum)
    {
      var row := ClaimForDelivery(e, token, now, maximum);
      if row.Some? {
        var payload := LoadPayloadJson(e, row.value.legacyPayload);
        if payload.None? {
          return Unavailable;
        }
        return Started(token, row.value.attempts, row.value.eventType, payload.value);
      }
      if e !in events {
        return NotFound;
      }
      var snapshot := events[e];
      if Terminal(snapshot.status) {
        return Finished(snapshot.status, snapshot.attempts);
      }
      if snapshot.status == Delivering {
        return Busy(snapshot.attempts);
      }
      if snapshot.attempts >= maximum {
        var changed := DeadLetterExhausted(e, maximum);
        // With nobody in between, the burial cannot miss the row that the snapshot saw.
        assert changed;
        return Finished(DeadLetter, snapshot.attempts);
      }
      start := Unavailable;
    }
  }

  /** A claimed row can be claimed again from the end of its lease on and not before; the others are as they were. */
  lemma ClaimedUntilLeaseEnds(d: D1, order: seq<string>, token: nat, leaseUntil: int, now: int)
    requires forall f :: f in Elements(order) ==> Claimable(d, now, f)
    ensures var d' := ClaimOutbox(d, Elements(order), token, leaseUntil, now);
            forall e, t: int {:trigger Claimable(d', t, e)} ::
              Claimable(d', t, e) <==> if e in order then t >= leaseUntil else Claimable(d, t, e)
  {
    assert forall e :: e in order <==> e in Elements(order);
    assert forall e :: e in order ==> Claimable(d, now, e);
  }

  /** The claimable rows, those picked before the rest, and none of the rest older than any picked. */
  ghost predicate Partition(d: D1, now: int, picked: set<string>, rest: set<string>) {
    && (forall e {:trigger Claimable(d, now, e)} :: Claimable(d, now, e) <==> e in picked || e in rest)
    && picked !! rest
    && (forall e, f {:trigger e in picked, f in rest} ::
          e in picked && f in rest && e in d.outbox && f in d.outbox ==> d.outbox[e].updated <= d.outbox[f].updated)
  }

  lemma PartitionMore(d: D1, now: int, picked: set<string>, rest: set<string>, e: string)
    requires Partition(d, now, picked, rest) && e in rest && rest <= d.outbox.Keys
    requires forall f :: f in rest ==> d.outbox[e].updated <= d.outbox[f].updated
    ensures Partition(d, now, picked + {e}, rest - {e})
  {
  }

  lemma ListMore(order: seq<string>, e: string)
    requires Lists(order, Elements(order)) && e !in Elements(order)
    ensures Lists(order + [e], Elements(order + [e])) && Elements(order + [e]) == Elements(order) + {e}
  {
    assert Elements(order + [e]) == Elements(order) + {e};
  }

  lemma {:induction false} OldestExists(d: D1, rows: set<string>)
    requires rows != {} && rows <= d.outbox.Keys
    ensures exists e :: e in rows && forall f :: f in rows ==> d.outbox[e].updated <= d.outbox[f].updated
  {
    var z :| z in rows;
    if rows == {z} {
      assert z in rows && forall f :: f in rows ==> d.outbox[z].updated <= d.outbox[f].updated;
    } else {
      OldestExists(d, rows - {z});
      var x :| x in rows - {z} && forall f :: f in rows - {z} ==> d.outbox[x].updated <= d.outbox[f].updated;
      assert forall f :: f in rows ==> f == z || f in rows - {z};
      var best := if d.outbox[z].updated < d.outbox[x].updated then z else x;
      assert best in rows && forall f :: f in rows ==> d.outbox[best].updated <= d.outbox[f].updated;
    }
  }
}
