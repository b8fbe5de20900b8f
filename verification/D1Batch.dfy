/** What the acceptance batch does as a whole: it stores a request in full, or it changes nothing. */
module D1Batch {
  import opened Options
  import opened DeliveryPolicy
  import opened Chunker
  import opened D1Store

  /** The first `n` pieces as chunk rows. */
  function Numbered(pieces: seq<Bytes>, n: nat): map<nat, Bytes>
    requires n <= |pieces|
  {
    map i | 0 <= i < n :: pieces[i]
  }

  lemma NumberedMore(pieces: seq<Bytes>, n: nat)
    requires 0 < n <= |pieces|
    ensures Numbered(pieces, 0) == map[] && n - 1 !in Numbered(pieces, n - 1)
    ensures Numbered(pieces, n) == Numbered(pieces, n - 1)[n - 1 := pieces[n - 1]]
  {
  }

  lemma {:induction false} FreshChunks(d: D1, e: string, pieces: seq<Bytes>, n: nat)
    requires n <= |pieces| && e in d.events && e !in d.chunks
    ensures InsertChunks(d, e, pieces, n) == if n == 0 then d else d.(chunks := d.chunks[e := Numbered(pieces, n)])
  {
    if n > 0 {
      FreshChunks(d, e, pieces, n - 1);
      NumberedMore(pieces, n);
      hide Numbered;
      assert d.chunks[e := Numbered(pieces, n - 1)][e := Numbered(pieces, n)] == d.chunks[e := Numbered(pieces, n)];
    }
  }

  lemma {:induction false} OrphanChunks(d: D1, e: string, pieces: seq<Bytes>, n: nat)
    requires n <= |pieces| && e !in d.events
    ensures InsertChunks(d, e, pieces, n) == d
  {
    if n > 0 {
      OrphanChunks(d, e, pieces, n - 1);
    }
  }

  lemma {:induction false} JoinAppend(front: seq<Bytes>, last: Bytes)
    ensures Join(front + [last]) == Join(front) + last
  {
    if front == [] {
      assert [last][1..] == [];
    } else {
      JoinAppend(front[1..], last);
      assert (front + [last])[1..] == front[1..] + [last];
    }
  }

  lemma {:induction false} JoinOfNumbered(pieces: seq<Bytes>, n: nat)
    requires n <= |pieces|
    ensures JoinBelow(Numbered(pieces, |pieces|), n) == Join(pieces[..n])
  {
    if n > 0 {
      JoinOfNumbered(pieces, n - 1);
      JoinAppend(pieces[..n - 1], pieces[n - 1]);
      assert pieces[..n] == pieces[..n - 1] + [pieces[n - 1]];
    }
  }

  /** An older row without chunks is read from its inline payload; chunks always come first. */
  lemma LegacyLoads(d: D1, e: string, legacy: Bytes)
    ensures e !in d.chunks && legacy != [] ==> LoadPayload(d, e, legacy) == Some(legacy)
    ensures e !in d.chunks && legacy == [] ==> LoadPayload(d, e, legacy) == None
    ensures e in d.chunks && d.chunks[e] != map[] ==>
              LoadPayload(d, e, legacy).Some? && LoadPayload(d, e, legacy) == LoadPayload(d, e, [])
  {
  }

  /** Reading the numbered chunks back in index order joins the pieces. */
  lemma NumberedLoads(d: D1, e: string, pieces: seq<Bytes>, legacy: Bytes)
    requires pieces != [] && ChunkRows(d, e) == Numbered(pieces, |pieces|)
    ensures LoadPayload(d, e, legacy) == Some(Join(pieces))
  {
    var rows := Numbered(pieces, |pieces|);
    assert |pieces| - 1 in rows;
    assert Span(rows) == |pieces|;
    JoinOfNumbered(pieces, |pieces|);
    assert pieces[..|pieces|] == pieces;
  }

  predicate KeyFree(d: D1, key: Option<string>) { key.Some? ==> key.value !in d.keys }

  /** No row of any table belongs to `e` yet. */
  predicate Unused(d: D1, e: string) { e !in d.events && e !in d.chunks && e !in d.outbox }

  /** The database with the new event's row, chunks, outbox row and key. */
  function WithEvent(d: D1, e: string, eventType: string, pieces: seq<Bytes>, key: Option<string>,
                     fingerprint: string, now: int): D1
    requires pieces != []
  {
    D1(d.events[e := Row(eventType, [], Queued, 0, fingerprint, None, None)],
       if key.Some? then d.keys[key.value := e] else d.keys,
       d.chunks[e := Numbered(pieces, |pieces|)],
       d.outbox[e := Box(false, 0, None, None, now)])
  }

  /** A winning batch adds all rows of its event and answers with that event, queued. */
  lemma WinnerStoresAll(d: D1, e: string, eventType: string, pieces: seq<Bytes>, key: Option<string>,
                        fingerprint: string, now: int)
    requires Unused(d, e) && KeyFree(d, key) && pieces != []
    ensures AcceptBatch(d, e, eventType, pieces, key, fingerprint, now) ==
            (WithEvent(d, e, eventType, pieces, key, fingerprint, now), Ok(Selected(e, fingerprint, Queued, 0)))
  {
    var d1 := InsertEvent(d, e, eventType, key, fingerprint).value;
    FreshChunks(d1, e, pieces, |pieces|);
  }

  /** A losing batch leaves no row behind, orphan chunk and outbox rows included, and answers with the winner. */
  lemma LoserLeavesNothing(d: D1, e: string, eventType: string, pieces: seq<Bytes>, k: string, fingerprint: string,
                           now: int)
    requires e !in d.events && k in d.keys && d.keys[k] in d.events
    ensures var first := d.keys[k];
            AcceptBatch(d, e, eventType, pieces, Some(k), fingerprint, now) ==
            (d, Ok(Selected(first, d.events[first].fingerprint, d.events[first].status, d.events[first].attempts)))
  {
    OrphanChunks(d, e, pieces, |pieces|);
  }

  /** Under a free key or none, an id that is taken already makes the batch fail, and all of it is rolled back. */
  lemma TakenIdFails(d: D1, e: string, eventType: string, pieces: seq<Bytes>, key: Option<string>, fingerprint: string,
                     now: int)
    requires e in d.events && KeyFree(d, key)
    ensures AcceptBatch(d, e, eventType, pieces, key, fingerprint, now) == (d, Err)
  {
  }

  /** What a winning batch stores is what a consumer loads. */
  lemma StoredIsLoaded(d: D1, e: string, request: Request, limit: nat, key: Option<string>, fingerprint: string,
                       now: int)
    requires Unused(d, e) && KeyFree(d, key) && request.payload != [] && Split(request.payload, limit).Some?
    ensures var pieces := Split(request.payload, limit).value;
            && pieces != []
            && var d' := AcceptBatch(d, e, request.eventType, pieces, key, fingerprint, now).0;
            && e in d'.events && d'.events[e] == Row(request.eventType, [], Queued, 0, fingerprint, None, None)
            && ChunkRows(d', e) != map[]
            && LoadPayload(d', e, []) == Some(request.payload)
  {
    SplitJoins(request.payload, limit);
    var pieces := Split(request.payload, limit).value;
    WinnerStoresAll(d, e, request.eventType, pieces, key, fingerprint, now);
    var d' := WithEvent(d, e, request.eventType, pieces, key, fingerprint, now);
    assert 0 in Numbered(pieces, |pieces|);
    NumberedLoads(d', e, pieces, []);
  }

  /** With the production limit every encodable payload is split, stored and loaded as it came. */
  lemma ValidPayloadIsStored(d: D1, e: string, request: Request, limit: nat, key: Option<string>,
                             fingerprint: string, now: int)
    requires Unused(d, e) && KeyFree(d, key) && request.payload != [] && Valid(request.payload) && limit >= 4
    ensures var split := Split(request.payload, limit);
            && split.Some? && WellCut(split.value, limit)
            && LoadPayload(AcceptBatch(d, e, request.eventType, split.value, key, fingerprint, now).0, e, [])
                 == Some(request.payload)
  {
    RoundTrip(request.payload, limit);
    StoredIsLoaded(d, e, request, limit, key, fingerprint, now);
  }
}
