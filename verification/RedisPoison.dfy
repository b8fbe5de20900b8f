/**
 What the scripts do to a keyspace that may hold anything: a poisoned record never costs another event its status,
 and it blocks the retry schedule in one case only, which is stated exactly.
 */
module RedisPoison {
  import opened Options
  import opened DeliveryPolicy
  import opened RedisStore

  /** Stream and group are there, the retry key is absent or a sorted set; everything else is arbitrary. */
  predicate Usable(s: Store) {
    StreamKey !in s.foreign && RetryKey !in s.foreign && s.hasStream && s.hasGroup
  }

  /** `first` is what ZRANGEBYSCORE may answer. */
  ghost predicate MayPick(s: Store, now: int, first: Option<string>) {
    match first
    case None => Due(s, now) == {}
    case Some(e) => FirstDue(s, now, e)
  }

  /** The status hashes of all events but `e` are the same in both keyspaces. */
  ghost predicate OnlyStatusOf(e: string, s: Store, s': Store) {
    && (forall d :: d != e ==> (d in s.statuses <==> d in s'.statuses))
    && (forall d :: d != e && d in s.statuses && d in s'.statuses ==> s'.statuses[d] == s.statuses[d])
  }

  ghost predicate HasStatus(s: Store, e: string, st: EventStatus) {
    e in s.statuses && s.statuses[e].status == Some(st)
  }

  /** The record gets as far as XPENDING, which then refuses its id text. */
  predicate Blocks(s: Store, e: string) { Scheduled(s, e) && s.statuses[e].streamId == Unreadable }

  /**
   A release errs exactly when the picked record passes the earlier checks and Redis refuses its id text; then it
   changes nothing. Otherwise it answers zero exactly when nothing is due, and takes exactly the picked member out of
   the due set.
   */
  lemma ReleaseShrinksDue(s: Store, now: int, first: Option<string>, clock: nat)
    requires Usable(s) && MayPick(s, now, first)
    ensures var (s', reply) := ReleaseDueRetry(s, first, clock);
            && Usable(s')
            && (reply.Err? <==> first.Some? && Blocks(s, first.value))
            && (reply.Err? ==> s' == s)
            && (reply == Ok(0) <==> Due(s, now) == {})
            && (reply == Ok(0) ==> s' == s)
            && (reply.Ok? && reply.value != 0 ==>
                  && Due(s', now) == Due(s, now) - {first.value}
                  && |Due(s', now)| == |Due(s, now)| - 1)
  {
    var (s', reply) := ReleaseDueRetry(s, first, clock);
    if first.Some? && reply.Ok? {
      assert s'.retries == s.retries - {first.value};
      assert Due(s', now) == Due(s, now) - {first.value};
    }
  }

  /** A series of release calls at one time, each with something due. */
  ghost predicate ReleaseSeries(ss: seq<Store>, picks: seq<string>, clocks: seq<nat>, now: int) {
    && |ss| == |picks| + 1 == |clocks| + 1
    && forall i :: 0 <= i < |picks| ==>
         FirstDue(ss[i], now, picks[i]) && ss[i + 1] == ReleaseDueRetry(ss[i], Some(picks[i]), clocks[i]).0
  }

  /** No due record blocks. */
  ghost predicate Clear(s: Store, now: int) { forall e :: e in Due(s, now) ==> !Blocks(s, e) }

  lemma ReleaseStaysClear(s: Store, now: int, e: string, clock: nat)
    requires Usable(s) && FirstDue(s, now, e) && Clear(s, now)
    ensures Clear(ReleaseDueRetry(s, Some(e), clock).0, now)
  {
    ReleaseShrinksDue(s, now, Some(e), clock);
    ReleaseIsolatesPoison(s, now, e, clock);
    var s' := ReleaseDueRetry(s, Some(e), clock).0;
    forall d | d in Due(s', now) ensures !Blocks(s', d) {
      assert d in Due(s, now) && d != e;
    }
  }

  /** When no due record blocks, repeated release ends: after as many calls as were due, nothing is. */
  lemma {:induction false} RepeatedReleaseEnds(ss: seq<Store>, picks: seq<string>, clocks: seq<nat>, now: int)
    requires ReleaseSeries(ss, picks, clocks, now) && Usable(ss[0]) && Clear(ss[0], now)
    ensures |picks| + |Due(ss[|picks|], now)| == |Due(ss[0], now)|
    ensures Usable(ss[|picks|]) && Clear(ss[|picks|], now)
  {
    if picks != [] {
      var n := |picks| - 1;
      RepeatedReleaseEnds(ss[..n + 1], picks[..n], clocks[..n], now);
      ReleaseShrinksDue(ss[n], now, Some(picks[n]), clocks[n]);
      ReleaseStaysClear(ss[n], now, picks[n], clocks[n]);
    }
  }

  /** A due record that blocks is still due, and still blocks, after any number of calls. */
  lemma {:induction false} BlockedStaysDue(ss: seq<Store>, picks: seq<string>, clocks: seq<nat>, now: int, e: string)
    requires ReleaseSeries(ss, picks, clocks, now) && Usable(ss[0]) && e in Due(ss[0], now) && Blocks(ss[0], e)
    ensures e in Due(ss[|picks|], now) && Blocks(ss[|picks|], e) && Usable(ss[|picks|])
  {
    if picks != [] {
      var n := |picks| - 1;
      BlockedStaysDue(ss[..n + 1], picks[..n], clocks[..n], now, e);
      ReleaseShrinksDue(ss[n], now, Some(picks[n]), clocks[n]);
      ReleaseIsolatesPoison(ss[n], now, picks[n], clocks[n]);
    }
  }

  /** So a series as long as the due set was large empties it if and only if no due record blocks. */
  lemma ReleaseEndsIffClear(ss: seq<Store>, picks: seq<string>, clocks: seq<nat>, now: int)
    requires ReleaseSeries(ss, picks, clocks, now) && Usable(ss[0]) && |picks| == |Due(ss[0], now)|
    ensures Due(ss[|picks|], now) == {} <==> Clear(ss[0], now)
  {
    if Clear(ss[0], now) {
      RepeatedReleaseEnds(ss, picks, clocks, now);
    } else {
      var e :| e in Due(ss[0], now) && Blocks(ss[0], e);
      BlockedStaysDue(ss, picks, clocks, now, e);
    }
  }

  /** A scheduled record whose id text is, say, 99999999999999999999-0: release errs on it whenever it is first. */
  lemma OneRecordBlocks(e: string, now: int, clock: nat)
    requires IsUuid(e)
    ensures var h := StatusHash(Some(e), Some(RetryScheduled), Number(1), Unreadable, None, None);
            var s := EMPTY_STORE.(hasStream := true, hasGroup := true,
                                  statuses := map[e := h], retries := map[e := now]);
            && Usable(s) && FirstDue(s, now, e) && Blocks(s, e)
            && ReleaseDueRetry(s, Some(e), clock) == (s, Err)
  {
  }

  /**
   A release writes no status but the picked event's. It condemns an event exactly when its records do not
   agree, the hash alone is in order and its id can be read; an event whose hash, pending entry and message agree is
   requeued with the very same fields, and nothing is lost from the stream.
   */
  lemma ReleaseIsolatesPoison(s: Store, now: int, e: string, clock: nat)
    requires Usable(s) && FirstDue(s, now, e)
    ensures var (s', reply) := ReleaseDueRetry(s, Some(e), clock);
            && OnlyStatusOf(e, s, s')
            && (reply == Ok(1) <==> Agrees(s, e))
            && (HasStatus(s', e, DeadLetter) && !HasStatus(s, e, DeadLetter)
                <==> Condemnable(s, e) && !Agrees(s, e) && !Blocks(s, e))
            && (!Agrees(s, e) ==>
                  s'.entries == s.entries && s'.pending == s.pending && s'.lastId == s.lastId)
            && s'.deadLetters == s.deadLetters && s'.quarantined == s.quarantined
  {
  }

  lemma ReleaseRequeuesInFull(s: Store, now: int, e: string, clock: nat)
    requires Usable(s) && FirstDue(s, now, e) && Agrees(s, e)
    ensures var s' := ReleaseDueRetry(s, Some(e), clock).0;
            var oldId := s.statuses[e].streamId.id;
            HasHash(s', e) && s'.statuses[e].streamId.Plain? &&
            var newId := s'.statuses[e].streamId.id;
            && HasStatus(s', e, Queued)
            && Less(s.lastId, newId) && newId in s'.entries && s'.entries[newId] == s.entries[oldId]
            && oldId !in s'.pending && s'.pending.Keys == s.pending.Keys - {oldId}
            && (forall id :: id in s.entries && id != newId ==> id in s'.entries && s'.entries[id] == s.entries[id])
  {
  }

  /** Quarantine writes only a status bound to its own message, and only from queued or delivering. */
  lemma QuarantineIsolates(s: Store, id: StreamId, reason: string, e: string)
    ensures var (s', reply) := Quarantine(s, id, reason);
            && (reply.Err? ==> s' == s)
            && (reply.Ok? ==> s'.pending.Keys == s.pending.Keys - {id} && |s'.quarantined| == |s.quarantined| + 1)
            && s'.entries == s.entries && s'.retries == s.retries
            && (e in s.statuses <==> e in s'.statuses)
            && (e in s.statuses && s'.statuses[e] != s.statuses[e] ==>
                  && s.statuses[e].streamId == Plain(id) && s.statuses[e].eventId == Some(e)
                  && s.statuses[e].status in {Some(Queued), Some(Delivering)}
                  && s'.statuses[e].status == Some(DeadLetter))
  {
  }

  /** The dead-letter script writes everything or nothing, and no status but its own. */
  lemma DeadLetterIsAtomic(s: Store, e: string, id: StreamId, error: string)
    ensures var (s', reply) := MoveToDeadLetter(s, e, id, error);
            && OnlyStatusOf(e, s, s')
            && (reply.Err? ==> s' == s)
            && (reply.Ok? ==>
                  && id in s.pending && s'.pending.Keys == s.pending.Keys - {id}
                  && HasStatus(s, e, Delivering) && HasStatus(s', e, DeadLetter)
                  && s'.deadLetters[..|s.deadLetters|] == s.deadLetters
                  && |s'.deadLetters| == |s.deadLetters| + 1
                  && s'.deadLetters[|s.deadLetters|].fields == s.entries[id]
                  && s'.retries.Keys == s.retries.Keys - {s.statuses[e].eventId.value})
  {
  }
}
