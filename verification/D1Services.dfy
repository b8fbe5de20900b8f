/**
 `AcceptanceService.repair` and `DeliveryService.process` as methods over the store object, and what they do when
 nothing interleaves with them.
 */
module D1Services {
  import opened Options
  import opened DeliveryPolicy
  import opened DeliveryFold
  import opened Chunker
  import opened D1Store
  import opened D1Batch
  import opened D1Statements

  // ---------------------------------------------------------------- ingress

  /** What `accept` answers when its batch is done. */
  function Answered(row: Reply<Selected>, e: string, key: Option<string>, fingerprint: string): Reply<Acceptance> {
    if row.Err? then Err else Ok(Judge(row.value, e, key, fingerprint))
  }

  predicate IsNew(reply: Reply<Acceptance>) { reply.Ok? && reply.value.Recorded? && reply.value.created }

  /**
   `AcceptanceService.accept` alone; `sent` says whether the queue takes the message. Only for a new event is one
   offered, and then the outbox row is marked exactly when the queue took it.
   */
  method AcceptAndSend(store: D1EventStore, e: string, request: Request, key: Option<string>, fingerprint: string,
                       limit: nat, now: int, sent: bool)
    returns (reply: Option<Reply<Acceptance>>, dispatched: bool)
    modifies store
    ensures reply == None <==> Split(request.payload, limit) == None
    ensures reply == None ==> store.View() == old(store.View()) && !dispatched
    ensures reply.Some? ==>
              var (d, row) := AcceptBatch(old(store.View()), e, request.eventType, Split(request.payload, limit).value,
                                          key, fingerprint, now);
              && reply.value == Answered(row, e, key, fingerprint)
              && (store.View(), dispatched)
                   == if IsNew(reply.value) && sent then MarkDispatched(d, e, None, now) else (d, false)
  {
    hide Split;
    dispatched := false;
    reply := store.Accept(e, request, key, fingerprint, limit, now);
    if reply.Some? && IsNew(reply.value) && sent {
      dispatched := store.MarkSent(e, None, now);
    }
  }

  /** A new event ends up with all its rows, and its outbox row is sent exactly when the message was. */
  lemma NewEventIsStored(d: D1, e: string, request: Request, key: Option<string>, fingerprint: string, limit: nat,
                         now: int, sent: bool)
    requires Unused(d, e) && KeyFree(d, key) && request.payload != [] && Split(request.payload, limit).Some?
    ensures var pieces := Split(request.payload, limit).value;
            var (d1, row) := AcceptBatch(d, e, request.eventType, pieces, key, fingerprint, now);
            var (d2, dispatched) := if sent then MarkDispatched(d1, e, None, now) else (d1, false);
            && Answered(row, e, key, fingerprint) == Ok(Recorded(e, true, Queued, 0)) && dispatched == sent
            && LoadPayload(d2, e, []) == Some(request.payload)
            && d2.events == d.events[e := Row(request.eventType, [], Queued, 0, fingerprint, None, None)]
            && d2.outbox == d.outbox[e := Box(sent, if sent then 1 else 0, None, None, now)]
            && d2.keys == (if key.Some? then d.keys[key.value := e] else d.keys)
  {
    StoredIsLoaded(d, e, request, limit, key, fingerprint, now);
    WinnerStoresAll(d, e, request.eventType, Split(request.payload, limit).value, key, fingerprint, now);
    hide AcceptBatch, Split, Unused, Span, JoinBelow, Numbered;
  }

  // ---------------------------------------------------------------- repair

  /** A claimed row after the repair: sent once more, or free again. */
  function Settled(before: D1, e: string, sent: bool, now: int): Box
    requires e in before.outbox
  {
    Box(sent, if sent then before.outbox[e].sends + 1 else before.outbox[e].sends, None, None, now)
  }

  /** What became of the first `n` rows of a repair's list, the queue taking a message where `sends` says so. */
  ghost predicate RepairedUpTo(before: D1, after: D1, order: seq<string>, n: nat, token: nat, leaseUntil: int, now: int,
                               sends: string -> bool)
    requires n <= |order|
  {
    && after.outbox.Keys == before.outbox.Keys
    && after == before.(outbox := after.outbox)
    && (forall i :: 0 <= i < n && order[i] in before.outbox ==>
          after.outbox[order[i]] == Settled(before, order[i], sends(order[i]), now))
    && (forall i :: n <= i < |order| && order[i] in before.outbox ==>
          after.outbox[order[i]] == Box(false, before.outbox[order[i]].sends, Some(token), Some(leaseUntil), now))
    && (forall e :: e in before.outbox && e !in order ==> after.outbox[e] == before.outbox[e])
  }

  /** How many of the first `n` the queue takes. */
  function Taken(order: seq<string>, n: nat, sends: string -> bool): (taken: nat)
    requires n <= |order|
    ensures taken <= n
  {
    if n == 0 then 0 else Taken(order, n - 1, sends) + (if sends(order[n - 1]) then 1 else 0)
  }

  lemma ClaimedIsStart(before: D1, order: seq<string>, limit: nat, token: nat, leaseMs: int, now: int,
                       sends: string -> bool)
    requires Picks(before, now, limit, Elements(order)) && Lists(order, Elements(order))
    ensures RepairedUpTo(before, ClaimOutbox(before, Elements(order), token, now + leaseMs, now), order, 0, token,
                         now + leaseMs, now, sends)
    ensures forall i :: 0 <= i < |order| ==> order[i] in before.outbox
    ensures forall j, k :: 0 <= j < k < |order| ==> order[j] != order[k]
  {
    forall i | 0 <= i < |order| ensures order[i] in Elements(order) && Claimable(before, now, order[i]) {
    }
  }

  lemma RowSettled(before: D1, d: D1, order: seq<string>, i: nat, token: nat, leaseUntil: int, now: int,
                   sends: string -> bool)
    requires i < |order| && RepairedUpTo(before, d, order, i, token, leaseUntil, now, sends)
    requires order[i] in before.outbox
    requires forall j, k :: 0 <= j < k < |order| ==> order[j] != order[k]
    ensures order[i] in d.outbox
    ensures d.outbox[order[i]] == Box(false, before.outbox[order[i]].sends, Some(token), Some(leaseUntil), now)
    ensures var d' := d.(outbox := d.outbox[order[i] := Settled(before, order[i], sends(order[i]), now)]);
            RepairedUpTo(before, d', order, i + 1, token, leaseUntil, now, sends)
  {
  }

  lemma RowRepaired(before: D1, d: D1, order: seq<string>, i: nat, token: nat, leaseUntil: int, now: int,
                    sends: string -> bool)
    requires i < |order| && RepairedUpTo(before, d, order, i, token, leaseUntil, now, sends)
    requires order[i] in before.outbox
    requires forall j, k :: 0 <= j < k < |order| ==> order[j] != order[k]
    ensures Dispatchable(d, order[i], Some(token))
    ensures sends(order[i]) ==>
              RepairedUpTo(before, MarkDispatched(d, order[i], Some(token), now).0, order, i + 1, token, leaseUntil,
                           now, sends)
    ensures !sends(order[i]) ==>
              RepairedUpTo(before, ReleaseClaim(d, order[i], token, now), order, i + 1, token, leaseUntil, now, sends)
  {
    hide RepairedUpTo;
    RowSettled(before, d, order, i, token, leaseUntil, now, sends);
  }

  /** One row of the repair's loop; `sent` says whether the queue took the message. */
  method RepairOne(store: D1EventStore, e: string, token: nat, now: int, sent: bool) returns (done: bool)
    requires Dispatchable(store.View(), e, Some(token))
    modifies store
    ensures done == sent
    ensures store.View() == if sent then MarkDispatched(old(store.View()), e, Some(token), now).0
                            else ReleaseClaim(old(store.View()), e, token, now)
  {
    if !sent {
      store.ReleaseOutboxClaim(e, token, now);
      return false;
    }
    // Nobody can have taken the claim over in between, so this reports success.
    done := store.MarkSent(e, Some(token), now);
  }

  /** The loop of `repair` over the claimed rows. */
  method RepairRows(store: D1EventStore, order: seq<string>, token: nat, now: int, sends: string -> bool,
                    ghost before: D1, ghost leaseUntil: int)
    returns (repaired: nat, deferred: nat)
    requires RepairedUpTo(before, store.View(), order, 0, token, leaseUntil, now, sends)
    requires forall i :: 0 <= i < |order| ==> order[i] in before.outbox
    requires forall i, j :: 0 <= i < j < |order| ==> order[i] != order[j]
    modifies store
    ensures RepairedUpTo(before, store.View(), order, |order|, token, leaseUntil, now, sends)
    ensures repaired == Taken(order, |order|, sends) && repaired + deferred == |order|
  {
    hide RepairedUpTo, MarkDispatched, ReleaseClaim, Dispatchable;
    repaired, deferred := 0, 0;
    for i := 0 to |order|
      invariant repaired == Taken(order, i, sends) && repaired + deferred == i
      invariant RepairedUpTo(before, store.View(), order, i, token, leaseUntil, now, sends)
    {
      RowRepaired(before, store.View(), order, i, token, leaseUntil, now, sends);
      var done := RepairOne(store, order[i], token, now, sends(order[i]));
      if done {
        repaired := repaired + 1;
      } else {
        deferred := deferred + 1;
      }
    }
  }

  /**
   `repair` alone: every claimed row ends sent or free again, as the queue decides; no other row is touched; the two
   counters add up to the claimed rows.
   */
  method Repair(store: D1EventStore, limit: nat, token: nat, now: int, leaseMs: int, sends: string -> bool)
    returns (repaired: nat, deferred: nat, order: seq<string>)
    modifies store
    ensures Picks(old(store.View()), now, limit, Elements(order)) && Lists(order, Elements(order))
    ensures RepairedUpTo(old(store.View()), store.View(), order, |order|, token, now + leaseMs, now, sends)
    ensures repaired == Taken(order, |order|, sends) && repaired + deferred == |order|
  {
    ghost var before := store.View();
    order := store.ClaimRows(limit, token, leaseMs, now);
    ClaimedIsStart(before, order, limit, token, leaseMs, now, sends);
    repaired, deferred := RepairRows(store, order, token, now, sends, before, now + leaseMs);
  }

  // ---------------------------------------------------------------- process

  /** `DeliveryResult`, or the exceptions the queue handler answers with a retry. */
  datatype Result = Ack(status: EventStatus, attempts: nat) | Retry(status: EventStatus, attempts: nat) | Raised

  /** Between two deliveries of its message the event shows this progress, and its payload is whole. */
  ghost predicate Rests(d: D1, e: string, request: Request, progress: Progress) {
    && e in d.events && d.events[e].status == progress.status && d.events[e].attempts == progress.attempts
    && d.events[e].eventType == request.eventType && progress.status != Delivering
    && LoadPayload(d, e, d.events[e].legacyPayload) == Some(request.payload)
  }

  /** At rest, and ended or with attempts left. */
  ghost predicate Ready(d: D1, e: string, request: Request, progress: Progress, maximum: int) {
    Rests(d, e, request, progress) && (Terminal(progress.status) || progress.attempts < maximum)
  }

  /** What `_current_result` makes of the tables. */
  ghost function Reported(d: D1, e: string): Result {
    if e !in d.events || LoadPayload(d, e, d.events[e].legacyPayload) == None then Raised
    else if Terminal(d.events[e].status) then Ack(d.events[e].status, d.events[e].attempts)
    else Retry(d.events[e].status, d.events[e].attempts)
  }

  /** `_current_result`. */
  method CurrentResult(store: D1EventStore, e: string) returns (result: Result)
    ensures result == Reported(store.View(), e)
    ensures result.Raised? <==>
              e !in store.events || LoadPayload(store.View(), e, store.events[e].legacyPayload) == None
    ensures !result.Raised? ==>
              && store.events[e].status == result.status && store.events[e].attempts == result.attempts
              && (result.Ack? <==> Terminal(result.status))
  {
    if e !in store.events {
      return Raised;
    }
    var row := store.events[e];
    var payload := store.LoadPayloadJson(e, row.legacyPayload);
    if payload.None? {
      return Raised;
    }
    result := if Terminal(row.status) then Ack(row.status, row.attempts) else Retry(row.status, row.attempts);
  }

  lemma StartedAlone(d: D1, e: string, request: Request, progress: Progress, token: nat, now: int, maximum: int)
    requires Ready(d, e, request, progress, maximum)
    ensures var (d', start) := StartAlone(d, e, token, now, maximum);
            if Terminal(progress.status) then d' == d && start == Finished(progress.status, progress.attempts)
            else && start == Started(token, progress.attempts + 1, request.eventType, request.payload)
                 && e in d'.events && d'.chunks == d.chunks
                 && d'.events[e] == d.events[e].(status := Delivering, attempts := progress.attempts + 1,
                                                 token := Some(token), lease := Some(now + DELIVERY_LEASE_MS))
  {
  }

  /** `process` when nothing interleaves with it. */
  ghost function Processed(d: D1, e: string, token: nat, now: int, maximum: int, response: Response)
    : (D1, Result, Option<Request>)
  {
    var (d1, start) := StartAlone(d, e, token, now, maximum);
    match start
    case Finished(status, attempts) => (d1, Ack(status, attempts), None)
    case Busy(attempts) => (d1, Retry(Delivering, attempts), None)
    case NotFound => (d1, Raised, None)
    case Unavailable => (d1, Raised, None)
    case Started(_, number, eventType, payload) =>
      var refused := CloudflareClassify(response);
      var outcome := if refused == None then Delivered
                     else if ShouldDeadLetter(refused.value, number, maximum) then DeadLetter else RetryScheduled;
      var (d2, moved) := Transition(d1, e, outcome, token);
      (d2,
       if !moved then Reported(d2, e) else if Terminal(outcome) then Ack(outcome, number) else Retry(outcome, number),
       Some(Request(eventType, payload)))
  }

  /**
   `process`. The ghost parameters name an event at rest; if there is one, the call makes of the sink's answer
   what the fold makes of it, reports that, and calls the sink exactly when the event had not ended. While the lease
   of another attempt runs, the call keeps off the event.
   */
  method Process(store: D1EventStore, e: string, token: nat, now: int, maximum: int, response: Response,
                 ghost request: Request, ghost progress: Progress)
    returns (result: Result, called: Option<Request>)
    requires maximum >= 1
    modifies store
    ensures (store.View(), result, called) == Processed(old(store.View()), e, token, now, maximum, response)
    ensures Ready(old(store.View()), e, request, progress, maximum) ==>
              var next := Next(CloudflareClassify, maximum, progress, response);
              && Rests(store.View(), e, request, next)
              && result == (if Terminal(next.status) then Ack(next.status, next.attempts)
                            else Retry(next.status, next.attempts))
              && called == (if Terminal(progress.status) then None else Some(request))
    ensures var d := old(store.View());
            (&& e in d.events && d.events[e].status == Delivering
             && d.events[e].lease.Some? && d.events[e].lease.value > now) ==>
              result == Retry(Delivering, d.events[e].attempts) && called == None && store.View() == d
    ensures result.Ack? ==>
              && e in store.events && Terminal(result.status)
              && store.events[e].status == result.status && store.events[e].attempts == result.attempts
  {
    ghost var before := store.View();
    ghost var ready := Ready(before, e, request, progress, maximum);
    if ready { StartedAlone(before, e, request, progress, token, now, maximum); }
    called := None;
    var start := store.MarkDeliveryStarted(e, token, now, maximum);
    match start {
      case Finished(status, attempts) => result := Ack(status, attempts);
      case Busy(attempts) => result := Retry(Delivering, attempts);
      case NotFound => result := Raised;
      case Unavailable => result := Raised;
      case Started(_, number, eventType, payload) =>
        called := Some(Request(eventType, payload));
        var refused := CloudflareClassify(response);
        var outcome := Delivered;
        if refused.Some? {
          outcome := if !Retryable(refused.value) || number >= maximum then DeadLetter else RetryScheduled;
        }
        var moved := store.UpdateTerminal(e, outcome, token);
        if !moved {
          result := CurrentResult(store, e);
        } else {
          result := if outcome == RetryScheduled then Retry(outcome, number) else Ack(outcome, number);
        }
    }
  }

  // ---------------------------------------------------------------- from acceptance on

  method AcceptNew(e: string, request: Request, fingerprint: string, limit: nat, now: int) returns (store: D1EventStore)
    requires Split(request.payload, limit).Some? && request.payload != []
    ensures fresh(store) && Rests(store.View(), e, request, Progress(Queued, 0))
  {
    store := new D1EventStore();
    StoredIsLoaded(store.View(), e, request, limit, None, fingerprint, now);
    var reply := store.Accept(e, request, None, fingerprint, limit, now);
  }

  /** A lone event from acceptance through a list of sink answers, its message delivered once for each. */
  method RunAll(maximum: int, e: string, request: Request, fingerprint: string, limit: nat, responses: seq<Response>,
                clock: nat -> int)
    returns (trace: seq<Progress>, called: seq<bool>)
    requires maximum >= 1 && Split(request.payload, limit).Some? && request.payload != []
    ensures |called| == |responses| && Follows(CloudflareClassify, maximum, responses, trace, called)
  {
    var store := AcceptNew(e, request, fingerprint, limit, clock(0));
    trace, called := [Progress(Queued, 0)], [];
    for i := 0 to |responses|
      invariant |called| == i && Follows(CloudflareClassify, maximum, responses, trace, called)
      invariant Rests(store.View(), e, request, trace[i])
    {
      FollowsWithin(CloudflareClassify, maximum, responses, trace, called);
      var result, call := Process(store, e, i, clock(i), maximum, responses[i], request, trace[i]);
      var next := Progress(store.events[e].status, store.events[e].attempts);
      FollowsMore(CloudflareClassify, maximum, responses, trace, called, next, call.Some?);
      trace, called := trace + [next], called + [call.Some?];
    }
  }
}
