/**
 `EventWorker.run_once` as one method over the store object, and what it does when one worker runs alone and
 nothing crashes: it moves an event along the pure fold.
 */
module RedisWorker {
  import opened Options
  import opened DeliveryPolicy
  import opened DeliveryFold
  import opened RedisStore
  import opened RedisScripts
  import opened RedisEffects
  import opened RedisWorld
  import opened RedisSafety
  import opened RedisWalks

  /** `WorkerResult`; Failed stands for EventStoreUnavailable leaving `run_once`. */
  datatype WorkerResult = NoMessage | EventDelivered | EventDeadLettered | EventRetried | FailedPending | Failed

  // ---------------------------------------------------------------- a store with one event

  /** The records of `e` agree, and nothing else is in the way. */
  predicate Lone(s: Store, e: string, c: Content) {
    && IsUuid(e) && s.foreign == {} && s.hasStream && AtMost(s.lastRead, s.lastId)
    && e in s.statuses && s.statuses[e].eventId == Some(e) && s.statuses[e].streamId.Plain?
    && Current(s, e) in s.entries && s.entries[Current(s, e)] == Encode(e, c) && Less(ZERO_ID, Current(s, e))
    && (forall x :: x in s.entries ==> AtMost(x, s.lastId))
    && (!s.hasGroup ==> s.lastRead == ZERO_ID && s.pending == map[])
  }

  /** Between two runs of the worker, the event shows this progress; a retry is due at `due`. */
  predicate Rests(s: Store, e: string, c: Content, progress: Progress, due: int) {
    && Lone(s, e, c)
    && s.statuses[e].status == Some(progress.status) && s.statuses[e].attempts == Number(progress.attempts)
    && (forall x :: x in s.entries && Less(s.lastRead, x) ==> x == Current(s, e) && progress.status == Queued)
    && match progress.status
       case Queued => Less(s.lastRead, Current(s, e)) && s.pending == map[] && s.retries == map[]
       case RetryScheduled => s.hasGroup && s.pending.Keys == {Current(s, e)} && s.retries == map[e := due]
       case Delivered => s.hasGroup && s.pending == map[] && s.retries == map[]
       case DeadLetter => s.hasGroup && s.pending == map[] && s.retries == map[]
       case Delivering => false
  }

  /** The worker has just read the event's message. */
  predicate InFlight(s: Store, e: string, c: Content, n: nat) {
    && Lone(s, e, c) && s.hasGroup && s.pending.Keys == {Current(s, e)} && s.retries == map[]
    && s.statuses[e].status == Some(Queued) && s.statuses[e].attempts == Number(n)
    && (forall x :: x in s.entries ==> AtMost(x, s.lastRead))
  }

  /** The error class that a refusal is recorded under, by its code. */
  lemma ErrorByCode(r: Response)
    ensures var refused := RedisClassify(r);
            refused.Some? ==>
              match ErrorName(refused.value)
              case "timeout" => r.TimedOut?
              case "connection_error" => r.ConnectionFailed?
              case "http_1xx" => r.Status? && 100 <= r.code < 200
              case "http_3xx" => r.Status? && 300 <= r.code < 400
              case "http_4xx" => r.Status? && 400 <= r.code < 500 && r.code != 429
              case "http_429" => r.Status? && r.code == 429
              case "http_5xx" => r.Status? && r.code >= 500
              case _ => false
  {
  }

  // ---------------------------------------------------------------- the steps of run_once, alone

  lemma GroupIsMade(s: Store, e: string, c: Content, progress: Progress, due: int)
    requires Rests(s, e, c, progress, due)
    ensures var (s', reply) := EnsureGroup(s); Rests(s', e, c, progress, due) && s'.hasGroup && reply.Ok?
  {
  }

  /** After the release a waiting event is unread; an ended one is where it was. */
  lemma RetryIsReleased(s: Store, e: string, c: Content, progress: Progress, due: int, now: int,
                        first: Option<string>, clock: nat)
    requires Rests(s, e, c, progress, due) && s.hasGroup && due <= now
    requires if first.Some? then FirstDue(s, now, first.value) else Due(s, now) == {}
    ensures var (s', reply) := ReleaseDueRetry(s, first, clock);
            && reply.Ok? && s'.hasGroup
            && Rests(s', e, c, if Terminal(progress.status) then progress else Progress(Queued, progress.attempts), due)
  {
    if progress.status == RetryScheduled {
      assert e in Due(s, now);
      EncodeFields(e, c);
      assert Agrees(s, e);
    }
  }

  lemma NothingToClaim(s: Store, now: int, minIdle: int, found: Option<StreamId>)
    requires s.pending == map[] && ScanFinds(s, now, minIdle, found)
    ensures found == None
  {
  }

  /** Reading takes the waiting event's message, and nothing after the end. */
  lemma ReadingTakes(s: Store, e: string, c: Content, progress: Progress, due: int, found: Option<StreamId>, p: nat,
                     now: int)
    requires Rests(s, e, c, progress, due) && s.hasGroup && progress.status != RetryScheduled && NextUnread(s, found)
    ensures if progress.status == Queued
            then found == Some(Current(s, e)) && InFlight(Deliver(s, found.value, p, now), e, c, progress.attempts)
            else found == None
  {
    if progress.status == Queued {
      assert Unread(s, Current(s, e));
    }
  }

  // ---------------------------------------------------------------- the attempt

  /** From `mark_delivery_started` on. */
  function Attempted(cfg: Config, s: Store, p: nat, m: Held, response: Response, due: int)
    : (Store, WorkerResult, bool)
  {
    var (s1, started) := StartDelivery(s, m.e, m.id);
    if started.Err? then (s1, Failed, false)
    else
      match RedisClassify(response)
      case None =>
        var (s2, reply) := CompleteDelivery(s1, m.e, m.id);
        (s2, if reply.Ok? then EventDelivered else Failed, true)
      case Some(error) =>
        if Buries(cfg.policy(p), error, started.value) then
          var (s2, reply) := MoveToDeadLetter(s1, m.e, m.id, ErrorName(error));
          (s2, if reply.Ok? then EventDeadLettered else Failed, true)
        else if Retries(cfg.policy(p), error, started.value) then
          var (s2, reply) := ScheduleRetry(s1, m.e, m.id, due, ErrorName(error));
          (s2, if reply.Ok? then EventRetried else Failed, true)
        else (s1, FailedPending, true)
  }

  /** The attempt is under way, and counted. */
  predicate UnderWay(s: Store, e: string, c: Content, n: nat) {
    && Lone(s, e, c) && s.hasGroup && s.pending.Keys == {Current(s, e)} && s.retries == map[]
    && s.statuses[e].status == Some(Delivering) && s.statuses[e].attempts == Number(n) && n >= 1
    && (forall x :: x in s.entries ==> AtMost(x, s.lastRead))
  }

  lemma StartCounts(s: Store, e: string, c: Content, n: nat)
    requires InFlight(s, e, c, n)
    ensures var (s', reply) := StartDelivery(s, e, Current(s, e));
            reply == Ok(n + 1) && UnderWay(s', e, c, n + 1) && Current(s', e) == Current(s, e)
  {
  }

  lemma CompletionRests(s: Store, e: string, c: Content, n: nat, due: int)
    requires UnderWay(s, e, c, n)
    ensures var (s', reply) := CompleteDelivery(s, e, Current(s, e));
            reply.Ok? && Rests(s', e, c, Progress(Delivered, n), due) && Current(s', e) == Current(s, e)
  {
  }

  lemma RetryRests(s: Store, e: string, c: Content, n: nat, due: int, error: string)
    requires UnderWay(s, e, c, n)
    ensures var (s', reply) := ScheduleRetry(s, e, Current(s, e), due, error);
            reply.Ok? && Rests(s', e, c, Progress(RetryScheduled, n), due) && Current(s', e) == Current(s, e)
  {
  }

  lemma BurialRests(s: Store, e: string, c: Content, n: nat, due: int, error: string)
    requires UnderWay(s, e, c, n)
    ensures var (s', reply) := MoveToDeadLetter(s, e, Current(s, e), error);
            reply.Ok? && Rests(s', e, c, Progress(DeadLetter, n), due) && Current(s', e) == Current(s, e)
  {
    EncodeFields(e, c);
    assert MayDeadLetter(s, e, Current(s, e));
  }

  /** The answer that goes with the status an attempt has left behind. */
  predicate Tells(result: WorkerResult, status: EventStatus) {
    && (result == EventDelivered <==> status == Delivered)
    && (result == EventRetried <==> status == RetryScheduled)
    && (result == EventDeadLettered <==> status == DeadLetter)
    && (result == FailedPending <==> status == Delivering)
  }

  lemma AttemptFollowsFold(cfg: Config, s: Store, e: string, c: Content, n: nat, status: EventStatus, p: nat,
                           maximum: int, response: Response, due: int)
    requires InFlight(s, e, c, n) && cfg.policy(p) == Policy(Some(maximum), true)
    requires status == Queued || status == RetryScheduled
    ensures var (s', result, called) := Attempted(cfg, s, p, Held(Current(s, e), e, c), response, due);
            var next := Next(RedisClassify, maximum, Progress(status, n), response);
            called && Rests(s', e, c, next, due) && Tells(result, next.status)
  {
    var s1 := StartDelivery(s, e, Current(s, e)).0;
    StartCounts(s, e, c, n);
    hide InFlight, UnderWay, Rests, StartDelivery, CompleteDelivery, ScheduleRetry, MoveToDeadLetter;
    match RedisClassify(response)
    case None => CompletionRests(s1, e, c, n + 1, due);
    case Some(error) =>
      if ShouldDeadLetter(error, n + 1, maximum) {
        BurialRests(s1, e, c, n + 1, due, ErrorName(error));
      } else {
        RetryRests(s1, e, c, n + 1, due, ErrorName(error));
      }
  }

  /** What an attempt has left behind: this status and count, and a message still pending unless the event ended. */
  predicate Leaves(s: Store, e: string, id: StreamId, status: EventStatus, n: nat) {
    && StatusOf(s, e) == Some(status) && s.statuses[e].attempts == Number(n) && Current(s, e) == id
    && (id in s.pending <==> status in {RetryScheduled, Delivering})
    && (e in s.retries <==> status == RetryScheduled)
  }

  lemma RestLeaves(s: Store, e: string, c: Content, progress: Progress, due: int)
    requires Rests(s, e, c, progress, due) && progress.status != Queued
    ensures Leaves(s, e, Current(s, e), progress.status, progress.attempts)
  {
  }

  lemma UnderWayLeaves(s: Store, e: string, c: Content, n: nat)
    requires UnderWay(s, e, c, n)
    ensures Leaves(s, e, Current(s, e), Delivering, n)
  {
  }

  /** The status an attempt numbered `n` leaves behind under any policies; a worker that gives up leaves delivering. */
  function LeftStatus(policy: Policy, response: Response, n: nat): EventStatus {
    match RedisClassify(response)
    case None => Delivered
    case Some(error) =>
      if policy.maximum.Some? && (!WorthRetrying(response) || n >= policy.maximum.value) then DeadLetter
      else if policy.retries && WorthRetrying(response) then RetryScheduled
      else Delivering
  }

  lemma ClassIsWorth(r: Response)
    ensures RedisClassify(r).Some? ==> (Retryable(RedisClassify(r).value) <==> WorthRetrying(r))
  {
  }

  /**
   With any policies: the sink is called, the attempt is counted, and the answer tells the status left behind.
   `FailedPending` is answered exactly when the sink refused and neither policy takes the message, which then stays
   pending for a later claim.
   */
  lemma AnswerTellsStatus(cfg: Config, s: Store, e: string, c: Content, n: nat, p: nat, response: Response, due: int)
    requires InFlight(s, e, c, n)
    ensures var (s', result, called) := Attempted(cfg, s, p, Held(Current(s, e), e, c), response, due);
            var status := LeftStatus(cfg.policy(p), response, n + 1);
            called && Tells(result, status) && Leaves(s', e, Current(s, e), status, n + 1)
  {
    var s1 := StartDelivery(s, e, Current(s, e)).0;
    StartCounts(s, e, c, n);
    ClassIsWorth(response);
    hide InFlight, UnderWay, Rests, Leaves, StartDelivery, CompleteDelivery, ScheduleRetry, MoveToDeadLetter,
         RedisClassify, WorthRetrying, ErrorName;
    match RedisClassify(response)
    case None =>
      CompletionRests(s1, e, c, n + 1, due);
      RestLeaves(CompleteDelivery(s1, e, Current(s, e)).0, e, c, Progress(Delivered, n + 1), due);
    case Some(error) =>
      if Buries(cfg.policy(p), error, n + 1) {
        BurialRests(s1, e, c, n + 1, due, ErrorName(error));
        RestLeaves(MoveToDeadLetter(s1, e, Current(s, e), ErrorName(error)).0, e, c, Progress(DeadLetter, n + 1), due);
      } else if Retries(cfg.policy(p), error, n + 1) {
        RetryRests(s1, e, c, n + 1, due, ErrorName(error));
        RestLeaves(ScheduleRetry(s1, e, Current(s, e), due, ErrorName(error)).0, e, c,
                   Progress(RetryScheduled, n + 1), due);
      } else {
        UnderWayLeaves(s1, e, c, n + 1);
      }
  }

  /** The attempt as steps of the state machine. */
  ghost function AttemptSteps(cfg: Config, s: Store, p: nat, m: Held, response: Response, due: int): seq<Step> {
    if StartDelivery(s, m.e, m.id).1.Err? then [Begin(p, false)]
    else if RedisClassify(response) == None then [Begin(p, false), CallSink(p, response), Finish(p)]
    else [Begin(p, false), CallSink(p, response), GiveUp(p, due)]
  }

  lemma AttemptIsWalk(cfg: Config, w: World, p: nat, m: Held, response: Response, due: int) returns (w': World)
    requires PcOf(w, p) == Holding(m)
    ensures Walk(cfg, w, AttemptSteps(cfg, w.store, p, m, response, due)) == Some(w')
    ensures By(AttemptSteps(cfg, w.store, p, m, response, due), p)
    ensures var (s', result, called) := Attempted(cfg, w.store, p, m, response, due);
            At(w', s', p, Ready) && w'.calls == w.calls + (if called then [SinkCall(m.e, m.c)] else [])
  {
    hide Walk, Goes, By, StartDelivery, CompleteDelivery, ScheduleRetry, MoveToDeadLetter, RedisClassify, Buries,
         Retries;
    WalkNone(cfg, w, p);
    BeginGoes(cfg, w, p, m);
    var (s1, started) := StartDelivery(w.store, m.e, m.id);
    assert [] + [Begin(p, false)] == [Begin(p, false)];
    w' := WalkGoes(cfg, w, [], w, Begin(p, false), p, s1, if started.Err? then Ready else Started(m, started.value));
    if started.Ok? {
      w' := CallSends(cfg, w, [Begin(p, false)], w', p, m, started.value, response);
      assert [Begin(p, false)] + [CallSink(p, response)] == [Begin(p, false), CallSink(p, response)];
      match RedisClassify(response)
      case None =>
        FinishGoes(cfg, w', p, m, started.value);
        w' := WalkGoes(cfg, w, [Begin(p, false), CallSink(p, response)], w', Finish(p), p,
                       CompleteDelivery(s1, m.e, m.id).0, Ready);
        assert [Begin(p, false), CallSink(p, response)] + [Finish(p)]
            == [Begin(p, false), CallSink(p, response), Finish(p)];
      case Some(error) =>
        GiveUpGoes(cfg, w', p, m, started.value, error, due);
        var s2 := if Buries(cfg.policy(p), error, started.value)
                  then MoveToDeadLetter(s1, m.e, m.id, ErrorName(error)).0
                  else if Retries(cfg.policy(p), error, started.value)
                  then ScheduleRetry(s1, m.e, m.id, due, ErrorName(error)).0
                  else s1;
        w' := WalkGoes(cfg, w, [Begin(p, false), CallSink(p, response)], w', GiveUp(p, due), p, s2, Ready);
        assert [Begin(p, false), CallSink(p, response)] + [GiveUp(p, due)]
            == [Begin(p, false), CallSink(p, response), GiveUp(p, due)];
    }
  }

  /**
   Whatever the keyspace holds, a worker claims no more than it has done: each answer but a failure is given only when
   the script behind it went through, and after a failure nothing is acknowledged, buried or scheduled.
   */
  lemma AnswerIsTrue(cfg: Config, s: Store, p: nat, m: Held, response: Response, due: int)
    ensures var (s', result, called) := Attempted(cfg, s, p, m, response, due);
            && result != NoMessage
            && (result == EventDelivered ==>
                  StatusOf(s', m.e) == Some(Delivered) && m.id in s.pending && s'.pending == s.pending - {m.id})
            && (result == EventDeadLettered ==>
                  && StatusOf(s', m.e) == Some(DeadLetter) && m.id in s.pending && s'.pending == s.pending - {m.id}
                  && |s'.deadLetters| == |s.deadLetters| + 1 && s'.deadLetters[|s.deadLetters|].source == m.id)
            && (result == EventRetried ==>
                  && StatusOf(s', m.e) == Some(RetryScheduled) && s'.pending == s.pending
                  && s'.retries == s.retries[m.e := due])
            && (result == FailedPending ==> called && StatusOf(s', m.e) == Some(Delivering))
            && (result in {Failed, FailedPending} ==>
                  s'.pending == s.pending && s'.deadLetters == s.deadLetters && s'.retries == s.retries)
  {
    StartEffect(s, m.e, m.id);
    var s1 := StartDelivery(s, m.e, m.id).0;
    CompleteEffect(s1, m.e, m.id);
    hide StartDelivery, CompleteDelivery, ScheduleRetry, MoveToDeadLetter, Keeps, ErrorName, Buries, Retries;
    match RedisClassify(response)
    case None =>
    case Some(error) =>
      BurialEffect(s1, m.e, m.id, ErrorName(error));
      ScheduleEffect(s1, m.e, m.id, due, ErrorName(error));
  }

  /** From `mark_delivery_started` to the end of the attempt; `due` is when a retry would be due. */
  method Attempt(cfg: Config, store: RedisEventStore, p: nat, m: Held, response: Response, due: int)
    returns (result: WorkerResult, called: bool)
    modifies store
    ensures (store.View(), result, called) == Attempted(cfg, old(store.View()), p, m, response, due)
  {
    var attempt := store.MarkDeliveryStarted(m.e, m.id);
    if attempt.Err? {
      return Failed, false;
    }
    called := true;
    var refused := RedisClassify(response);
    if refused.None? {
      var completed := store.MarkDelivered(m.e, m.id);
      return if completed.Ok? then EventDelivered else Failed, true;
    }
    if Buries(cfg.policy(p), refused.value, attempt.value) {
      var moved := store.DeadLetterMessage(m.e, m.id, ErrorName(refused.value));
      return if moved.Ok? then EventDeadLettered else Failed, true;
    }
    if Retries(cfg.policy(p), refused.value, attempt.value) {
      var scheduled := store.ScheduleRetryAt(m.e, m.id, due, ErrorName(refused.value));
      return if scheduled.Ok? then EventRetried else Failed, true;
    }
    result := FailedPending;
  }

  // ---------------------------------------------------------------- acquiring a message

  /** The group is there and holds no message. */
  predicate NothingPends(s: Store) { s.pending == map[] && StreamKey !in s.foreign && s.hasStream && s.hasGroup }

  /** Where a worker goes on with what it has got hold of, `other` if with nothing. */
  function Onward(held: Option<Held>, failed: bool, other: Pc): Pc {
    if failed then Ready else if held.Some? then Holding(held.value) else other
  }

  /** `claim_stale_pending`; what is not fit for delivery is quarantined. The state machine takes the same steps. */
  method ClaimStale(cfg: Config, store: RedisEventStore, p: nat, now: int, minIdle: int, ghost w: World)
    returns (held: Option<Held>, failed: bool, ghost steps: seq<Step>, ghost w': World)
    requires At(w, store.View(), p, Swept)
    modifies store
    ensures NothingPends(old(store.View())) ==>
              held == None && !failed && store.View() == old(store.View())
    ensures Walk(cfg, w, steps) == Some(w') && By(steps, p) && w'.calls == w.calls
    ensures At(w', store.View(), p, Onward(held, failed, Unclaimed))
  {
    hide Walk, Goes, By, Dispose, Quarantine, Decode, ScanFinds;
    held, failed, steps, w' := None, false, [], w;
    WalkNone(cfg, w, p);
    ghost var before := store.View();
    var claimed := store.ClaimStalePending(p, now, minIdle);
    if claimed.Err? {
      ghost var any := SomethingIsFound(before, now, minIdle);
      ScanRefused(cfg, w, p, now, minIdle, any);
      w' := WalkGoes(cfg, w, steps, w, Scan(p, now, minIdle, any, false), p, before, Ready);
      return None, true, steps + [Scan(p, now, minIdle, any, false)], w';
    }
    ghost var found := if claimed.value.Some? then Some(claimed.value.value.0) else None;
    ScanGoes(cfg, w, p, now, minIdle, found);
    w' := WalkGoes(cfg, w, steps, w, Scan(p, now, minIdle, found, false), p, store.View(),
                   if found.Some? then Claimed(found.value, claimed.value.value.1 == ForDelivery) else Unclaimed);
    steps := steps + [Scan(p, now, minIdle, found, false)];
    if claimed.value.Some? {
      var (id, disposition) := claimed.value.value;
      if before.pending == map[] { NothingToClaim(before, now, minIdle, Some(id)); }
      RereadGoes(cfg, w', p, id, disposition == ForDelivery);
      if disposition == ForDelivery {
        held := Decode(cfg, id, store.entries[id]);
      }
      var reason := if disposition == ForDelivery then "invalid_message" else "invariant_violation";
      ghost var pc := if held.Some? then Holding(held.value) else Unfit(id, reason, false);
      w' := WalkGoes(cfg, w, steps, w', Reread(p), p, store.View(), pc);
      steps := steps + [Reread(p)];
      if held.Some? {
        return;
      }
      IsolateGoes(cfg, w', p, id, reason, false);
      var isolated := store.QuarantineMessage(id, reason);
      failed := isolated.Err?;
      w' := WalkGoes(cfg, w, steps, w', Isolate(p, false), p, store.View(), if failed then Ready else Unclaimed);
      steps := steps + [Isolate(p, false)];
    }
  }

  /** The state in which the release leaves a lone event. */
  predicate Released(cfg: Config, s: Store, e: string, c: Content, progress: Progress, due: int) {
    Rests(s, e, c, progress, due) && s.hasGroup && progress.status != RetryScheduled && cfg.decodes(Encode(e, c))
  }

  lemma ReleasedCanBeRead(cfg: Config, s: Store, e: string, c: Content, progress: Progress, due: int)
    requires Released(cfg, s, e, c, progress, due)
    ensures StreamKey !in s.foreign && s.hasStream && s.hasGroup
  {
  }

  lemma ReadingYields(cfg: Config, s: Store, e: string, c: Content, progress: Progress, due: int,
                      found: Option<StreamId>, p: nat, now: int)
    requires Released(cfg, s, e, c, progress, due) && NextUnread(s, found)
    ensures if progress.status == Queued
            then && found == Some(Current(s, e)) && found.value in s.entries
                 && InFlight(Deliver(s, found.value, p, now), e, c, progress.attempts)
                 && Decode(cfg, found.value, s.entries[found.value]) == Some(Held(found.value, e, c))
                 && Current(Deliver(s, found.value, p, now), e) == found.value
            else found == None
  {
    ReadingTakes(s, e, c, progress, due, found, p, now);
    DecodeReturnsAccepted(cfg, Current(s, e), e, c);
  }

  /** `read_next`, likewise. */
  method ReadFresh(cfg: Config, store: RedisEventStore, p: nat, now: int,
                   ghost e: string, ghost c: Content, ghost progress: Progress, ghost due: int, ghost w: World)
    returns (held: Option<Held>, failed: bool, ghost steps: seq<Step>, ghost w': World)
    requires At(w, store.View(), p, Unclaimed)
    modifies store
    ensures Released(cfg, old(store.View()), e, c, progress, due) ==>
              if progress.status == Queued
              then && !failed && held == Some(Held(Current(store.View(), e), e, c))
                   && InFlight(store.View(), e, c, progress.attempts)
              else !failed && held == None && store.View() == old(store.View())
    ensures Walk(cfg, w, steps) == Some(w') && By(steps, p) && w'.calls == w.calls
    ensures At(w', store.View(), p, Onward(held, failed, Ready))
  {
    hide Walk, Goes, By, Quarantine, Decode, Released;
    held, failed, steps, w' := None, false, [], w;
    WalkNone(cfg, w, p);
    ghost var before := store.View();
    var next := store.ReadNext(p, now);
    if next.Err? {
      ghost var any := SomethingIsNext(before);
      ReadRefused(cfg, w, p, now, any);
      w' := WalkGoes(cfg, w, steps, w, Read(p, now, any, false), p, before, Ready);
      if Released(cfg, before, e, c, progress, due) { ReleasedCanBeRead(cfg, before, e, c, progress, due); }
      return None, true, steps + [Read(p, now, any, false)], w';
    }
    if Released(cfg, before, e, c, progress, due) {
      ReadingYields(cfg, before, e, c, progress, due, next.value, p, now);
    }
    ReadGoes(cfg, w, p, now, next.value);
    if next.value.Some? {
      held := Decode(cfg, next.value.value, store.entries[next.value.value]);
    }
    ghost var pc := if next.value == None then Ready
                    else if held.Some? then Holding(held.value) else Unfit(next.value.value, "invalid_message", true);
    w' := WalkGoes(cfg, w, steps, w, Read(p, now, next.value, false), p, store.View(), pc);
    steps := steps + [Read(p, now, next.value, false)];
    if next.value.Some? && held == None {
      IsolateGoes(cfg, w', p, next.value.value, "invalid_message", true);
      var isolated := store.QuarantineMessage(next.value.value, "invalid_message");
      failed := isolated.Err?;
      w' := WalkGoes(cfg, w, steps, w', Isolate(p, false), p, store.View(), Ready);
      steps := steps + [Isolate(p, false)];
    }
  }

  /** `claim_stale_pending`, and `read_next` when that yields nothing. */
  method Acquire(cfg: Config, store: RedisEventStore, p: nat, now: int, minIdle: int,
                 ghost e: string, ghost c: Content, ghost progress: Progress, ghost due: int, ghost w: World)
    returns (held: Option<Held>, failed: bool, ghost steps: seq<Step>, ghost w': World)
    requires At(w, store.View(), p, Swept)
    modifies store
    ensures Released(cfg, old(store.View()), e, c, progress, due) ==>
              if progress.status == Queued
              then && !failed && held == Some(Held(Current(store.View(), e), e, c))
                   && InFlight(store.View(), e, c, progress.attempts)
              else !failed && held == None && store.View() == old(store.View())
    ensures Walk(cfg, w, steps) == Some(w') && By(steps, p) && w'.calls == w.calls
    ensures At(w', store.View(), p, Onward(held, failed, Ready))
  {
    assert Released(cfg, store.View(), e, c, progress, due) ==> NothingPends(store.View());
    hide Released, InFlight, Walk, NothingPends, Rests;
    held, failed, steps, w' := ClaimStale(cfg, store, p, now, minIdle, w);
    if !failed && held == None {
      ghost var more, mid := [], w';
      held, failed, more, w' := ReadFresh(cfg, store, p, now, e, c, progress, due, mid);
      WalkOn(cfg, w, steps, mid, more);
      steps := steps + more;
    }
  }

  // ---------------------------------------------------------------- run_once

  /** A lone event whose retry, if any, is due, and a worker with both policies. */
  predicate Ripe(cfg: Config, s: Store, e: string, c: Content, progress: Progress, due: int, p: nat, maximum: int,
                 now: int)
  {
    && Rests(s, e, c, progress, due) && due <= now && cfg.decodes(Encode(e, c))
    && cfg.policy(p) == Policy(Some(maximum), true)
  }

  /** The progress a due event shows once it is released. */
  function Freed(progress: Progress): Progress {
    if Terminal(progress.status) then progress else Progress(Queued, progress.attempts)
  }

  /** `ensure_consumer_group` and `release_due_retry`. */
  method Prepare(cfg: Config, store: RedisEventStore, p: nat, now: int, clock: nat,
                 ghost e: string, ghost c: Content, ghost progress: Progress, ghost due: int, ghost maximum: int,
                 ghost w: World)
    returns (failed: bool, ghost steps: seq<Step>, ghost w': World)
    requires At(w, store.View(), p, Ready)
    modifies store
    ensures Ripe(cfg, old(store.View()), e, c, progress, due, p, maximum, now) ==>
              !failed && Released(cfg, store.View(), e, c, Freed(progress), due)
    ensures Walk(cfg, w, steps) == Some(w') && By(steps, p) && w'.calls == w.calls
    ensures At(w', store.View(), p, if failed then Ready else Swept)
  {
    ghost var before := store.View();
    ghost var ripe := Ripe(cfg, before, e, c, progress, due, p, maximum, now);
    hide Walk, Goes, By, Rests, EnsureGroup, ReleaseDueRetry;
    if ripe { GroupIsMade(before, e, c, progress, due); }
    EnsureGoes(cfg, w, p);
    WalkNone(cfg, w, p);
    var group := store.EnsureConsumerGroup();
    w' := WalkGoes(cfg, w, [], w, Ensure(p, false), p, store.View(), if group.Err? then Ready else Grouped);
    steps := [] + [Ensure(p, false)];
    if group.Err? {
      return true, steps, w';
    }
    ghost var grouped := store.View();
    var released, first := store.ReleaseDue(now, clock);
    if ripe { RetryIsReleased(grouped, e, c, progress, due, now, first, clock); }
    ReleaseGoes(cfg, w', p, now, first, clock);
    failed := released.Err?;
    w' := WalkGoes(cfg, w, steps, w', Release(p, now, first, clock, false), p, store.View(),
                   if failed then Ready else Swept);
    steps := steps + [Release(p, now, first, clock, false)];
  }

  /** One run has done for the event what the fold makes of the sink's answer, and answers accordingly. */
  predicate Ran(s: Store, result: WorkerResult, called: bool, e: string, c: Content, progress: Progress, maximum: int,
                response: Response, nextDue: int)
  {
    var next := Next(RedisClassify, maximum, progress, response);
    && Rests(s, e, c, next, nextDue)
    && (called <==> !Terminal(progress.status))
    && if Terminal(progress.status) then result == NoMessage else Tells(result, next.status)
  }

  lemma EndedRan(cfg: Config, s: Store, e: string, c: Content, progress: Progress, due: int, maximum: int,
                 response: Response, nextDue: int)
    requires Released(cfg, s, e, c, Freed(progress), due) && Freed(progress).status != Queued
    ensures Ran(s, NoMessage, false, e, c, progress, maximum, response, nextDue)
  {
  }

  lemma RipeRan(cfg: Config, before: Store, s: Store, e: string, c: Content, progress: Progress, due: int, p: nat,
                maximum: int, now: int, response: Response, nextDue: int)
    requires Ripe(cfg, before, e, c, progress, due, p, maximum, now) && !Terminal(progress.status)
    requires InFlight(s, e, c, progress.attempts)
    ensures var (s', result, called) := Attempted(cfg, s, p, Held(Current(s, e), e, c), response, nextDue);
            Ran(s', result, called, e, c, progress, maximum, response, nextDue)
  {
    AttemptFollowsFold(cfg, s, e, c, progress.attempts, progress.status, p, maximum, response, nextDue);
    hide InFlight, Attempted, Tells;
  }

  /**
   `run_once`. The ghost parameters name a lone event; if there is one, the run makes of the sink's answer what
   the fold makes of it, calls the sink exactly when the event had not ended, and answers what it did. Whatever the
   keyspace holds, the run is a series of this worker's own steps in the state machine, from any world `w` with that
   keyspace, and adds at most one sink call.
   */
  method RunOnce(cfg: Config, store: RedisEventStore, p: nat, now: int, minIdle: int, clock: nat, response: Response,
                 nextDue: int,
                 ghost e: string, ghost c: Content, ghost progress: Progress, ghost due: int, ghost maximum: int,
                 ghost w: World)
    returns (result: WorkerResult, called: bool, ghost steps: seq<Step>, ghost w': World)
    requires At(w, store.View(), p, Ready)
    modifies store
    ensures Ripe(cfg, old(store.View()), e, c, progress, due, p, maximum, now) ==>
              Ran(store.View(), result, called, e, c, progress, maximum, response, nextDue)
    ensures Walk(cfg, w, steps) == Some(w') && By(steps, p) && At(w', store.View(), p, Ready)
    ensures if called then exists call :: w'.calls == w.calls + [call] else w'.calls == w.calls
  {
    ghost var before := store.View();
    ghost var ripe := Ripe(cfg, before, e, c, progress, due, p, maximum, now);
    hide Ripe, Released, Ran, InFlight, Walk, By, Attempted, AttemptSteps;
    var failed;
    failed, steps, w' := Prepare(cfg, store, p, now, clock, e, c, progress, due, maximum, w);
    if failed {
      return Failed, false, steps, w';
    }
    ghost var more, mid := [], w';
    var held;
    held, failed, more, w' := Acquire(cfg, store, p, now, minIdle, e, c, Freed(progress), due, mid);
    WalkOn(cfg, w, steps, mid, more);
    steps := steps + more;
    if failed {
      return Failed, false, steps, w';
    }
    if held == None {
      if ripe { EndedRan(cfg, store.View(), e, c, progress, due, maximum, response, nextDue); }
      return NoMessage, false, steps, w';
    }
    if ripe {
      RipeRan(cfg, before, store.View(), e, c, progress, due, p, maximum, now, response, nextDue);
    }
    mid := w';
    w' := AttemptIsWalk(cfg, mid, p, held.value, response, nextDue);
    more := AttemptSteps(cfg, mid.store, p, held.value, response, nextDue);
    WalkOn(cfg, w, steps, mid, more);
    steps := steps + more;
    result, called := Attempt(cfg, store, p, held.value, response, nextDue);
  }

  // ---------------------------------------------------------------- from acceptance on

  /**
   A lone event from acceptance through a list of sink answers, one `run_once` each, the clock past every due time.
   `trace` is what a status request shows before the first and after each run.
   */
  method RunAll(cfg: Config, p: nat, maximum: int, e: string, c: Content, responses: seq<Response>,
                delay: nat -> nat, gap: nat -> nat, minIdle: int, clock: nat -> nat)
    returns (trace: seq<Progress>, called: seq<bool>)
    requires IsUuid(e) && cfg.decodes(Encode(e, c)) && cfg.policy(p) == Policy(Some(maximum), true)
    ensures |called| == |responses| && Follows(RedisClassify, maximum, responses, trace, called)
  {
    hide Rests, Ripe, Ran, InFlight, Enqueue, After, Follows;
    var store := new RedisEventStore();
    AcceptedRests(e, c, clock(0));
    var accepted := store.EnqueueEvent(e, c, clock(0));
    var now := 0;
    ghost var due := 0;
    trace, called := [Progress(Queued, 0)], [];
    FollowsFromStart(RedisClassify, maximum, responses);
    for i := 0 to |responses|
      invariant |called| == i && |trace| == i + 1 && Follows(RedisClassify, maximum, responses, trace, called)
      invariant Rests(store.View(), e, c, trace[i], due) && due <= now
    {
      var nextDue := now + delay(i);
      RestsIsRipe(cfg, store.View(), e, c, trace[i], due, p, maximum, now);
      var result, call, steps, w' := RunOnce(cfg, store, p, now, minIdle, clock(i + 1), responses[i], nextDue,
                                             e, c, trace[i], due, maximum, START.(store := store.View()));
      RanShows(store.View(), result, call, e, c, trace[i], maximum, responses[i], nextDue);
      var h := store.statuses[e];
      var next := Progress(h.status.value, h.attempts.n);
      FollowsMore(RedisClassify, maximum, responses, trace, called, next, call);
      trace, called := trace + [next], called + [call];
      now, due := nextDue + gap(i), nextDue;
    }
  }

  lemma AcceptedRests(e: string, c: Content, clock: nat)
    requires IsUuid(e)
    ensures Rests(Enqueue(EMPTY_STORE, e, c, clock).0, e, c, Progress(Queued, 0), 0)
  {
  }

  lemma RestsIsRipe(cfg: Config, s: Store, e: string, c: Content, progress: Progress, due: int, p: nat, maximum: int,
                    now: int)
    requires Rests(s, e, c, progress, due) && due <= now && cfg.decodes(Encode(e, c))
    requires cfg.policy(p) == Policy(Some(maximum), true)
    ensures Ripe(cfg, s, e, c, progress, due, p, maximum, now)
  {
  }

  lemma RanShows(s: Store, result: WorkerResult, called: bool, e: string, c: Content, progress: Progress, maximum: int,
                 response: Response, nextDue: int)
    requires Ran(s, result, called, e, c, progress, maximum, response, nextDue)
    ensures var next := Next(RedisClassify, maximum, progress, response);
            && e in s.statuses && s.statuses[e].status == Some(next.status)
            && s.statuses[e].attempts == Number(next.attempts)
            && Rests(s, e, c, next, nextDue) && (called <==> !Terminal(progress.status))
  {
  }
}
