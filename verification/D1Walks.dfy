/**
 `process` and `repair` as their own steps in the state machine: from any world with the same tables, one process taking
 its steps with nobody in between leaves the tables, the answer and the sink call that the methods have.
 */
module D1Walks {
  import opened Options
  import opened DeliveryPolicy
  import opened Chunker
  import opened D1Store
  import opened D1World
  import D1Statements
  import D1Services

  // ---------------------------------------------------------------- series of steps

  /** The world after these steps; None when one of them is not enabled. */
  ghost function Walk(cfg: Config, w: World, steps: seq<Step>): Option<World> {
    if steps == [] then Some(w)
    else
      match Walk(cfg, w, steps[..|steps| - 1])
      case None => None
      case Some(mid) =>
        var step := steps[|steps| - 1];
        if Enabled(mid, step) then Some(Apply(cfg, mid, step)) else None
  }

  /** All steps are process `p`'s own. */
  ghost predicate By(steps: seq<Step>, p: nat) { forall i :: 0 <= i < |steps| ==> steps[i].p == p }

  /** A step of `p` that leads to these tables and this position, without a sink call or a message. */
  ghost predicate Goes(cfg: Config, w: World, step: Step, p: nat, d: D1, pc: Pc) {
    && Enabled(w, step) && step.p == p && Apply(cfg, w, step).db == d && PcOf(Apply(cfg, w, step), p) == pc
    && Apply(cfg, w, step).calls == w.calls && Apply(cfg, w, step).messages == w.messages
    && Apply(cfg, w, step).tours == w.tours
  }

  lemma WalkGoes(cfg: Config, w: World, steps: seq<Step>, mid: World, step: Step, p: nat, d: D1, pc: Pc)
    returns (w': World)
    requires Walk(cfg, w, steps) == Some(mid) && By(steps, p) && Goes(cfg, mid, step, p, d, pc)
    ensures Walk(cfg, w, steps + [step]) == Some(w') && By(steps + [step], p)
    ensures w'.db == d && PcOf(w', p) == pc
    ensures w'.calls == mid.calls && w'.messages == mid.messages && w'.tours == mid.tours
  {
    w' := Apply(cfg, mid, step);
    hide Apply, Enabled;
    assert (steps + [step])[..|steps|] == steps;
  }

  lemma WalkMore(cfg: Config, w: World, steps: seq<Step>, mid: World, step: Step, p: nat)
    requires Walk(cfg, w, steps) == Some(mid) && By(steps, p) && Enabled(mid, step) && step.p == p
    ensures Walk(cfg, w, steps + [step]) == Some(Apply(cfg, mid, step)) && By(steps + [step], p)
  {
    hide Apply, Enabled;
    assert (steps + [step])[..|steps|] == steps;
  }

  lemma WalkNone(cfg: Config, w: World, p: nat)
    ensures Walk(cfg, w, []) == Some(w) && By([], p)
  {
  }

  // ---------------------------------------------------------------- the consumer's steps

  lemma BeginGoes(cfg: Config, w: World, p: nat, m: nat, now: int)
    requires PcOf(w, p) == Took(m)
    ensures var (d, row) := ClaimAttempt(w.db, EventOf(w, m), w.tokens, now, cfg.maximum(p));
            Goes(cfg, w, Begin(p, now, true, false), p, d,
                 if row == None then Missed(m)
                 else Begun(Attempt(m, w.tokens, row.value.attempts, row.value.eventType)))
  {
    assert ClaimAttempt(w.db, EventOf(w, m), w.tokens, now, cfg.maximum(p)).1 == None ==>
        ClaimAttempt(w.db, EventOf(w, m), w.tokens, now, cfg.maximum(p)).0 == w.db;
    hide ClaimAttempt;
  }

  lemma LoadGoes(cfg: Config, w: World, p: nat, a: Attempt)
    requires PcOf(w, p) == Begun(a)
    ensures var payload := LoadedPayload(w, EventOf(w, a.m));
            Goes(cfg, w, Load(p, false), p, w.db, if payload == None then Idle else Loaded(a, payload.value))
  {
    hide LoadedPayload;
  }

  lemma SnapshotGoes(cfg: Config, w: World, p: nat, m: nat)
    requires PcOf(w, p) == Missed(m)
    ensures Goes(cfg, w, Snapshot(p, false), p, w.db, AfterSnapshot(cfg, w, p, m))
  {
    hide AfterSnapshot;
  }

  lemma ExhaustGoes(cfg: Config, w: World, p: nat, m: nat, seen: nat)
    requires PcOf(w, p) == Spent(m, seen)
    ensures var (d, changed) := BuryExhausted(w.db, EventOf(w, m), cfg.maximum(p));
            Goes(cfg, w, Exhaust(p, true, false), p, d,
                 if changed then Answer(m, true, DeadLetter, seen) else Rechecking(m))
  {
    hide BuryExhausted;
  }

  lemma CallSends(cfg: Config, w: World, steps: seq<Step>, mid: World, p: nat, a: Attempt, payload: Bytes,
                  response: Response)
    returns (w': World)
    requires Walk(cfg, w, steps) == Some(mid) && By(steps, p) && PcOf(mid, p) == Loaded(a, payload)
    ensures Walk(cfg, w, steps + [CallSink(p, response)]) == Some(w') && By(steps + [CallSink(p, response)], p)
    ensures w'.db == mid.db && w'.messages == mid.messages
    ensures PcOf(w', p) == Concluding(a, Outcome(response, a.number, cfg.maximum(p)))
    ensures w'.calls == mid.calls + [SinkCall(EventOf(mid, a.m), a.eventType, payload)]
  {
    w' := Apply(cfg, mid, CallSink(p, response));
    hide Outcome;
    assert (steps + [CallSink(p, response)])[..|steps|] == steps;
  }

  lemma ConcludeGoes(cfg: Config, w: World, p: nat, a: Attempt, outcome: EventStatus)
    requires PcOf(w, p) == Concluding(a, outcome)
    ensures var (d, moved) := Transition(w.db, EventOf(w, a.m), outcome, a.token);
            Goes(cfg, w, Conclude(p, true, false), p, d,
                 if moved then Answer(a.m, Terminal(outcome), outcome, a.number) else Stale(a.m))
  {
    hide Transition;
  }

  // ---------------------------------------------------------------- process

  /** Where a consumer stands with its answer; an exception ends it without one. */
  function Standing(m: nat, result: D1Services.Result): Pc {
    match result
    case Ack(status, attempts) => Answer(m, true, status, attempts)
    case Retry(status, attempts) => Answer(m, false, status, attempts)
    case Raised => Idle
  }

  /** The world shows this outcome of one `process` on the event of message `m`. */
  predicate Shows(w: World, w': World, p: nat, m: nat, d: D1, result: D1Services.Result, called: Option<Request>) {
    && w'.db == d && PcOf(w', p) == Standing(m, result)
    && w'.calls == w.calls + (if called == None then []
                              else [SinkCall(EventOf(w, m), called.value.eventType, called.value.payload)])
  }

  /** A consumer that has taken message `m` and is left alone does what `process` does on the message's event. */
  lemma ProcessIsWalk(cfg: Config, w: World, p: nat, m: nat, now: int, response: Response)
    returns (steps: seq<Step>, w': World)
    requires PcOf(w, p) == Took(m)
    ensures Walk(cfg, w, steps) == Some(w') && By(steps, p)
    ensures var (d, result, called) :=
              D1Services.Processed(w.db, EventOf(w, m), w.tokens, now, cfg.maximum(p), response);
            Shows(w, w', p, m, d, result, called)
  {
    var e, maximum := EventOf(w, m), cfg.maximum(p);
    var (d1, row) := ClaimAttempt(w.db, e, w.tokens, now, maximum);
    if row.Some? {
      steps, w' := StartedIsWalk(cfg, w, p, m, now, response);
    } else {
      steps, w' := MissedIsWalk(cfg, w, p, m, now, response);
    }
  }

  lemma StartedIsWalk(cfg: Config, w: World, p: nat, m: nat, now: int, response: Response)
    returns (steps: seq<Step>, w': World)
    requires PcOf(w, p) == Took(m)
    requires ClaimAttempt(w.db, EventOf(w, m), w.tokens, now, cfg.maximum(p)).1.Some?
    ensures Walk(cfg, w, steps) == Some(w') && By(steps, p)
    ensures var (d, result, called) :=
              D1Services.Processed(w.db, EventOf(w, m), w.tokens, now, cfg.maximum(p), response);
            Shows(w, w', p, m, d, result, called)
  {
    var e, maximum := EventOf(w, m), cfg.maximum(p);
    var (d1, row) := ClaimAttempt(w.db, e, w.tokens, now, maximum);
    StartedIsProcessed(w.db, e, w.tokens, now, maximum, response);
    hide Walk, By, ClaimAttempt, LoadPayload, Transition, CloudflareClassify, Outcome, D1Services.Processed;
    var a := Attempt(m, w.tokens, row.value.attempts, row.value.eventType);
    var payload := LoadPayload(d1, e, row.value.legacyPayload);
    steps, w' := LoadIsWalk(cfg, w, p, m, now);
    if payload.Some? {
      steps, w' := LoadedIsWalk(cfg, w, p, steps, w', a, payload.value, response);
    }
  }

  /** The claim and the payload's loading. */
  lemma LoadIsWalk(cfg: Config, w: World, p: nat, m: nat, now: int) returns (steps: seq<Step>, w': World)
    requires PcOf(w, p) == Took(m)
    requires ClaimAttempt(w.db, EventOf(w, m), w.tokens, now, cfg.maximum(p)).1.Some?
    ensures Walk(cfg, w, steps) == Some(w') && By(steps, p)
    ensures var (d1, row) := ClaimAttempt(w.db, EventOf(w, m), w.tokens, now, cfg.maximum(p));
            var payload := LoadPayload(d1, EventOf(w, m), row.value.legacyPayload);
            && w'.db == d1 && w'.calls == w.calls && w'.messages == w.messages
            && PcOf(w', p) == if payload == None then Idle
                              else Loaded(Attempt(m, w.tokens, row.value.attempts, row.value.eventType), payload.value)
  {
    var e := EventOf(w, m);
    var (d1, row) := ClaimAttempt(w.db, e, w.tokens, now, cfg.maximum(p));
    ClaimedRowIsThere(w.db, e, w.tokens, now, cfg.maximum(p));
    hide Walk, Goes, By, ClaimAttempt, LoadPayload;
    WalkNone(cfg, w, p);
    BeginGoes(cfg, w, p, m, now);
    var a := Attempt(m, w.tokens, row.value.attempts, row.value.eventType);
    w' := WalkGoes(cfg, w, [], w, Begin(p, now, true, false), p, d1, Begun(a));
    steps := [] + [Begin(p, now, true, false)];
    var payload := LoadPayload(d1, e, row.value.legacyPayload);
    assert LoadedPayload(w', e) == payload;
    LoadGoes(cfg, w', p, a);
    w' := WalkGoes(cfg, w, steps, w', Load(p, false), p, d1,
                   if payload == None then Idle else Loaded(a, payload.value));
    steps := steps + [Load(p, false)];
  }

  /** From the sink call to the conclusion, when the transition finds the row. */
  lemma LoadedIsWalk(cfg: Config, w: World, p: nat, steps: seq<Step>, mid: World, a: Attempt, payload: Bytes,
                     response: Response)
    returns (more: seq<Step>, w': World)
    requires Walk(cfg, w, steps) == Some(mid) && By(steps, p) && PcOf(mid, p) == Loaded(a, payload)
    requires Transition(mid.db, EventOf(mid, a.m), Outcome(response, a.number, cfg.maximum(p)), a.token).1
    ensures Walk(cfg, w, more) == Some(w') && By(more, p)
    ensures var outcome := Outcome(response, a.number, cfg.maximum(p));
            && w'.db == Transition(mid.db, EventOf(mid, a.m), outcome, a.token).0
            && PcOf(w', p) == Answer(a.m, Terminal(outcome), outcome, a.number)
    ensures w'.calls == mid.calls + [SinkCall(EventOf(mid, a.m), a.eventType, payload)]
  {
    hide Walk, Goes, By, Transition, Outcome;
    w' := CallSends(cfg, w, steps, mid, p, a, payload, response);
    more := steps + [CallSink(p, response)];
    var outcome := Outcome(response, a.number, cfg.maximum(p));
    ConcludeGoes(cfg, w', p, a, outcome);
    w' := WalkGoes(cfg, w, more, w', Conclude(p, true, false), p,
                   Transition(mid.db, EventOf(mid, a.m), outcome, a.token).0,
                   Answer(a.m, Terminal(outcome), outcome, a.number));
    more := more + [Conclude(p, true, false)];
  }

  /** With nobody in between, the transition cannot miss the row that the claim has just taken. */
  lemma StartedIsProcessed(d: D1, e: string, token: nat, now: int, maximum: int, response: Response)
    requires ClaimAttempt(d, e, token, now, maximum).1.Some?
    ensures var (d1, row) := ClaimAttempt(d, e, token, now, maximum);
            var payload := LoadPayload(d1, e, row.value.legacyPayload);
            var (d', result, called) := D1Services.Processed(d, e, token, now, maximum, response);
            if payload == None then d' == d1 && result == D1Services.Raised && called == None
            else
              var outcome := Outcome(response, row.value.attempts, maximum);
              var (d2, moved) := Transition(d1, e, outcome, token);
              && moved && d' == d2 && called == Some(Request(row.value.eventType, payload.value))
              && result == (if Terminal(outcome) then D1Services.Ack(outcome, row.value.attempts)
                            else D1Services.Retry(outcome, row.value.attempts))
  {
  }

  lemma ClaimedRowIsThere(d: D1, e: string, token: nat, now: int, maximum: int)
    requires ClaimAttempt(d, e, token, now, maximum).1.Some?
    ensures var (d1, row) := ClaimAttempt(d, e, token, now, maximum); e in d1.events && d1.events[e] == row.value
  {
  }

  lemma MissedIsWalk(cfg: Config, w: World, p: nat, m: nat, now: int, response: Response)
    returns (steps: seq<Step>, w': World)
    requires PcOf(w, p) == Took(m)
    requires ClaimAttempt(w.db, EventOf(w, m), w.tokens, now, cfg.maximum(p)).1 == None
    ensures Walk(cfg, w, steps) == Some(w') && By(steps, p)
    ensures var (d, result, called) :=
              D1Services.Processed(w.db, EventOf(w, m), w.tokens, now, cfg.maximum(p), response);
            Shows(w, w', p, m, d, result, called)
  {
    var e, maximum := EventOf(w, m), cfg.maximum(p);
    assert ClaimAttempt(w.db, e, w.tokens, now, maximum).0 == w.db;
    MissedIsProcessed(w.db, e, w.tokens, now, maximum, response);
    hide Walk, Goes, By, ClaimAttempt, LoadPayload, D1Services.Processed;
    WalkNone(cfg, w, p);
    BeginGoes(cfg, w, p, m, now);
    w' := WalkGoes(cfg, w, [], w, Begin(p, now, true, false), p, w.db, Missed(m));
    steps := [] + [Begin(p, now, true, false)];
    SnapshotGoes(cfg, w', p, m);
    var after := AfterSnapshot(cfg, w', p, m);
    w' := WalkGoes(cfg, w, steps, w', Snapshot(p, false), p, w.db, after);
    steps := steps + [Snapshot(p, false)];
    if after.Spent? {
      ExhaustGoes(cfg, w', p, m, after.seen);
      w' := WalkGoes(cfg, w, steps, w', Exhaust(p, true, false), p, BuryExhausted(w.db, e, maximum).0,
                     Answer(m, true, DeadLetter, after.seen));
      steps := steps + [Exhaust(p, true, false)];
    }
  }

  lemma MissedIsProcessed(d: D1, e: string, token: nat, now: int, maximum: int, response: Response)
    requires ClaimAttempt(d, e, token, now, maximum).1 == None
    ensures var (d', result, called) := D1Services.Processed(d, e, token, now, maximum, response);
            && called == None
            && if e !in d.events then d' == d && result == D1Services.Raised
               else
                 var row := d.events[e];
                 if Terminal(row.status) then d' == d && result == D1Services.Ack(row.status, row.attempts)
                 else if row.status == Delivering then d' == d && result == D1Services.Retry(Delivering, row.attempts)
                 else if row.attempts >= maximum
                 then BuryExhausted(d, e, maximum) == (d', true) && result == D1Services.Ack(DeadLetter, row.attempts)
                 else d' == d && result == D1Services.Raised
  {
  }

  // ---------------------------------------------------------------- ingress

  /** An acceptance that is left alone does what the method `AcceptAndSend` does. */
  lemma AcceptIsWalk(cfg: Config, w: World, p: nat, e: string, request: Request, key: Option<string>, now: int,
                     sent: bool)
    returns (steps: seq<Step>, w': World)
    requires PcOf(w, p) == Idle && e !in w.db.events && request.payload != []
    ensures Walk(cfg, w, steps) == Some(w') && By(steps, p) && PcOf(w', p) == Idle && w'.calls == w.calls
    ensures var pieces := Split(request.payload, 1500000);
            if pieces == None then w' == w
            else
              var (d, row) := AcceptBatch(w.db, e, request.eventType, pieces.value, key, cfg.digest(request), now);
              var isNew := D1Services.IsNew(D1Services.Answered(row, e, key, cfg.digest(request)));
              && w'.db == (if isNew && sent then MarkDispatched(d, e, None, now).0 else d)
              && w'.messages == (if isNew && sent then w.messages + [e] else w.messages)
              && w'.accepted == (if isNew then w.accepted[e := request] else w.accepted)
  {
    hide Walk, AcceptBatch, Split, MarkDispatched;
    WalkNone(cfg, w, p);
    var accept := Accept(p, e, request, key, now, false);
    WalkMore(cfg, w, [], w, accept, p);
    steps, w' := [] + [accept], Apply(cfg, w, accept);
    if PcOf(w', p) == Sending(e) {
      WalkMore(cfg, w, steps, w', Send(p, sent, !sent), p);
      steps, w' := steps + [Send(p, sent, !sent)], Apply(cfg, w', Send(p, sent, !sent));
      if sent {
        WalkMore(cfg, w, steps, w', Mark(p, now, true, false), p);
        steps, w' := steps + [Mark(p, now, true, false)], Apply(cfg, w', Mark(p, now, true, false));
      }
    }
  }

  // ---------------------------------------------------------------- repair

  lemma StartTourGoes(cfg: Config, w: World, p: nat, order: seq<string>, limit: nat, now: int)
    requires PcOf(w, p) == Idle && Picks(w.db, now, limit, Elements(order)) && Lists(order, Elements(order))
    ensures Goes(cfg, w, StartTour(p, Elements(order), order, limit, now, false), p,
                 ClaimOutbox(w.db, Elements(order), w.tokens, now + 30000, now),
                 Touring(Tour(w.tokens, order, 0, 0, |order|)))
  {
    hide Picks, ClaimOutbox;
  }

  /** One row of the repair: the queue takes the message and the row is marked, or it does not and the row is freed. */
  lemma RowIsWalk(cfg: Config, w: World, steps: seq<Step>, mid: World, p: nat, tour: Tour, now: int, sent: bool)
    returns (more: seq<Step>, w': World)
    requires Walk(cfg, w, steps) == Some(mid) && By(steps, p) && PcOf(mid, p) == Touring(tour) && tour.todo != []
    requires Dispatchable(mid.db, tour.todo[0], Some(tour.token))
    ensures Walk(cfg, w, more) == Some(w') && By(more, p) && PcOf(w', p) == Touring(D1World.Next(tour, sent))
    ensures w'.db == if sent then MarkDispatched(mid.db, tour.todo[0], Some(tour.token), now).0
                     else ReleaseClaim(mid.db, tour.todo[0], tour.token, now)
    ensures w'.messages == mid.messages + (if sent then [tour.todo[0]] else []) && w'.calls == mid.calls
    ensures w'.tours == mid.tours
  {
    var send := TourSend(p, sent, !sent);
    var w1 := Apply(cfg, mid, send);
    assert Enabled(mid, send) && w1.db == mid.db && w1.calls == mid.calls && w1.tours == mid.tours;
    assert PcOf(w1, p) == if sent then TourMarking(tour) else TourFreeing(tour);
    assert (steps + [send])[..|steps|] == steps;
    assert Walk(cfg, w, steps + [send]) == Some(w1) && By(steps + [send], p);
    var last := if sent then TourMark(p, now, true, false) else TourFree(p, now, true);
    RowEndGoes(cfg, w1, p, tour, now, sent);
    hide Walk, Apply, Enabled, MarkDispatched, ReleaseClaim, By, Goes;
    w' := WalkGoes(cfg, w, steps + [send], w1, last, p,
                   if sent then MarkDispatched(mid.db, tour.todo[0], Some(tour.token), now).0
                   else ReleaseClaim(mid.db, tour.todo[0], tour.token, now),
                   Touring(D1World.Next(tour, sent)));
    more := steps + [send] + [last];
  }

  lemma RowEndGoes(cfg: Config, w: World, p: nat, tour: Tour, now: int, sent: bool)
    requires tour.todo != [] && PcOf(w, p) == if sent then TourMarking(tour) else TourFreeing(tour)
    requires Dispatchable(w.db, tour.todo[0], Some(tour.token))
    ensures Goes(cfg, w, if sent then TourMark(p, now, true, false) else TourFree(p, now, true), p,
                 if sent then MarkDispatched(w.db, tour.todo[0], Some(tour.token), now).0
                 else ReleaseClaim(w.db, tour.todo[0], tour.token, now),
                 Touring(D1World.Next(tour, sent)))
  {
  }

  /** The messages that the queue takes for the first `n` rows. */
  function Posted(order: seq<string>, n: nat, sends: string -> bool): seq<string>
    requires n <= |order|
  {
    if n == 0 then [] else Posted(order, n - 1, sends) + (if sends(order[n - 1]) then [order[n - 1]] else [])
  }

  /** A repair after `n` of its rows. */
  ghost predicate Repairing(w: World, mid: World, p: nat, order: seq<string>, n: nat, now: int, sends: string -> bool)
    requires n <= |order|
  {
    && D1Services.RepairedUpTo(w.db, mid.db, order, n, w.tokens, now + 30000, now, sends)
    && PcOf(mid, p) == Touring(Tour(w.tokens, order[n..], D1Services.Taken(order, n, sends),
                                    n - D1Services.Taken(order, n, sends), |order|))
    && mid.messages == w.messages + Posted(order, n, sends) && mid.calls == w.calls && mid.tours == w.tours
  }

  lemma {:induction false} RowsAreWalk(cfg: Config, w: World, p: nat, order: seq<string>, n: nat, limit: nat, now: int,
                                       sends: string -> bool)
    returns (steps: seq<Step>, mid: World)
    requires PcOf(w, p) == Idle && Picks(w.db, now, limit, Elements(order)) && Lists(order, Elements(order))
    requires n <= |order|
    ensures Walk(cfg, w, steps) == Some(mid) && By(steps, p) && Repairing(w, mid, p, order, n, now, sends)
  {
    hide Picks, Lists, Walk, By, Repairing;
    if n == 0 {
      steps, mid := TourIsStarted(cfg, w, p, order, limit, now, sends);
    } else {
      steps, mid := RowsAreWalk(cfg, w, p, order, n - 1, limit, now, sends);
      D1Services.ClaimedIsStart(w.db, order, limit, w.tokens, 30000, now, sends);
      steps, mid := NextRowIsWalk(cfg, w, p, order, n - 1, now, sends, steps, mid);
    }
  }

  lemma TourIsStarted(cfg: Config, w: World, p: nat, order: seq<string>, limit: nat, now: int, sends: string -> bool)
    returns (steps: seq<Step>, mid: World)
    requires PcOf(w, p) == Idle && Picks(w.db, now, limit, Elements(order)) && Lists(order, Elements(order))
    ensures Walk(cfg, w, steps) == Some(mid) && By(steps, p) && Repairing(w, mid, p, order, 0, now, sends)
  {
    D1Services.ClaimedIsStart(w.db, order, limit, w.tokens, 30000, now, sends);
    StartTourGoes(cfg, w, p, order, limit, now);
    WalkNone(cfg, w, p);
    hide Walk, Goes, By, Picks, Lists, ClaimOutbox, Enabled, Apply, D1Services.RepairedUpTo, Elements;
    mid := WalkGoes(cfg, w, [], w, StartTour(p, Elements(order), order, limit, now, false), p,
                    ClaimOutbox(w.db, Elements(order), w.tokens, now + 30000, now),
                    Touring(Tour(w.tokens, order, 0, 0, |order|)));
    steps := [] + [StartTour(p, Elements(order), order, limit, now, false)];
  }

  lemma NextRowIsWalk(cfg: Config, w: World, p: nat, order: seq<string>, n: nat, now: int, sends: string -> bool,
                      steps: seq<Step>, mid: World)
    returns (more: seq<Step>, next: World)
    requires n < |order| && order[n] in w.db.outbox
    requires forall j, k :: 0 <= j < k < |order| ==> order[j] != order[k]
    requires Walk(cfg, w, steps) == Some(mid) && By(steps, p) && Repairing(w, mid, p, order, n, now, sends)
    ensures Walk(cfg, w, more) == Some(next) && By(more, p) && Repairing(w, next, p, order, n + 1, now, sends)
  {
    hide Walk, By, MarkDispatched, ReleaseClaim, D1Services.RepairedUpTo, Dispatchable;
    D1Services.RowRepaired(w.db, mid.db, order, n, w.tokens, now + 30000, now, sends);
    assert order[n..][1..] == order[n + 1..];
    more, next := RowIsWalk(cfg, w, steps, mid, p, PcOf(mid, p).tour, now, sends(order[n]));
  }

  /**
   A repair that is left alone does what the method `Repair` does: the rows it ends with and its two counters are the
   same, and the queue has got exactly the messages it took.
   */
  lemma RepairIsWalk(cfg: Config, w: World, p: nat, order: seq<string>, limit: nat, now: int, sends: string -> bool)
    returns (steps: seq<Step>, w': World)
    requires PcOf(w, p) == Idle && Picks(w.db, now, limit, Elements(order)) && Lists(order, Elements(order))
    ensures Walk(cfg, w, steps) == Some(w') && By(steps, p) && PcOf(w', p) == Idle
    ensures D1Services.RepairedUpTo(w.db, w'.db, order, |order|, w.tokens, now + 30000, now, sends)
    ensures var taken := D1Services.Taken(order, |order|, sends);
            w'.tours == w.tours + [TourReport(taken, |order| - taken, |order|)]
    ensures w'.messages == w.messages + Posted(order, |order|, sends) && w'.calls == w.calls
  {
    hide Walk, By, Picks, Lists, D1Services.RepairedUpTo, Enabled, Apply, Elements;
    var before, mid;
    before, mid := RowsAreWalk(cfg, w, p, order, |order|, limit, now, sends);
    EndTourEnds(cfg, mid, p, PcOf(mid, p).tour);
    WalkMore(cfg, w, before, mid, EndTour(p), p);
    steps, w' := before + [EndTour(p)], Apply(cfg, mid, EndTour(p));
  }

  lemma EndTourEnds(cfg: Config, w: World, p: nat, tour: Tour)
    requires PcOf(w, p) == Touring(tour) && tour.todo == []
    ensures Enabled(w, EndTour(p))
    ensures var w' := Apply(cfg, w, EndTour(p));
            && w'.db == w.db && PcOf(w', p) == Idle && w'.messages == w.messages && w'.calls == w.calls
            && w'.tours == w.tours + [TourReport(tour.repaired, tour.deferred, tour.claimed)]
  {
  }

  /** The repaired rows are determined by the claimed ones. */
  lemma RepairedIsUnique(before: D1, d: D1, d': D1, order: seq<string>, n: nat, token: nat, leaseUntil: int, now: int,
                         sends: string -> bool)
    requires n <= |order| && forall i :: 0 <= i < |order| ==> order[i] in before.outbox
    requires D1Services.RepairedUpTo(before, d, order, n, token, leaseUntil, now, sends)
    requires D1Services.RepairedUpTo(before, d', order, n, token, leaseUntil, now, sends)
    ensures d == d'
  {
    forall e | e in before.outbox ensures d.outbox[e] == d'.outbox[e] {
      if e in order {
        var i :| 0 <= i < |order| && order[i] == e;
      }
    }
    assert d.outbox == d'.outbox;
  }
}
