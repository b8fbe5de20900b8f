/**
 The Cloudflare backend as a state machine: ingress requests, scheduled repairs and queue consumers, any number
 of each, over one D1 database and one at-least-once queue. Each SQL statement or batch is one atomic step.
 Between any two steps a process may crash; a statement may take effect although its caller sees an error
 (`ran` and `lost`); a failed send may still have enqueued its message; the queue may deliver any message to
 anyone at any time. Clock readings are arbitrary arguments.
 */
module D1World {
  import opened Options
  import opened DeliveryPolicy
  import opened Chunker
  import opened D1Store

  /** Each process's maximum number of attempts; `digest` stands for SHA-256 over the canonical request. */
  datatype Config = Config(maximum: nat -> int, digest: Request -> string)

  /** `DeliveryService` refuses to be built with a maximum below one. */
  ghost predicate Proper(cfg: Config) { forall p {:trigger cfg.maximum(p)} :: cfg.maximum(p) >= 1 }

  const PAYLOAD_CHUNK_LIMIT_BYTES := 1500000

  /** A STARTED attempt, as `DeliveryStart` reports it to the consumer of message `m`. */
  datatype Attempt = Attempt(m: nat, token: nat, number: nat, eventType: string)

  /** A repair's progress: the rows still to do, and its two counters. `claimed` is what it claimed in all. */
  datatype Tour = Tour(token: nat, todo: seq<string>, repaired: nat, deferred: nat, claimed: nat)

  datatype Pc =
    | Idle
    // AcceptanceService.accept
    | Sending(e: string)
    | Marking(e: string)
    // AcceptanceService.repair
    | Touring(tour: Tour)
    | TourMarking(tour: Tour)
    | TourFreeing(tour: Tour)
    // D1EventStore.mark_delivery_started
    | Took(m: nat)
    | Missed(m: nat)
    | Spent(m: nat, seen: nat)
    | Rechecking(m: nat)
    | Begun(a: Attempt)
    // DeliveryService.process
    | Loaded(a: Attempt, payload: Bytes)
    | Concluding(a: Attempt, outcome: EventStatus)
    | Stale(m: nat)
    | Answer(m: nat, ack: bool, status: EventStatus, attempts: nat)

  predicate Holds(pc: Pc) { pc.Begun? || pc.Loaded? || pc.Concluding? }

  predicate Tours(pc: Pc) { pc.Touring? || pc.TourMarking? || pc.TourFreeing? }

  datatype TourReport = TourReport(repaired: nat, deferred: nat, claimed: nat)

  datatype SinkCall = SinkCall(e: string, eventType: string, payload: Bytes)

  /**
   Beside database, processes and queue, the history the guarantees speak about: what was accepted and which of
   it without a key, the token of each event's latest STARTED claim, the successful dispatch reports, the
   completed repairs, the sink calls and the events the sink accepted. `tokens` counts the tokens drawn so far.
   */
  datatype World = World(
    db: D1,
    pcs: map<nat, Pc>,
    messages: seq<string>,
    acked: set<nat>,
    tokens: nat,
    accepted: map<string, Request>,
    keyless: set<string>,
    latest: map<string, nat>,
    dispatched: seq<string>,
    tours: seq<TourReport>,
    calls: seq<SinkCall>,
    taken: set<string>)

  const START := World(EMPTY_DB, map[], [], {}, 0, map[], {}, map[], [], [], [], {})

  function PcOf(w: World, p: nat): Pc { if p in w.pcs then w.pcs[p] else Idle }

  function Goto(w: World, p: nat, pc: Pc): World { w.(pcs := w.pcs[p := pc]) }

  datatype Step =
    | Crash(p: nat)
    | Accept(p: nat, e: string, request: Request, key: Option<string>, now: int, lost: bool)
    | Send(p: nat, posted: bool, failed: bool)
    | Mark(p: nat, now: int, ran: bool, lost: bool)
    | StartTour(p: nat, picked: set<string>, order: seq<string>, limit: nat, now: int, lost: bool)
    | TourSend(p: nat, posted: bool, failed: bool)
    | TourMark(p: nat, now: int, ran: bool, lost: bool)
    | TourFree(p: nat, now: int, ran: bool)
    | EndTour(p: nat)
    | Consume(p: nat, m: nat)
    | Begin(p: nat, now: int, ran: bool, lost: bool)
    | Snapshot(p: nat, lost: bool)
    | Exhaust(p: nat, ran: bool, lost: bool)
    | Recheck(p: nat, lost: bool)
    | Load(p: nat, lost: bool)
    | CallSink(p: nat, response: Response)
    | Conclude(p: nat, ran: bool, lost: bool)
    | Reread(p: nat, lost: bool)
    | Settle(p: nat)

  /** Whether a step may be taken. Proposed event ids are fresh; the JSON text of a payload is never empty. */
  ghost predicate Enabled(w: World, step: Step) {
    var pc := PcOf(w, step.p);
    match step
    case Crash(p) => true
    case Accept(p, e, request, key, now, lost) => pc == Idle && e !in w.db.events && request.payload != []
    case Send(p, posted, failed) => pc.Sending? && (posted || failed)
    case Mark(p, now, ran, lost) => pc.Marking? && (ran || lost)
    case StartTour(p, picked, order, limit, now, lost) =>
      pc == Idle && Picks(w.db, now, limit, picked) && Lists(order, picked)
    case TourSend(p, posted, failed) => pc.Touring? && pc.tour.todo != [] && (posted || failed)
    case TourMark(p, now, ran, lost) => pc.TourMarking? && (ran || lost)
    case TourFree(p, now, ran) => pc.TourFreeing?
    case EndTour(p) => pc.Touring? && pc.tour.todo == []
    case Consume(p, m) => pc == Idle && m < |w.messages|
    case Begin(p, now, ran, lost) => pc.Took? && (ran || lost)
    case Snapshot(p, lost) => pc.Missed?
    case Exhaust(p, ran, lost) => pc.Spent? && (ran || lost)
    case Recheck(p, lost) => pc.Rechecking?
    case Load(p, lost) => pc.Begun?
    case CallSink(p, response) => pc.Loaded?
    case Conclude(p, ran, lost) => pc.Concluding? && (ran || lost)
    case Reread(p, lost) => pc.Stale?
    case Settle(p) => pc.Answer?
  }

  // ---------------------------------------------------------------- ingress

  /** `AcceptanceService.accept` up to the batch; the client learns of `lost` only as "unavailable". */
  function DoAccept(cfg: Config, w: World, p: nat, e: string, request: Request, key: Option<string>, now: int,
                    lost: bool): World
  {
    match Split(request.payload, PAYLOAD_CHUNK_LIMIT_BYTES)
    case None => w
    case Some(pieces) =>
      var (d, reply) := AcceptBatch(w.db, e, request.eventType, pieces, key, cfg.digest(request), now);
      if reply.Err? then w.(db := d)
      else
        var made := Judge(reply.value, e, key, cfg.digest(request));
        if !made.Recorded? || !made.created then w.(db := d)
        else Goto(w.(db := d, accepted := w.accepted[e := request],
                     keyless := if key == None then w.keyless + {e} else w.keyless),
                  p, if lost then Idle else Sending(e))
  }

  function Post(w: World, e: string, posted: bool): World {
    if posted then w.(messages := w.messages + [e]) else w
  }

  function DoSend(w: World, p: nat, posted: bool, failed: bool): World
    requires PcOf(w, p).Sending?
  {
    var e := PcOf(w, p).e;
    Goto(Post(w, e, posted), p, if failed then Idle else Marking(e))
  }

  /** `mark_dispatched` as seen by its caller: the new database, and whether it reported success. */
  function Dispatch(d: D1, e: string, token: Option<nat>, now: int, ran: bool, lost: bool): (D1, bool) {
    if !ran then (d, false)
    else
      var (d', done) := MarkDispatched(d, e, token, now);
      (d', done && !lost)
  }

  function DoMark(w: World, p: nat, now: int, ran: bool, lost: bool): World
    requires PcOf(w, p).Marking?
  {
    var e := PcOf(w, p).e;
    var (d, reported) := Dispatch(w.db, e, None, now, ran, lost);
    Goto(w.(db := d, dispatched := if reported then w.dispatched + [e] else w.dispatched), p, Idle)
  }

  // ---------------------------------------------------------------- repair

  const OUTBOX_LEASE_MS := 30000

  function DoStartTour(w: World, p: nat, picked: set<string>, order: seq<string>, now: int, lost: bool): World {
    var w1 := w.(db := ClaimOutbox(w.db, picked, w.tokens, now + OUTBOX_LEASE_MS, now), tokens := w.tokens + 1);
    Goto(w1, p, if lost then Idle else Touring(Tour(w.tokens, order, 0, 0, |picked|)))
  }

  function DoTourSend(w: World, p: nat, posted: bool, failed: bool): World
    requires PcOf(w, p).Touring? && PcOf(w, p).tour.todo != []
  {
    var tour := PcOf(w, p).tour;
    Goto(Post(w, tour.todo[0], posted), p, if failed then TourFreeing(tour) else TourMarking(tour))
  }

  function Next(tour: Tour, success: bool): Tour {
    tour.(todo := if tour.todo == [] then [] else tour.todo[1..],
          repaired := if success then tour.repaired + 1 else tour.repaired,
          deferred := if success then tour.deferred else tour.deferred + 1)
  }

  function Head(tour: Tour): string { if tour.todo == [] then "" else tour.todo[0] }

  function DoTourMark(w: World, p: nat, now: int, ran: bool, lost: bool): World
    requires PcOf(w, p).TourMarking?
  {
    var tour := PcOf(w, p).tour;
    var (d, reported) := Dispatch(w.db, Head(tour), Some(tour.token), now, ran, lost);
    Goto(w.(db := d, dispatched := if reported then w.dispatched + [Head(tour)] else w.dispatched),
         p, Touring(Next(tour, reported)))
  }

  function DoTourFree(w: World, p: nat, now: int, ran: bool): World
    requires PcOf(w, p).TourFreeing?
  {
    var tour := PcOf(w, p).tour;
    Goto(if ran then w.(db := ReleaseClaim(w.db, Head(tour), tour.token, now)) else w, p, Touring(Next(tour, false)))
  }

  function DoEndTour(w: World, p: nat): World
    requires PcOf(w, p).Touring?
  {
    var tour := PcOf(w, p).tour;
    Goto(w.(tours := w.tours + [TourReport(tour.repaired, tour.deferred, tour.claimed)]), p, Idle)
  }

  // ---------------------------------------------------------------- mark_delivery_started

  function EventOf(w: World, m: nat): string { if m < |w.messages| then w.messages[m] else "" }

  function DoBegin(cfg: Config, w: World, p: nat, now: int, ran: bool, lost: bool): World
    requires PcOf(w, p).Took?
  {
    var m := PcOf(w, p).m;
    var e := EventOf(w, m);
    var drawn := w.(tokens := w.tokens + 1);
    if !ran then Goto(drawn, p, Idle)
    else
      var (d, row) := ClaimAttempt(w.db, e, w.tokens, now, cfg.maximum(p));
      match row
      case None => Goto(drawn, p, if lost then Idle else Missed(m))
      case Some(r) =>
        Goto(drawn.(db := d, latest := w.latest[e := w.tokens]), p,
             if lost then Idle else Begun(Attempt(m, w.tokens, r.attempts, r.eventType)))
  }

  /** What a read of status and attempts leads to when the row is terminal or being delivered. */
  function Report(m: nat, row: Row): Pc { Answer(m, Terminal(row.status), row.status, row.attempts) }

  function AfterSnapshot(cfg: Config, w: World, p: nat, m: nat): Pc {
    var e := EventOf(w, m);
    if e !in w.db.events then Idle
    else
      var row := w.db.events[e];
      if Terminal(row.status) || row.status == Delivering then Report(m, row)
      else if row.attempts >= cfg.maximum(p) then Spent(m, row.attempts)
      else Idle
  }

  function DoSnapshot(cfg: Config, w: World, p: nat, lost: bool): World
    requires PcOf(w, p).Missed?
  {
    Goto(w, p, if lost then Idle else AfterSnapshot(cfg, w, p, PcOf(w, p).m))
  }

  /** The fallback answers with the attempts the snapshot saw. */
  function DoExhaust(cfg: Config, w: World, p: nat, ran: bool, lost: bool): World
    requires PcOf(w, p).Spent?
  {
    var pc := PcOf(w, p);
    if !ran then Goto(w, p, Idle)
    else
      var (d, changed) := BuryExhausted(w.db, EventOf(w, pc.m), cfg.maximum(p));
      Goto(w.(db := d), p,
           if lost then Idle else if changed then Answer(pc.m, true, DeadLetter, pc.seen) else Rechecking(pc.m))
  }

  function AfterRecheck(w: World, m: nat): Pc {
    var e := EventOf(w, m);
    if e !in w.db.events then Idle
    else
      var row := w.db.events[e];
      if Terminal(row.status) || row.status == Delivering then Report(m, row) else Idle
  }

  function DoRecheck(w: World, p: nat, lost: bool): World
    requires PcOf(w, p).Rechecking?
  {
    Goto(w, p, if lost then Idle else AfterRecheck(w, PcOf(w, p).m))
  }

  ghost function LoadedPayload(w: World, e: string): Option<Bytes> {
    if e in w.db.events then LoadPayload(w.db, e, w.db.events[e].legacyPayload) else None
  }

  /** `_load_payload_json` after the claim; a missing payload is "unavailable". */
  ghost function DoLoad(w: World, p: nat, lost: bool): World
    requires PcOf(w, p).Begun?
  {
    var a := PcOf(w, p).a;
    var payload := LoadedPayload(w, EventOf(w, a.m));
    Goto(w, p, if lost || payload == None then Idle else Loaded(a, payload.value))
  }

  // ---------------------------------------------------------------- process

  function Outcome(response: Response, number: nat, maximum: int): EventStatus {
    match CloudflareClassify(response)
    case None => Delivered
    case Some(error) => if ShouldDeadLetter(error, number, maximum) then DeadLetter else RetryScheduled
  }

  function DoCall(cfg: Config, w: World, p: nat, response: Response): World
    requires PcOf(w, p).Loaded?
  {
    var pc := PcOf(w, p);
    var e := EventOf(w, pc.a.m);
    Goto(w.(calls := w.calls + [SinkCall(e, pc.a.eventType, pc.payload)],
            taken := if CloudflareClassify(response) == None then w.taken + {e} else w.taken), p,
         Concluding(pc.a, Outcome(response, pc.a.number, cfg.maximum(p))))
  }

  function DoConclude(w: World, p: nat, ran: bool, lost: bool): World
    requires PcOf(w, p).Concluding?
  {
    var pc := PcOf(w, p);
    if !ran then Goto(w, p, Idle)
    else
      var (d, moved) := Transition(w.db, EventOf(w, pc.a.m), pc.outcome, pc.a.token);
      Goto(w.(db := d), p,
           if lost then Idle
           else if moved then Answer(pc.a.m, Terminal(pc.outcome), pc.outcome, pc.a.number)
           else Stale(pc.a.m))
  }

  /** `_current_result`; `get_status` loads the payload too. */
  ghost function DoReread(w: World, p: nat, lost: bool): World
    requires PcOf(w, p).Stale?
  {
    var m := PcOf(w, p).m;
    var e := EventOf(w, m);
    Goto(w, p, if lost || e !in w.db.events || LoadedPayload(w, e) == None then Idle else Report(m, w.db.events[e]))
  }

  /** `Default.queue` acknowledges on ACK; any other ending leaves the message with the queue. */
  function DoSettle(w: World, p: nat): World
    requires PcOf(w, p).Answer?
  {
    var pc := PcOf(w, p);
    Goto(if pc.ack then w.(acked := w.acked + {pc.m}) else w, p, Idle)
  }

  /** The effect of a step. */
  ghost function Apply(cfg: Config, w: World, step: Step): World
    requires Enabled(w, step)
  {
    match step
    case Crash(p) => Goto(w, p, Idle)
    case Accept(p, e, request, key, now, lost) => DoAccept(cfg, w, p, e, request, key, now, lost)
    case Send(p, posted, failed) => DoSend(w, p, posted, failed)
    case Mark(p, now, ran, lost) => DoMark(w, p, now, ran, lost)
    case StartTour(p, picked, order, limit, now, lost) => DoStartTour(w, p, picked, order, now, lost)
    case TourSend(p, posted, failed) => DoTourSend(w, p, posted, failed)
    case TourMark(p, now, ran, lost) => DoTourMark(w, p, now, ran, lost)
    case TourFree(p, now, ran) => DoTourFree(w, p, now, ran)
    case EndTour(p) => DoEndTour(w, p)
    case Consume(p, m) => Goto(w, p, Took(m))
    case Begin(p, now, ran, lost) => DoBegin(cfg, w, p, now, ran, lost)
    case Snapshot(p, lost) => DoSnapshot(cfg, w, p, lost)
    case Exhaust(p, ran, lost) => DoExhaust(cfg, w, p, ran, lost)
    case Recheck(p, lost) => DoRecheck(w, p, lost)
    case Load(p, lost) => DoLoad(w, p, lost)
    case CallSink(p, response) => DoCall(cfg, w, p, response)
    case Conclude(p, ran, lost) => DoConclude(w, p, ran, lost)
    case Reread(p, lost) => DoReread(w, p, lost)
    case Settle(p) => DoSettle(w, p)
  }

  ghost predicate IsRun(cfg: Config, ws: seq<World>, steps: seq<Step>) {
    && Proper(cfg)
    && |ws| == |steps| + 1 && ws[0] == START
    && forall i :: 0 <= i < |steps| ==> Enabled(ws[i], steps[i]) && ws[i + 1] == Apply(cfg, ws[i], steps[i])
  }

  /** One step of a run, by itself. */
  lemma RunStep(cfg: Config, ws: seq<World>, steps: seq<Step>, k: nat)
    requires IsRun(cfg, ws, steps) && k + 1 < |ws|
    ensures |ws| == |steps| + 1 && Enabled(ws[k], steps[k]) && ws[k + 1] == Apply(cfg, ws[k], steps[k])
  {
  }
}
