/**
 Any number of Redis workers over one keyspace. Each Lua script or command is one atomic step; every worker is
 a program counter that walks through `EventWorker.run_once`. Between any two steps a worker may crash and
 restart, and a script may take effect although its caller sees only "unavailable" (`lost`).
 */
module RedisWorld {
  import opened Options
  import opened DeliveryPolicy
  import opened RedisStore

  /** A worker's options: its dead-letter maximum, if it has that policy, and whether it retries. */
  datatype Policy = Policy(maximum: Option<int>, retries: bool)

  /**
   `decodes` says which messages JSON decoding and request validation let through; `digest` stands for
   SHA-256 over the canonical request, that is, over event type and payload.
   */
  datatype Config = Config(policy: nat -> Policy, decodes: Fields -> bool, digest: (string, string) -> string)

  function Fingerprint(cfg: Config, c: Content): string { cfg.digest(c.eventType, c.payload) }

  /** `QueuedEvent`: what a worker holds while it delivers. */
  datatype Held = Held(id: StreamId, e: string, c: Content)

  datatype Pc =
    | Ready
    | Grouped
    | Swept
    | Claimed(id: StreamId, fit: bool)
    | Unclaimed
    | Unfit(id: StreamId, reason: string, idleAfter: bool)
    | Holding(m: Held)
    | Started(m: Held, attempt: int)
    | Taken(m: Held, attempt: int)
    | Refused(m: Held, attempt: int, error: ErrorClass)

  predicate HasMessage(pc: Pc) { pc.Holding? || pc.Started? || pc.Taken? || pc.Refused? }

  predicate HasId(pc: Pc) { pc.Claimed? || pc.Unfit? || HasMessage(pc) }

  function IdOf(pc: Pc): StreamId
    requires HasId(pc)
  {
    if HasMessage(pc) then pc.m.id else pc.id
  }

  /** How a stream message left the pending list. */
  datatype Fate = Requeued | Completed | DeadLettered | Quarantined

  datatype SinkCall = SinkCall(e: string, c: Content)

  /**
   Beside the keyspace and the workers, the history the guarantees speak about: what was accepted, which event
   each stream message was posted for, how each acknowledged message ended, what was sent downstream and which
   events the downstream took.
   */
  datatype World = World(
    store: Store,
    pcs: map<nat, Pc>,
    accepted: map<string, Content>,
    keyless: set<string>,
    owner: map<StreamId, string>,
    fates: map<StreamId, Fate>,
    calls: seq<SinkCall>,
    taken: set<string>)

  const START := World(EMPTY_STORE, map[], map[], {}, map[], map[], [], {})

  function PcOf(w: World, p: nat): Pc { if p in w.pcs then w.pcs[p] else Ready }

  function Goto(w: World, p: nat, pc: Pc): World { w.(pcs := w.pcs[p := pc]) }

  function ErrorName(e: ErrorClass): string {
    match e
    case Timeout => "timeout"
    case Connection => "connection_error"
    case Http1xx => "http_1xx"
    case Http3xx => "http_3xx"
    case Http429 => "http_429"
    case Http5xx => "http_5xx"
    case Http4xx => "http_4xx"
  }

  /** The client's parsing of a message; None stands for KeyError, TypeError and ValueError. */
  function Decode(cfg: Config, id: StreamId, fields: Fields): Option<Held> {
    var e := LastValue(fields, "event_id");
    var t := LastValue(fields, "event_type");
    var p := LastValue(fields, "payload");
    var a := LastValue(fields, "accepted_at_ms");
    if e.Some? && t.Some? && p.Some? && a.Some? && IsUuid(e.value) && cfg.decodes(fields)
    then Some(Held(id, e.value, Content(t.value, p.value, a.value)))
    else None
  }

  function Decoded(cfg: Config, id: StreamId, fields: Fields, idleAfter: bool): Pc {
    match Decode(cfg, id, fields)
    case Some(m) => Holding(m)
    case None => Unfit(id, "invalid_message", idleAfter)
  }

  datatype Step =
    | Accept(e: string, c: Content, clock: nat)
    | AcceptKeyed(k: string, e: string, c: Content, clock: nat)
    | Crash(p: nat)
    | Ensure(p: nat, lost: bool)
    | Release(p: nat, now: int, first: Option<string>, clock: nat, lost: bool)
    | Scan(p: nat, now: int, minIdle: int, found: Option<StreamId>, lost: bool)
    | Reread(p: nat)
    | Read(p: nat, now: int, found: Option<StreamId>, lost: bool)
    | Isolate(p: nat, lost: bool)
    | Begin(p: nat, lost: bool)
    | CallSink(p: nat, response: Response)
    | Finish(p: nat)
    | GiveUp(p: nat, due: int)

  /** Whether a step may be taken. */
  ghost predicate Enabled(w: World, step: Step) {
    match step
    case Accept(e, c, clock) => IsUuid(e)
    case AcceptKeyed(k, e, c, clock) => IsUuid(e)
    case Crash(p) => true
    case Ensure(p, lost) => PcOf(w, p) == Ready
    case Release(p, now, first, clock, lost) =>
      && PcOf(w, p) == Grouped
      && (if first.Some? then FirstDue(w.store, now, first.value) else Due(w.store, now) == {})
    case Scan(p, now, minIdle, found, lost) =>
      PcOf(w, p) == Swept && ScanFinds(w.store, now, minIdle, found)
    case Reread(p) => PcOf(w, p).Claimed?
    case Read(p, now, found, lost) => PcOf(w, p) == Unclaimed && NextUnread(w.store, found)
    case Isolate(p, lost) => PcOf(w, p).Unfit?
    case Begin(p, lost) => PcOf(w, p).Holding?
    case CallSink(p, response) => PcOf(w, p).Started?
    case Finish(p) => PcOf(w, p).Taken?
    case GiveUp(p, due) => PcOf(w, p).Refused?
  }

  function DoAccept(w: World, e: string, c: Content, clock: nat): World {
    var (s, reply) := Enqueue(w.store, e, c, clock);
    if reply.Err? then w
    else w.(store := s, accepted := w.accepted[e := c], keyless := w.keyless + {e},
            owner := w.owner[reply.value := e])
  }

  function DoAcceptKeyed(w: World, k: string, f: string, e: string, c: Content, clock: nat): World {
    var (s, reply) := EnqueueKeyed(w.store, k, f, e, c, clock);
    if reply.Ok? && reply.value.Created?
    then w.(store := s, accepted := w.accepted[e := c], owner := w.owner[s.lastId := e])
    else w
  }

  function DoEnsure(w: World, p: nat, lost: bool): World {
    var (s, reply) := EnsureGroup(w.store);
    Goto(w.(store := s), p, if lost || reply.Err? then Ready else Grouped)
  }

  function DoRelease(w: World, p: nat, first: Option<string>, clock: nat, lost: bool): World {
    var (s, reply) := ReleaseDueRetry(w.store, first, clock);
    var w1 := Goto(w.(store := s), p, if lost || reply.Err? then Ready else Swept);
    if reply == Ok(1)
    then w1.(fates := w.fates[w.store.statuses[first.value].streamId.id := Requeued],
             owner := w.owner[s.lastId := first.value])
    else w1
  }

  function DoScan(w: World, p: nat, now: int, found: Option<StreamId>, lost: bool): World
    requires found.Some? ==> found.value in w.store.entries
  {
    var s := w.store;
    if StreamKey in s.foreign || !s.hasStream || !s.hasGroup then Goto(w, p, Ready)
    else match found
      case None => Goto(w, p, if lost then Ready else Unclaimed)
      case Some(id) =>
        Goto(w.(store := Take(s, id, p, now)), p, if lost then Ready else Claimed(id, Dispose(s, id) == ForDelivery))
  }

  function DoReread(cfg: Config, w: World, p: nat): World
    requires PcOf(w, p).Claimed?
  {
    var pc := PcOf(w, p);
    if pc.id !in w.store.entries then Goto(w, p, Ready)
    else if !pc.fit then Goto(w, p, Unfit(pc.id, "invariant_violation", false))
    else Goto(w, p, Decoded(cfg, pc.id, w.store.entries[pc.id], false))
  }

  function DoRead(cfg: Config, w: World, p: nat, now: int, found: Option<StreamId>, lost: bool): World
    requires found.Some? ==> found.value in w.store.entries
  {
    var s := w.store;
    if StreamKey in s.foreign || !s.hasStream || !s.hasGroup then Goto(w, p, Ready)
    else match found
      case None => Goto(w, p, Ready)
      case Some(id) =>
        Goto(w.(store := Deliver(s, id, p, now)), p, if lost then Ready else Decoded(cfg, id, s.entries[id], true))
  }

  function DoIsolate(w: World, p: nat, lost: bool): World
    requires PcOf(w, p).Unfit?
  {
    var pc := PcOf(w, p);
    var (s, reply) := Quarantine(w.store, pc.id, pc.reason);
    var w1 := Goto(w.(store := s), p, if lost || reply.Err? || pc.idleAfter then Ready else Unclaimed);
    if reply.Ok? then w1.(fates := w.fates[pc.id := Quarantined]) else w1
  }

  function DoBegin(w: World, p: nat, lost: bool): World
    requires PcOf(w, p).Holding?
  {
    var m := PcOf(w, p).m;
    var (s, reply) := StartDelivery(w.store, m.e, m.id);
    Goto(w.(store := s), p, if lost || reply.Err? then Ready else Started(m, reply.value))
  }

  function DoCall(w: World, p: nat, response: Response): World
    requires PcOf(w, p).Started?
  {
    var pc := PcOf(w, p);
    var w1 := w.(calls := w.calls + [SinkCall(pc.m.e, pc.m.c)]);
    match RedisClassify(response)
    case None => Goto(w1.(taken := w.taken + {pc.m.e}), p, Taken(pc.m, pc.attempt))
    case Some(error) => Goto(w1, p, Refused(pc.m, pc.attempt, error))
  }

  function DoFinish(w: World, p: nat): World
    requires PcOf(w, p).Taken?
  {
    var m := PcOf(w, p).m;
    var (s, reply) := CompleteDelivery(w.store, m.e, m.id);
    var w1 := Goto(w.(store := s), p, Ready);
    if reply.Ok? then w1.(fates := w.fates[m.id := Completed]) else w1
  }

  predicate Buries(policy: Policy, error: ErrorClass, attempt: int) {
    policy.maximum.Some? && ShouldDeadLetter(error, attempt, policy.maximum.value)
  }

  predicate Retries(policy: Policy, error: ErrorClass, attempt: int) {
    !Buries(policy, error, attempt) && policy.retries && Retryable(error)
  }

  function DoGiveUp(cfg: Config, w: World, p: nat, due: int): World
    requires PcOf(w, p).Refused?
  {
    var pc := PcOf(w, p);
    var m := pc.m;
    if Buries(cfg.policy(p), pc.error, pc.attempt) then
      var (s, reply) := MoveToDeadLetter(w.store, m.e, m.id, ErrorName(pc.error));
      var w1 := Goto(w.(store := s), p, Ready);
      if reply.Ok? then w1.(fates := w.fates[m.id := DeadLettered]) else w1
    else if Retries(cfg.policy(p), pc.error, pc.attempt) then
      Goto(w.(store := ScheduleRetry(w.store, m.e, m.id, due, ErrorName(pc.error)).0), p, Ready)
    else Goto(w, p, Ready)
  }

  /** The effect of a step. */
  ghost function Apply(cfg: Config, w: World, step: Step): World
    requires Enabled(w, step)
  {
    match step
    case Accept(e, c, clock) => DoAccept(w, e, c, clock)
    case AcceptKeyed(k, e, c, clock) => DoAcceptKeyed(w, k, Fingerprint(cfg, c), e, c, clock)
    case Crash(p) => Goto(w, p, Ready)
    case Ensure(p, lost) => DoEnsure(w, p, lost)
    case Release(p, now, first, clock, lost) => DoRelease(w, p, first, clock, lost)
    case Scan(p, now, minIdle, found, lost) => DoScan(w, p, now, found, lost)
    case Reread(p) => DoReread(cfg, w, p)
    case Read(p, now, found, lost) => DoRead(cfg, w, p, now, found, lost)
    case Isolate(p, lost) => DoIsolate(w, p, lost)
    case Begin(p, lost) => DoBegin(w, p, lost)
    case CallSink(p, response) => DoCall(w, p, response)
    case Finish(p) => DoFinish(w, p)
    case GiveUp(p, due) => DoGiveUp(cfg, w, p, due)
  }

  /** A run under full interleaving: nothing but the workers' own code restricts the next step. */
  ghost predicate IsRun(cfg: Config, ws: seq<World>, steps: seq<Step>) {
    && |ws| == |steps| + 1 && ws[0] == START
    && forall i :: 0 <= i < |steps| ==> Enabled(ws[i], steps[i]) && ws[i + 1] == Apply(cfg, ws[i], steps[i])
  }

  /** One step of a run, by itself. */
  lemma RunStep(cfg: Config, ws: seq<World>, steps: seq<Step>, k: nat)
    requires IsRun(cfg, ws, steps) && k + 1 < |ws|
    ensures |ws| == |steps| + 1 && Enabled(ws[k], steps[k]) && ws[k + 1] == Apply(cfg, ws[k], steps[k])
  {
  }
}
