/**
 The public status of an event. When a pending message is claimed only after its previous holder stopped
 acting, the status follows the documented life cycle and a terminal status is final. Under full interleaving
 that fails, and it fails in exactly one way, shown here with a run.
 */
module RedisLifecycle {
  import opened Options
  import opened DeliveryPolicy
  import opened RedisStore
  import opened RedisWorld
  import opened RedisSafety
  import opened RedisGuarantees
  import opened RedisWalks

  // ---------------------------------------------------------------- full interleaving

  /** A worker starts or reschedules an event whose current message it holds. */
  predicate Rewrites(cfg: Config, w: World, step: Step, e: string) {
    match step
    case Begin(p, lost) =>
      PcOf(w, p).Holding? && PcOf(w, p).m.e == e && PcOf(w, p).m.id == Current(w.store, e)
    case GiveUp(p, due) =>
      && PcOf(w, p).Refused? && PcOf(w, p).m.e == e && PcOf(w, p).m.id == Current(w.store, e)
      && Retries(cfg.policy(p), PcOf(w, p).error, PcOf(w, p).attempt)
    case _ => false
  }

  predicate HasTerminal(w: World, e: string) {
    StatusOf(w.store, e) == Some(Delivered) || StatusOf(w.store, e) == Some(DeadLetter)
  }

  lemma TerminalIsFinished(w: World, e: string)
    requires Inv(w) && e in w.accepted && HasTerminal(w, e)
    ensures Finished(w, e) && Current(w.store, e) !in w.store.pending && !Unread(w.store, Current(w.store, e))
  {
    assert HashOk(w, e) && Placed(w, e);
    assert EntryOk(w, Current(w.store, e));
    assert FateOk(w, Current(w.store, e));
  }

  /** The statuses the scripts write, seen from an event whose current message is no longer pending. */
  ghost predicate SpareStatus(s: Store, s': Store, e: string) {
    StatusOf(s', e) == StatusOf(s, e)
  }

  lemma ReleaseSparesTerminal(w: World, p: nat, first: Option<string>, clock: nat, lost: bool, e: string)
    requires HasTerminal(w, e)
    ensures SpareStatus(w.store, DoRelease(w, p, first, clock, lost).store, e)
  {
  }

  lemma IsolateSparesTerminal(w: World, p: nat, lost: bool, e: string)
    requires HasTerminal(w, e) && PcOf(w, p).Unfit?
    ensures SpareStatus(w.store, DoIsolate(w, p, lost).store, e)
  {
  }

  lemma FinishSparesTerminal(w: World, p: nat, e: string)
    requires PcOf(w, p).Taken? && Current(w.store, e) !in w.store.pending
    ensures SpareStatus(w.store, DoFinish(w, p).store, e)
  {
  }

  lemma GiveUpOnTerminal(cfg: Config, w: World, p: nat, due: int, e: string)
    requires PcOf(w, p).Refused? && HasTerminal(w, e) && HashOk(w, e) && w.store.foreign == {}
    ensures SpareStatus(w.store, DoGiveUp(cfg, w, p, due).store, e) <==> !Rewrites(cfg, w, GiveUp(p, due), e)
  {
    hide MoveToDeadLetter, ScheduleRetry;
    var pc := PcOf(w, p);
    BurialSparesTerminal(w.store, pc.m.e, pc.m.id, ErrorName(pc.error), e);
    ScheduleOnTerminal(w.store, pc.m.e, pc.m.id, due, ErrorName(pc.error), e);
  }

  lemma BurialSparesTerminal(s: Store, d: string, id: StreamId, error: string, e: string)
    requires StatusOf(s, e) != Some(Delivering)
    ensures SpareStatus(s, MoveToDeadLetter(s, d, id, error).0, e)
  {
  }

  lemma ScheduleOnTerminal(s: Store, d: string, id: StreamId, due: int, error: string, e: string)
    requires s.foreign == {} && e in s.statuses && s.statuses[e].streamId.Plain?
    requires StatusOf(s, e) != Some(RetryScheduled)
    ensures SpareStatus(s, ScheduleRetry(s, d, id, due, error).0, e) <==> !(d == e && id == Current(s, e))
  {
  }

  lemma BeginOnTerminal(cfg: Config, w: World, p: nat, lost: bool, e: string)
    requires PcOf(w, p).Holding? && HasTerminal(w, e) && HashOk(w, e) && w.store.foreign == {}
    ensures SpareStatus(w.store, DoBegin(w, p, lost).store, e) <==> !Rewrites(cfg, w, Begin(p, lost), e)
  {
  }

  lemma AcceptSparesStatus(cfg: Config, w: World, step: Step, e: string)
    requires Enabled(w, step) && (step.Accept? || step.AcceptKeyed?) && e in w.store.statuses
    ensures SpareStatus(w.store, Apply(cfg, w, step).store, e)
  {
  }

  /**
   Under full interleaving a step takes an event out of a terminal status if and only if it is the start or the
   rescheduling by a worker that holds the event's last message, and that message is then no longer pending:
   one look at the pending list, which the other scripts take, would rule the step out.
   */
  lemma TerminalStatusMoves(cfg: Config, w: World, step: Step, e: string)
    requires Inv(w) && Enabled(w, step) && e in w.accepted && HasTerminal(w, e)
    ensures StatusOf(Apply(cfg, w, step).store, e) != StatusOf(w.store, e) <==> Rewrites(cfg, w, step, e)
    ensures Rewrites(cfg, w, step, e) ==>
              PcOf(w, step.p).m.id !in w.store.pending && !HasTerminal(Apply(cfg, w, step), e)
  {
    hide Core, Witnesses;
    KnownHash(w, e);
    TerminalIsFinished(w, e);
    match step
    case Accept(_, _, _) => AcceptSparesStatus(cfg, w, step, e);
    case AcceptKeyed(_, _, _, _) => AcceptSparesStatus(cfg, w, step, e);
    case Release(p, now, first, clock, lost) => ReleaseSparesTerminal(w, p, first, clock, lost, e);
    case Isolate(p, lost) => IsolateSparesTerminal(w, p, lost, e);
    case Finish(p) => FinishSparesTerminal(w, p, e);
    case GiveUp(p, due) => GiveUpOnTerminal(cfg, w, p, due, e);
    case Begin(p, lost) => BeginOnTerminal(cfg, w, p, lost, e);
    case _ => QuietStep(cfg, w, step);
  }

  lemma KnownHash(w: World, e: string)
    requires Inv(w) && e in w.accepted
    ensures HashOk(w, e) && w.store.foreign == {}
  {
  }

  // ---------------------------------------------------------------- a run that breaks finality

  lemma StartRun(cfg: Config) returns (ws: seq<World>, steps: seq<Step>)
    ensures IsRun(cfg, ws, steps) && |ws| == |steps| + 1 && ws[|steps|] == START
  {
    ws, steps := [START], [];
  }

  const FIRST := StreamId(1, 0)

  function Lone(e: string, c: Content, h: StatusHash, claim: map<StreamId, Claim>): Store {
    Store(true, map[FIRST := Encode(e, c)], FIRST, true, FIRST, claim, map[e := h], map[], [], [], map[], {})
  }

  function Moved(e: string, status: EventStatus, attempts: int, lastError: Option<string>): StatusHash {
    StatusHash(Some(e), Some(status), Number(attempts), Plain(FIRST), lastError, None)
  }


  /** Worker 1 has swept an otherwise empty schedule. */
  lemma SweptRun(cfg: Config, e: string, c: Content) returns (ws: seq<World>, steps: seq<Step>)
    requires IsUuid(e)
    ensures IsRun(cfg, ws, steps) && |ws| == |steps| + 1
    ensures ws[|steps|].store == Lone(e, c, FreshHash(e, FIRST), map[]).(lastRead := ZERO_ID)
    ensures ws[|steps|].pcs == map[1 := Swept]
  {
    hide IsRun;
    ws, steps := StartRun(cfg);
    ws, steps := Extend(cfg, ws, steps, Accept(e, c, 1));
    ws, steps := Extend(cfg, ws, steps, Ensure(1, false));
    assert Due(ws[|steps|].store, 0) == {};
    ws, steps := Extend(cfg, ws, steps, Release(1, 0, None, 0, false));
  }

  /** It has read the only event, and stalls before it marks the start. */
  lemma StallingRun(cfg: Config, e: string, c: Content) returns (ws: seq<World>, steps: seq<Step>)
    requires IsUuid(e) && cfg.decodes(Encode(e, c))
    ensures IsRun(cfg, ws, steps) && |ws| == |steps| + 1
    ensures ws[|steps|].store == Lone(e, c, FreshHash(e, FIRST), map[FIRST := Claim(1, 0)])
    ensures ws[|steps|].pcs == map[1 := Holding(Held(FIRST, e, c))]
  {
    hide IsRun, Decode;
    ws, steps := SweptRun(cfg, e, c);
    ws, steps := Extend(cfg, ws, steps, Scan(1, 0, 0, None, false));
    DecodeReturnsAccepted(cfg, FIRST, e, c);
    ws, steps := Extend(cfg, ws, steps, Read(1, 0, Some(FIRST), false));
    assert ws[|steps|].pcs == map[1 := Holding(Held(FIRST, e, c))];
  }

  /** Worker 2 comes to the claim scan. */
  lemma SecondSweptRun(cfg: Config, e: string, c: Content) returns (ws: seq<World>, steps: seq<Step>)
    requires IsUuid(e) && cfg.decodes(Encode(e, c))
    ensures IsRun(cfg, ws, steps) && |ws| == |steps| + 1
    ensures ws[|steps|].store == Lone(e, c, FreshHash(e, FIRST), map[FIRST := Claim(1, 0)])
    ensures ws[|steps|].pcs == map[1 := Holding(Held(FIRST, e, c)), 2 := Swept]
  {
    hide IsRun;
    ws, steps := StallingRun(cfg, e, c);
    ws, steps := Extend(cfg, ws, steps, Ensure(2, false));
    assert Due(ws[|steps|].store, 0) == {};
    ws, steps := Extend(cfg, ws, steps, Release(2, 0, None, 0, false));
  }

  /** Worker 2 takes the idle message over. */
  lemma TakeoverRun(cfg: Config, e: string, c: Content) returns (ws: seq<World>, steps: seq<Step>)
    requires IsUuid(e) && cfg.decodes(Encode(e, c))
    ensures IsRun(cfg, ws, steps) && |ws| == |steps| + 1
    ensures ws[|steps|].store == Lone(e, c, FreshHash(e, FIRST), map[FIRST := Claim(2, 0)])
    ensures ws[|steps|].pcs == map[1 := Holding(Held(FIRST, e, c)), 2 := Holding(Held(FIRST, e, c))]
  {
    hide IsRun, Decode;
    ws, steps := SecondSweptRun(cfg, e, c);
    EncodeFields(e, c);
    DecodeReturnsAccepted(cfg, FIRST, e, c);
    assert IdleBefore(ws[|steps|].store, 0, 0, FIRST) == {};
    assert Dispose(ws[|steps|].store, FIRST) == ForDelivery;
    ws, steps := Extend(cfg, ws, steps, Scan(2, 0, 0, Some(FIRST), false));
    ws, steps := Extend(cfg, ws, steps, Reread(2));
  }

  lemma BegunRun(cfg: Config, e: string, c: Content) returns (ws: seq<World>, steps: seq<Step>)
    requires IsUuid(e) && cfg.decodes(Encode(e, c))
    ensures IsRun(cfg, ws, steps) && |ws| == |steps| + 1
    ensures ws[|steps|].store ==
              Lone(e, c, Moved(e, Delivering, 1, None), map[FIRST := Claim(2, 0)])
    ensures ws[|steps|].pcs == map[1 := Holding(Held(FIRST, e, c)), 2 := Started(Held(FIRST, e, c), 1)]
  {
    hide IsRun, Encode;
    ws, steps := TakeoverRun(cfg, e, c);
    ws, steps := Extend(cfg, ws, steps, Begin(2, false));
  }

  /** Worker 2's delivery is taken by the downstream. */
  lemma TakenRun(cfg: Config, e: string, c: Content) returns (ws: seq<World>, steps: seq<Step>)
    requires IsUuid(e) && cfg.decodes(Encode(e, c))
    ensures IsRun(cfg, ws, steps) && |ws| == |steps| + 1
    ensures ws[|steps|].store ==
              Lone(e, c, Moved(e, Delivering, 1, None), map[FIRST := Claim(2, 0)])
    ensures ws[|steps|].pcs == map[1 := Holding(Held(FIRST, e, c)), 2 := Taken(Held(FIRST, e, c), 1)]
  {
    hide IsRun;
    ws, steps := BegunRun(cfg, e, c);
    ws, steps := Extend(cfg, ws, steps, CallSink(2, Status(200)));
  }

  lemma LoneCompletes(e: string, c: Content)
    ensures var h := Moved(e, Delivering, 1, None);
            CompleteDelivery(Lone(e, c, h, map[FIRST := Claim(2, 0)]), e, FIRST) ==
            (Lone(e, c, Moved(e, Delivered, 1, None), map[]), Ok(()))
  {
    hide Encode;
    var claim := map[FIRST := Claim(2, 0)];
    assert claim - {FIRST} == map[];
    var h := Moved(e, Delivering, 1, None);
    assert map[e := h][e := Moved(e, Delivered, 1, None)] == map[e := Moved(e, Delivered, 1, None)];
  }

  lemma CompletedRun(cfg: Config, e: string, c: Content) returns (ws: seq<World>, steps: seq<Step>)
    requires IsUuid(e) && cfg.decodes(Encode(e, c))
    ensures IsRun(cfg, ws, steps) && |ws| == |steps| + 1
    ensures ws[|steps|].store == Lone(e, c, Moved(e, Delivered, 1, None), map[])
    ensures ws[|steps|].pcs == map[1 := Holding(Held(FIRST, e, c)), 2 := Ready]
    ensures FIRST in ws[|steps|].fates && ws[|steps|].fates[FIRST] == Completed
  {
    hide IsRun, Encode;
    ws, steps := TakenRun(cfg, e, c);
    LoneCompletes(e, c);
    hide CompleteDelivery;
    ws, steps := Extend(cfg, ws, steps, Finish(2));
  }

  /**
   With any event and any configuration that decodes it there is a run in which a delivered event is shown as
   delivering again: worker 2 delivers while worker 1 still holds the message, then worker 1 marks its start.
   */
  lemma FinalityFailsForStaleHolders(cfg: Config, e: string, c: Content) returns (ws: seq<World>, steps: seq<Step>)
    requires IsUuid(e) && cfg.decodes(Encode(e, c))
    ensures IsRun(cfg, ws, steps) && |ws| == |steps| + 1 && |steps| > 0
    ensures StatusOf(ws[|steps| - 1].store, e) == Some(Delivered)
    ensures ws[|steps|].store == Lone(e, c, Moved(e, Delivering, 2, None), map[])
    ensures ws[|steps|].pcs == map[1 := Started(Held(FIRST, e, c), 2), 2 := Ready]
    ensures FIRST in ws[|steps|].fates && ws[|steps|].fates[FIRST] == Completed
  {
    hide IsRun, Encode;
    ws, steps := CompletedRun(cfg, e, c);
    ws, steps := Extend(cfg, ws, steps, Begin(1, false));
  }

  /** Its own call times out and, as its policies say, it schedules a retry. */
  lemma RescheduledRun(cfg: Config, e: string, c: Content) returns (ws: seq<World>, steps: seq<Step>)
    requires IsUuid(e) && cfg.decodes(Encode(e, c)) && Retries(cfg.policy(1), Timeout, 2)
    ensures IsRun(cfg, ws, steps) && |ws| == |steps| + 1
    ensures ws[|steps|].store ==
              Lone(e, c, Moved(e, RetryScheduled, 2, Some("timeout")), map[]).(retries := map[e := 0])
    ensures ws[|steps|].pcs == map[1 := Ready, 2 := Ready]
    ensures FIRST in ws[|steps|].fates && ws[|steps|].fates[FIRST] == Completed
  {
    hide IsRun, Encode;
    ws, steps := FinalityFailsForStaleHolders(cfg, e, c);
    ws, steps := Extend(cfg, ws, steps, CallSink(1, TimedOut));
    ws, steps := Extend(cfg, ws, steps, GiveUp(1, 0));
  }

  /**
   The next release finds the message no longer pending and condemns the record: an event that the downstream took,
   and whose message was completed, ends up shown as dead_letter, with no dead-letter record.
   */
  lemma StaleHolderBuriesDelivered(cfg: Config, e: string, c: Content) returns (ws: seq<World>, steps: seq<Step>)
    requires IsUuid(e) && cfg.decodes(Encode(e, c)) && Retries(cfg.policy(1), Timeout, 2)
    ensures IsRun(cfg, ws, steps) && |ws| == |steps| + 1
    ensures var w := ws[|steps|];
            && StatusOf(w.store, e) == Some(DeadLetter) && w.store.deadLetters == []
            && FIRST in w.fates && w.fates[FIRST] == Completed && Current(w.store, e) == FIRST && e in w.taken
  {
    hide IsRun, Encode;
    ws, steps := RescheduledRun(cfg, e, c);
    ws, steps := Extend(cfg, ws, steps, Ensure(2, false));
    assert e in Due(ws[|steps|].store, 0);
    ws, steps := Extend(cfg, ws, steps, Release(2, 0, Some(e), 0, false));
    CompletedWasTaken(cfg, ws, steps, |steps|, e);
  }

  lemma CompletedWasTaken(cfg: Config, ws: seq<World>, steps: seq<Step>, i: nat, e: string)
    requires IsRun(cfg, ws, steps) && i < |ws| && e in ws[i].store.statuses
    requires Current(ws[i].store, e) in ws[i].fates && ws[i].fates[Current(ws[i].store, e)] == Completed
    ensures e in ws[i].taken
  {
    RunKeeps(cfg, ws, steps, i);
    assert HashOk(ws[i], e) && FateOk(ws[i], Current(ws[i].store, e));
  }
}
