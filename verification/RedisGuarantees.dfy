/**
 The guarantees of the Redis backend over whole runs, under full interleaving: stale workers, crashes and
 lost replies anywhere.
 */
module RedisGuarantees {
  import opened Options
  import opened DeliveryPolicy
  import opened RedisStore
  import opened RedisWorld
  import opened RedisSafety

  /** The event's current message was acknowledged for good: by completion, dead-letter or quarantine. */
  predicate Finished(w: World, e: string) {
    var id := Current(w.store, e);
    id in w.fates && w.fates[id] != Requeued
  }

  /** All stream messages ever posted for an event. */
  function Messages(w: World, e: string): set<StreamId> { set id | id in w.owner && w.owner[id] == e }

  /** The positions of the event's records in the dead-letter stream. */
  ghost function Burials(w: World, e: string): set<nat> {
    set i: nat | i < |w.store.deadLetters|
              && w.store.deadLetters[i].source in w.owner && w.owner[w.store.deadLetters[i].source] == e
  }

  // ---------------------------------------------------------------- no event is stranded

  /** Where an unfinished event can be: in each case some step of an idle worker is enabled for it. */
  predicate Enabling(w: World, e: string) {
    var s, id := w.store, Current(w.store, e);
    || (Unread(s, id) && StatusOf(s, e) == Some(Queued))
    || (id in s.pending && id in s.entries && Dispose(s, id) == ForDelivery)
    || (id in s.pending && e in s.retries && Agrees(s, e))
  }

  /**
   No stranding: at every moment of every run an accepted event is finished, or its current message is unread
   and queued, or pending and ruled deliverable by the claim scan, or scheduled with all its records agreeing,
   so that release will requeue it.
   */
  lemma NoStranding(cfg: Config, ws: seq<World>, steps: seq<Step>, i: nat, e: string)
    requires IsRun(cfg, ws, steps) && i < |ws| && e in ws[i].accepted
    ensures Finished(ws[i], e) <==> !Enabling(ws[i], e)
  {
    RunKeeps(cfg, ws, steps, i);
    var w := ws[i];
    var id := Current(w.store, e);
    assert HashOk(w, e) && Placed(w, e) && EntryOk(w, id);
    EncodeFields(e, w.accepted[e]);
    assert id in w.fates ==> FateOk(w, id);
  }

  // ---------------------------------------------------------------- one live message, one ending

  /** Every live message is its event's recorded one, so no event has two, and a finished event has none. */
  lemma SingleLiveMessage(cfg: Config, ws: seq<World>, steps: seq<Step>, i: nat, id: StreamId)
    requires IsRun(cfg, ws, steps) && i < |ws| && Live(ws[i].store, id)
    ensures var w := ws[i];
            && id in w.owner && id in w.store.entries
            && FieldValue(w.store.entries[id], "event_id") == Some(w.owner[id])
            && Current(w.store, w.owner[id]) == id && !Finished(w, w.owner[id])
    ensures forall x :: Live(ws[i].store, x) && x in ws[i].owner && ws[i].owner[x] == ws[i].owner[id] ==> x == id
  {
    RunKeeps(cfg, ws, steps, i);
    var w := ws[i];
    assert EntryOk(w, id);
    EncodeFields(w.owner[id], w.accepted[w.owner[id]]);
    assert id in w.fates ==> FateOk(w, id);
    forall x | Live(w.store, x) && x in w.owner && w.owner[x] == w.owner[id]
      ensures x == id
    {
      assert EntryOk(w, x);
    }
  }

  /** Of all messages an event ever had, at most one was completed, dead-lettered or quarantined. */
  lemma EndsAtMostOnce(cfg: Config, ws: seq<World>, steps: seq<Step>, i: nat, x: StreamId, y: StreamId)
    requires IsRun(cfg, ws, steps) && i < |ws|
    requires var w := ws[i]; x in w.fates && y in w.fates && w.fates[x] != Requeued && w.fates[y] != Requeued
    requires var w := ws[i]; x in w.owner && y in w.owner && w.owner[x] == w.owner[y]
    ensures x == y && Finished(ws[i], ws[i].owner[x])
  {
    RunKeeps(cfg, ws, steps, i);
    assert FateOk(ws[i], x) && FateOk(ws[i], y);
  }

  /** The dead-letter stream never holds two records of one event. */
  lemma BuriedAtMostOnce(cfg: Config, ws: seq<World>, steps: seq<Step>, k: nat, e: string, i: nat, j: nat)
    requires IsRun(cfg, ws, steps) && k < |ws| && i in Burials(ws[k], e) && j in Burials(ws[k], e)
    ensures i == j && Finished(ws[k], e) && ws[k].fates[Current(ws[k].store, e)] == DeadLettered
  {
    RunKeeps(cfg, ws, steps, k);
    var w := ws[k];
    var a, b := w.store.deadLetters[i], w.store.deadLetters[j];
    assert RecordOk(w, a) && RecordOk(w, b);
    assert FateOk(w, a.source) && FateOk(w, b.source);
  }

  /** The event keeps its ending, its messages and its dead-letter records. */
  ghost predicate SameHistory(w: World, w': World, e: string) {
    && Finished(w, e) && Finished(w', e)
    && Current(w'.store, e) == Current(w.store, e)
    && w'.fates[Current(w'.store, e)] == w.fates[Current(w.store, e)]
    && Messages(w', e) == Messages(w, e) && Burials(w', e) == Burials(w, e)
  }

  /** What a step may do without touching the history of `e`: post for others, bury others. */
  ghost predicate SparesHistory(w: World, w': World, e: string) {
    var l, l' := w.store.deadLetters, w'.store.deadLetters;
    && Current(w'.store, e) == Current(w.store, e)
    && (forall id :: id in w.fates ==> id in w'.fates && w'.fates[id] == w.fates[id])
    && (forall id :: id in w.owner ==> id in w'.owner && w'.owner[id] == w.owner[id])
    && (forall id :: id in w'.owner && id !in w.owner ==> w'.owner[id] != e)
    && (|| l' == l
        || (&& |l'| == |l| + 1 && l'[..|l|] == l
            && l'[|l|].source in w.owner && w.owner[l'[|l|].source] != e))
  }

  lemma SparedIsSame(w: World, w': World, e: string)
    requires Inv(w) && Finished(w, e) && SparesHistory(w, w', e)
    ensures SameHistory(w, w', e)
  {
    var l, l' := w.store.deadLetters, w'.store.deadLetters;
    forall i: nat | i < |l|
      ensures l'[i] == l[i] && l[i].source in w.owner
    {
      assert RecordOk(w, l[i]);
      assert FateOk(w, l[i].source);
      assert l' == l || l'[..|l|][i] == l[i];
    }
    forall i ensures i in Burials(w', e) <==> i in Burials(w, e) {
      if 0 <= i < |l| {
        assert l'[i] == l[i];
      }
    }
  }

  lemma FreshIdIsNew(w: World, clock: nat)
    requires Inv(w)
    ensures NextId(w.store.lastId, clock) !in w.owner && NextId(w.store.lastId, clock) !in w.fates
  {
    var id := NextId(w.store.lastId, clock);
    assert id in w.store.entries ==> EntryOk(w, id);
    assert id in w.fates ==> FateOk(w, id);
  }

  /** A message that finished its event is not pending, and no longer acknowledged by anyone. */
  lemma FinishedIsNotPending(w: World, e: string)
    requires Inv(w) && e in w.accepted && Finished(w, e)
    ensures Current(w.store, e) !in w.store.pending && !Agrees(w.store, e)
    ensures e in w.store.statuses && Current(w.store, e) in w.owner && w.owner[Current(w.store, e)] == e
  {
    assert FateOk(w, Current(w.store, e)) && HashOk(w, e);
  }

  /** A pending message has no fate yet and an owner. */
  ghost predicate PendingIsOpen(w: World, id: StreamId) {
    id in w.store.pending ==> id !in w.fates && id in w.owner
  }

  lemma HeldIsOpen(w: World, p: nat)
    requires Inv(w) && HasId(PcOf(w, p))
    ensures PendingIsOpen(w, IdOf(PcOf(w, p)))
    ensures HasMessage(PcOf(w, p)) ==> IdOf(PcOf(w, p)) in w.owner && w.owner[IdOf(PcOf(w, p))] == PcOf(w, p).m.e
  {
    PcLookup(w, p);
    var id := IdOf(PcOf(w, p));
    assert EntryOk(w, id);
    assert id in w.fates ==> FateOk(w, id);
  }

  lemma AcceptSpares(w: World, d: string, c: Content, clock: nat, e: string)
    requires NextId(w.store.lastId, clock) !in w.owner && e in w.store.statuses
    ensures SparesHistory(w, DoAccept(w, d, c, clock), e)
  {
  }

  lemma AcceptKeyedSpares(w: World, k: string, f: string, d: string, c: Content, clock: nat, e: string)
    requires NextId(w.store.lastId, clock) !in w.owner && e in w.store.statuses
    ensures SparesHistory(w, DoAcceptKeyed(w, k, f, d, c, clock), e)
  {
  }

  lemma ReleaseSpares(w: World, p: nat, first: Option<string>, clock: nat, lost: bool, e: string)
    requires NextId(w.store.lastId, clock) !in w.owner
    requires first.Some? && Agrees(w.store, first.value) ==>
               first.value != e && Current(w.store, first.value) !in w.fates
    ensures SparesHistory(w, DoRelease(w, p, first, clock, lost), e)
  {
    hide ReleaseDueRetry, Agrees;
    ReleaseKeepsOthersPlace(w.store, first, clock, e);
  }

  lemma ReleaseKeepsOthersPlace(s: Store, first: Option<string>, clock: nat, e: string)
    ensures var (s', reply) := ReleaseDueRetry(s, first, clock);
            && s'.deadLetters == s.deadLetters
            && (reply == Ok(1) ==>
                  && first.Some? && Agrees(s, first.value) && s'.lastId == NextId(s.lastId, clock)
                  && first.value in s.statuses && Readable(s.statuses[first.value].streamId))
            && ((reply == Ok(1) && first.value == e) || Current(s', e) == Current(s, e))
  {
  }

  lemma IsolateSpares(w: World, p: nat, lost: bool, e: string)
    requires PcOf(w, p).Unfit? && PendingIsOpen(w, PcOf(w, p).id)
    ensures SparesHistory(w, DoIsolate(w, p, lost), e)
  {
  }

  lemma FinishSpares(w: World, p: nat, e: string)
    requires PcOf(w, p).Taken? && PendingIsOpen(w, PcOf(w, p).m.id)
    ensures SparesHistory(w, DoFinish(w, p), e)
  {
  }

  lemma GiveUpSpares(cfg: Config, w: World, p: nat, due: int, e: string)
    requires PcOf(w, p).Refused? && PendingIsOpen(w, PcOf(w, p).m.id) && Current(w.store, e) !in w.store.pending
    requires var m := PcOf(w, p).m; m.id in w.owner && w.owner[m.id] == m.e
    ensures SparesHistory(w, DoGiveUp(cfg, w, p, due), e)
  {
    hide MoveToDeadLetter, ScheduleRetry;
    var pc := PcOf(w, p);
    BurySparesOthers(w.store, pc.m.e, pc.m.id, ErrorName(pc.error), e);
    ScheduleKeepsPlace(w.store, pc.m.e, pc.m.id, due, ErrorName(pc.error), e);
    var (s, reply) := MoveToDeadLetter(w.store, pc.m.e, pc.m.id, ErrorName(pc.error));
    if Buries(cfg.policy(p), pc.error, pc.attempt) && reply.Ok? {
      assert w.owner[s.deadLetters[|w.store.deadLetters|].source] == pc.m.e;
    }
  }

  lemma BurySparesOthers(s: Store, d: string, id: StreamId, error: string, e: string)
    ensures var (s', reply) := MoveToDeadLetter(s, d, id, error);
            && Current(s', e) == Current(s, e)
            && (reply.Err? ==> s' == s)
            && (reply.Ok? ==>
                  && id in s.pending && Current(s, d) == id
                  && |s'.deadLetters| == |s.deadLetters| + 1
                  && s'.deadLetters[..|s.deadLetters|] == s.deadLetters
                  && s'.deadLetters[|s.deadLetters|].source == id)
  {
  }

  lemma ScheduleKeepsPlace(s: Store, d: string, id: StreamId, due: int, error: string, e: string)
    ensures var s' := ScheduleRetry(s, d, id, due, error).0;
            && Current(s', e) == Current(s, e) && s'.deadLetters == s.deadLetters && s'.entries == s.entries
            && s'.pending == s.pending
  {
  }

  lemma ReleasedIsOther(w: World, d: string, e: string)
    requires Inv(w) && Agrees(w.store, d) && e in w.accepted && Finished(w, e)
    ensures d != e && Current(w.store, d) !in w.fates
  {
    FinishedIsNotPending(w, e);
    assert Current(w.store, d) in w.fates ==> FateOk(w, Current(w.store, d));
  }

  lemma StepSpares(cfg: Config, w: World, step: Step, e: string)
    requires Inv(w) && Enabled(w, step) && e in w.accepted && Finished(w, e)
    ensures SparesHistory(w, Apply(cfg, w, step), e)
  {
    hide Core, Witnesses, SparesHistory;
    FinishedIsNotPending(w, e);
    match step
    case Accept(d, c, clock) => FreshIdIsNew(w, clock); AcceptSpares(w, d, c, clock, e);
    case AcceptKeyed(k, d, c, clock) =>
      FreshIdIsNew(w, clock);
      AcceptKeyedSpares(w, k, Fingerprint(cfg, c), d, c, clock, e);
    case Release(p, now, first, clock, lost) =>
      FreshIdIsNew(w, clock);
      if first.Some? && Agrees(w.store, first.value) { ReleasedIsOther(w, first.value, e); }
      ReleaseSpares(w, p, first, clock, lost, e);
    case Isolate(p, lost) => HeldIsOpen(w, p); IsolateSpares(w, p, lost, e);
    case Finish(p) => HeldIsOpen(w, p); FinishSpares(w, p, e);
    case GiveUp(p, due) => HeldIsOpen(w, p); GiveUpSpares(cfg, w, p, due, e);
    case _ => QuietStepSpares(cfg, w, step, e);
  }

  predicate Quiet(step: Step) {
    step.Crash? || step.Ensure? || step.Scan? || step.Reread? || step.Read? || step.Begin? || step.CallSink?
  }

  /** Nothing is posted, acknowledged or buried, and no event moves to another message. */
  ghost predicate QuietChange(w: World, w': World) {
    && w'.owner == w.owner && w'.fates == w.fates && w'.store.deadLetters == w.store.deadLetters
    && w'.store.quarantined == w.store.quarantined
    && w'.accepted == w.accepted && w'.keyless == w.keyless && w'.store.index == w.store.index
    && w'.store.entries == w.store.entries
    && forall e :: Current(w'.store, e) == Current(w.store, e)
  }

  /** Nor does any status or retry entry change. */
  ghost predicate StillChange(w: World, w': World) {
    && QuietChange(w, w') && w'.store.statuses == w.store.statuses && w'.store.retries == w.store.retries
  }

  lemma BeginIsQuiet(w: World, p: nat, lost: bool)
    requires PcOf(w, p).Holding?
    ensures QuietChange(w, DoBegin(w, p, lost))
  {
    hide StartDelivery;
    StartChangesStatusOnly(w.store, PcOf(w, p).m.e, PcOf(w, p).m.id);
  }

  lemma StartChangesStatusOnly(s: Store, e: string, id: StreamId)
    ensures var s' := StartDelivery(s, e, id).0;
            && s'.entries == s.entries && s'.deadLetters == s.deadLetters && s'.index == s.index
            && s'.quarantined == s.quarantined
            && forall d :: Current(s', d) == Current(s, d)
  {
    var s' := StartDelivery(s, e, id).0;
    if Bound(s, e, id) {
      assert s'.statuses == s.statuses[e := s'.statuses[e]];
      assert Current(s', e) == id;
    }
  }

  lemma CallIsQuiet(w: World, p: nat, response: Response)
    requires PcOf(w, p).Started?
    ensures StillChange(w, DoCall(w, p, response))
  {
    hide RedisClassify;
  }

  lemma EnsureIsQuiet(w: World, p: nat, lost: bool)
    ensures StillChange(w, DoEnsure(w, p, lost))
  {
  }

  lemma ScanIsQuiet(w: World, p: nat, now: int, found: Option<StreamId>, lost: bool)
    requires found.Some? ==> found.value in w.store.entries
    ensures StillChange(w, DoScan(w, p, now, found, lost))
  {
  }

  lemma ReadIsQuiet(cfg: Config, w: World, p: nat, now: int, found: Option<StreamId>, lost: bool)
    requires found.Some? ==> found.value in w.store.entries
    ensures StillChange(w, DoRead(cfg, w, p, now, found, lost))
  {
    hide Decoded;
  }

  lemma RereadIsQuiet(cfg: Config, w: World, p: nat)
    requires PcOf(w, p).Claimed?
    ensures StillChange(w, DoReread(cfg, w, p)) && StillChange(w, Goto(w, p, Ready))
  {
    hide Decoded;
  }

  lemma CrashIsQuiet(w: World, p: nat)
    ensures StillChange(w, Goto(w, p, Ready))
  {
  }

  lemma QuietStep(cfg: Config, w: World, step: Step)
    requires Enabled(w, step) && Quiet(step)
    ensures QuietChange(w, Apply(cfg, w, step))
    ensures !step.Begin? ==> StillChange(w, Apply(cfg, w, step))
  {
    hide QuietChange, DoEnsure, DoScan, DoRead, DoBegin, DoCall, DoReread, ScanFinds, NextUnread, FirstDue, Due;
    match step
    case Crash(p) => CrashIsQuiet(w, p);
    case Ensure(p, lost) => EnsureIsQuiet(w, p, lost);
    case Scan(p, now, minIdle, found, lost) =>
      ScanIsInStream(w, now, minIdle, found);
      ScanIsQuiet(w, p, now, found, lost);
    case Reread(p) => RereadIsQuiet(cfg, w, p);
    case Read(p, now, found, lost) => ReadIsInStream(w, found); ReadIsQuiet(cfg, w, p, now, found, lost);
    case Begin(p, lost) => BeginIsQuiet(w, p, lost);
    case CallSink(p, response) => CallIsQuiet(w, p, response);
  }

  lemma ScanIsInStream(w: World, now: int, minIdle: int, found: Option<StreamId>)
    requires ScanFinds(w.store, now, minIdle, found)
    ensures found.Some? ==> found.value in w.store.entries
  {
  }

  lemma ReadIsInStream(w: World, found: Option<StreamId>)
    requires NextUnread(w.store, found)
    ensures found.Some? ==> found.value in w.store.entries
  {
  }

  lemma QuietStepSpares(cfg: Config, w: World, step: Step, e: string)
    requires Enabled(w, step) && Quiet(step)
    ensures SparesHistory(w, Apply(cfg, w, step), e)
  {
    hide Apply, Enabled;
    QuietStep(cfg, w, step);
  }

  lemma StepKeepsFinished(cfg: Config, w: World, step: Step, e: string)
    requires Inv(w) && Enabled(w, step) && e in w.accepted && Finished(w, e)
    ensures e in Apply(cfg, w, step).accepted && SameHistory(w, Apply(cfg, w, step), e)
  {
    StepSpares(cfg, w, step, e);
    SparedIsSame(w, Apply(cfg, w, step), e);
    AcceptanceStays(cfg, w, step, e);
  }

  lemma HasStatusHash(w: World, e: string)
    requires Inv(w) && e in w.accepted
    ensures e in w.store.statuses
  {
  }

  lemma AcceptanceStays(cfg: Config, w: World, step: Step, e: string)
    requires Enabled(w, step) && e in w.accepted && e in w.store.statuses
    ensures e in Apply(cfg, w, step).accepted && Apply(cfg, w, step).accepted[e] == w.accepted[e]
  {
    if Quiet(step) {
      QuietStep(cfg, w, step);
    }
  }

  /**
   Once an event has finished, no step of any worker, however stale, changes how it finished, posts another
   message for it or adds a dead-letter record.
   */
  lemma {:induction false} FinishedForever(cfg: Config, ws: seq<World>, steps: seq<Step>, i: nat, j: nat, e: string)
    requires IsRun(cfg, ws, steps) && i <= j < |ws| && e in ws[i].accepted && Finished(ws[i], e)
    ensures e in ws[j].accepted && SameHistory(ws[i], ws[j], e)
  {
    hide IsRun, Inv, Apply, Enabled, Finished;
    if i < j {
      FinishedForever(cfg, ws, steps, i, j - 1, e);
      RunKeeps(cfg, ws, steps, j - 1);
      RunStep(cfg, ws, steps, j - 1);
      StepKeepsFinished(cfg, ws[j - 1], steps[j - 1], e);
    }
  }
}
