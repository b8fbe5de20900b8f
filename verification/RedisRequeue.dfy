/**
 How often an event is put on the stream, and what every copy of it says. Both hold under full interleaving,
 although crashes can push an event's attempt count past the maximum.
 */
module RedisRequeue {
  import opened Options
  import opened DeliveryPolicy
  import opened RedisStore
  import opened RedisWorld
  import opened RedisSafety
  import opened RedisGuarantees

  // ---------------------------------------------------------------- bounded requeue

  /** Every worker buries at `most` attempts or earlier. */
  ghost predicate Capped(cfg: Config, most: int) {
    most >= 1 && forall p: nat :: cfg.policy(p).maximum.Some? && cfg.policy(p).maximum.value <= most
  }

  predicate Attempting(pc: Pc) { pc.Started? || pc.Taken? || pc.Refused? }

  /** An attempt number is no newer than the event's counter, and covers every message posted so far. */
  predicate Charged(w: World, pc: Pc) {
    Attempting(pc) ==>
      && AttemptsOf(w.store, pc.m.e) >= pc.attempt
      && (pc.m.id == Current(w.store, pc.m.e) ==> pc.attempt >= |Messages(w, pc.m.e)|)
  }

  predicate Affordable(w: World, e: string, most: int) {
    var n := |Messages(w, e)|;
    && n <= most && AttemptsOf(w.store, e) >= n - 1
    && (StatusOf(w.store, e) == Some(RetryScheduled) ==> n < most && AttemptsOf(w.store, e) >= n)
  }

  ghost predicate Budget(w: World, most: int) {
    && (forall e {:trigger Affordable(w, e, most)} :: e in w.accepted ==> Affordable(w, e, most))
    && (forall p {:trigger w.pcs[p]} :: p in w.pcs ==> Charged(w, w.pcs[p]))
  }

  /** A step that posts nothing, counts no attempt and schedules no retry. */
  ghost predicate Frugal(w: World, w': World, p: nat) {
    && w'.owner == w.owner && w'.accepted == w.accepted
    && p in w'.pcs && w'.pcs == w.pcs[p := w'.pcs[p]]
    && (Attempting(w'.pcs[p]) ==>
          Attempting(PcOf(w, p)) && w'.pcs[p].m == PcOf(w, p).m && w'.pcs[p].attempt == PcOf(w, p).attempt)
    && SameBooks(w.store, w'.store)
  }

  ghost predicate SameBooks(s: Store, s': Store) {
    forall e {:trigger Current(s', e)} {:trigger AttemptsOf(s', e)} {:trigger StatusOf(s', e)} ::
      && Current(s', e) == Current(s, e) && AttemptsOf(s', e) == AttemptsOf(s, e)
      && (StatusOf(s', e) == Some(RetryScheduled) ==> StatusOf(s, e) == Some(RetryScheduled))
  }

  lemma FrugalKeepsBudget(w: World, w': World, p: nat, most: int)
    requires Budget(w, most) && Frugal(w, w', p)
    ensures Budget(w', most)
  {
    forall e | e in w'.accepted ensures Affordable(w', e, most) {
      assert Affordable(w, e, most);
      assert Messages(w', e) == Messages(w, e);
    }
    forall q | q in w'.pcs ensures Charged(w', w'.pcs[q]) {
      assert q != p ==> Charged(w, w.pcs[q]);
      assert q == p && p in w.pcs ==> Charged(w, w.pcs[p]);
      assert Attempting(w'.pcs[q]) ==> Messages(w', w'.pcs[q].m.e) == Messages(w, w'.pcs[q].m.e);
    }
  }

  lemma MoveIsFrugal(w: World, p: nat, pc: Pc)
    requires !Attempting(pc)
    ensures Frugal(w, Goto(w, p, pc), p)
  {
  }

  lemma EnsureIsFrugal(w: World, p: nat, lost: bool)
    ensures Frugal(w, DoEnsure(w, p, lost), p)
  {
  }

  lemma ScanIsFrugal(w: World, p: nat, now: int, found: Option<StreamId>, lost: bool)
    requires found.Some? ==> found.value in w.store.entries
    ensures Frugal(w, DoScan(w, p, now, found, lost), p)
  {
  }

  lemma ReadIsFrugal(cfg: Config, w: World, p: nat, now: int, found: Option<StreamId>, lost: bool)
    requires found.Some? ==> found.value in w.store.entries
    ensures Frugal(w, DoRead(cfg, w, p, now, found, lost), p)
  {
  }

  lemma CallIsFrugal(w: World, p: nat, response: Response)
    requires PcOf(w, p).Started?
    ensures Frugal(w, DoCall(w, p, response), p)
  {
    hide RedisClassify;
  }

  lemma CompletionKeepsBooks(s: Store, e: string, id: StreamId)
    ensures SameBooks(s, CompleteDelivery(s, e, id).0)
  {
  }

  lemma FinishIsFrugal(w: World, p: nat)
    requires PcOf(w, p).Taken?
    ensures Frugal(w, DoFinish(w, p), p)
  {
    hide CompleteDelivery, SameBooks;
    CompletionKeepsBooks(w.store, PcOf(w, p).m.e, PcOf(w, p).m.id);
  }

  lemma QuarantineKeepsBooks(s: Store, id: StreamId, reason: string)
    ensures SameBooks(s, Quarantine(s, id, reason).0)
  {
  }

  lemma IsolateIsFrugal(w: World, p: nat, lost: bool)
    requires PcOf(w, p).Unfit?
    ensures Frugal(w, DoIsolate(w, p, lost), p)
  {
    hide Quarantine, SameBooks;
    QuarantineKeepsBooks(w.store, PcOf(w, p).id, PcOf(w, p).reason);
  }

  lemma BurialKeepsBooks(s: Store, e: string, id: StreamId, error: string)
    ensures SameBooks(s, MoveToDeadLetter(s, e, id, error).0) && SameBooks(s, s)
  {
  }

  lemma BuryIsFrugal(cfg: Config, w: World, p: nat, due: int)
    requires PcOf(w, p).Refused? && !Retries(cfg.policy(p), PcOf(w, p).error, PcOf(w, p).attempt)
    ensures Frugal(w, DoGiveUp(cfg, w, p, due), p)
  {
    hide MoveToDeadLetter, SameBooks;
    BurialKeepsBooks(w.store, PcOf(w, p).m.e, PcOf(w, p).m.id, ErrorName(PcOf(w, p).error));
  }

  lemma RemovalIsFrugal(w: World, p: nat, first: Option<string>, clock: nat, lost: bool)
    requires ReleaseDueRetry(w.store, first, clock).1 != Ok(1)
    ensures Frugal(w, DoRelease(w, p, first, clock, lost), p)
  {
  }

  // ---------------------------------------------------------------- the three steps that spend

  lemma CreateKeepsBudget(w: World, w': World, e: string, c: Content, clock: nat, most: int)
    requires Inv(w) && Budget(w, most) && most >= 1 && Creates(w, w', e, c, clock) && w'.pcs == w.pcs
    ensures Budget(w', most)
  {
    var id := NextId(w.store.lastId, clock);
    FreshIdIsNew(w, clock);
    forall x | x in w.owner ensures w.owner[x] in w.accepted { assert EntryOk(w, x); }
    assert Messages(w', e) == {id};
    forall d | d in w'.accepted ensures Affordable(w', d, most) {
      if d != e {
        assert Affordable(w, d, most);
        assert Messages(w', d) == Messages(w, d);
      }
    }
    forall p | p in w'.pcs ensures Charged(w', w'.pcs[p]) {
      assert Charged(w, w.pcs[p]) && PcOk(w, w.pcs[p]);
      assert Attempting(w.pcs[p]) ==> Messages(w', w.pcs[p].m.e) == Messages(w, w.pcs[p].m.e);
    }
  }

  lemma RequeueCounts(s: Store, e: string, clock: nat, d: string)
    requires Agrees(s, e)
    ensures var s' := Requeue(s, e, clock);
            && AttemptsOf(s', d) == AttemptsOf(s, d)
            && Current(s', d) == (if d == e then NextId(s.lastId, clock) else Current(s, d))
            && StatusOf(s', d) == (if d == e then Some(Queued) else StatusOf(s, d))
            && StatusOf(s, e) == Some(RetryScheduled)
  {
  }

  lemma RequeueKeepsBudget(w: World, w': World, e: string, clock: nat, p: nat, most: int)
    requires Inv(w) && Budget(w, most) && Requeues(w, w', e, clock)
    requires p in w'.pcs && w'.pcs == w.pcs[p := w'.pcs[p]] && !Attempting(w'.pcs[p])
    ensures Budget(w', most)
  {
    hide Requeue, Agrees, Current, AttemptsOf, StatusOf;
    RequeueAddsMessage(w, w', e, clock);
    forall d | d in w'.accepted ensures Affordable(w', d, most) {
      assert Affordable(w, d, most);
      RequeueCounts(w.store, e, clock, d);
    }
    forall q | q in w'.pcs ensures Charged(w', w'.pcs[q]) {
      if q != p { RequeueKeepsCharge(w, w', e, clock, w.pcs[q]); }
    }
  }

  lemma RequeueAddsMessage(w: World, w': World, e: string, clock: nat)
    requires Inv(w) && Requeues(w, w', e, clock)
    ensures |Messages(w', e)| == |Messages(w, e)| + 1
    ensures forall d :: d != e ==> Messages(w', d) == Messages(w, d)
  {
    FreshIdIsNew(w, clock);
    assert Messages(w', e) == Messages(w, e) + {NextId(w.store.lastId, clock)};
  }

  lemma RequeueKeepsCharge(w: World, w': World, e: string, clock: nat, pc: Pc)
    requires Inv(w) && Requeues(w, w', e, clock) && Charged(w, pc) && PcOk(w, pc)
    ensures Charged(w', pc)
  {
    RequeueAddsMessage(w, w', e, clock);
    FreshIdIsNew(w, clock);
    if Attempting(pc) { RequeueCounts(w.store, e, clock, pc.m.e); }
  }

  lemma StartCounts(s: Store, e: string, id: StreamId, d: string)
    requires HasHash(s, e) && s.statuses[e].attempts.Number?
    ensures var (s', reply) := StartDelivery(s, e, id);
            && Current(s', d) == Current(s, d)
            && (reply.Err? <==> s' == s) && (reply.Err? <==> !Bound(s, e, id))
            && AttemptsOf(s', d) == AttemptsOf(s, d) + (if reply.Ok? && d == e then 1 else 0)
            && (StatusOf(s', d) == Some(RetryScheduled) ==> StatusOf(s, d) == Some(RetryScheduled))
            && (reply.Ok? ==> reply.value == AttemptsOf(s, e) + 1 && Current(s, e) == id)
  {
  }

  lemma BeginKeepsBudget(w: World, p: nat, lost: bool, most: int)
    requires Inv(w) && Budget(w, most) && PcOf(w, p).Holding?
    ensures Budget(DoBegin(w, p, lost), most)
  {
    hide StartDelivery, Current, AttemptsOf, StatusOf;
    var w' := DoBegin(w, p, lost);
    var m := PcOf(w, p).m;
    PcLookup(w, p);
    assert HashOk(w, m.e);
    assert Affordable(w, m.e, most);
    forall d ensures Messages(w', d) == Messages(w, d) {}
    forall d | d in w'.accepted ensures Affordable(w', d, most) {
      assert Affordable(w, d, most);
      StartCounts(w.store, m.e, m.id, d);
    }
    forall q | q in w'.pcs ensures Charged(w', w'.pcs[q]) {
      assert q != p ==> Charged(w, w.pcs[q]);
      if Attempting(w'.pcs[q]) {
        StartCounts(w.store, m.e, m.id, w'.pcs[q].m.e);
        assert q == p ==> w'.pcs[q] == Started(m, StartDelivery(w.store, m.e, m.id).1.value);
      }
    }
  }

  lemma ScheduleKeepsBudget(cfg: Config, w: World, p: nat, due: int, most: int)
    requires Inv(w) && Budget(w, most) && Capped(cfg, most)
    requires PcOf(w, p).Refused? && Retries(cfg.policy(p), PcOf(w, p).error, PcOf(w, p).attempt)
    ensures Budget(DoGiveUp(cfg, w, p, due), most)
  {
    var w' := DoGiveUp(cfg, w, p, due);
    var pc := PcOf(w, p);
    assert Charged(w, w.pcs[p]);
    assert pc.attempt < cfg.policy(p).maximum.value <= most;
    forall d | d in w'.accepted ensures Affordable(w', d, most) {
      assert Affordable(w, d, most);
      assert Messages(w', d) == Messages(w, d);
    }
    forall q | q in w'.pcs ensures Charged(w', w'.pcs[q]) {
      assert q != p ==> Charged(w, w.pcs[q]);
      assert Attempting(w'.pcs[q]) ==> Messages(w', w'.pcs[q].m.e) == Messages(w, w'.pcs[q].m.e);
    }
  }

  lemma AcceptKeepsBudget(cfg: Config, w: World, step: Step, most: int)
    requires Inv(w) && Budget(w, most) && most >= 1 && Enabled(w, step) && (step.Accept? || step.AcceptKeyed?)
    ensures Budget(Apply(cfg, w, step), most)
  {
    var w' := Apply(cfg, w, step);
    if w' != w {
      CreateKeepsBudget(w, w', step.e, step.c, step.clock, most);
    }
  }

  lemma ReleaseKeepsBudget(w: World, p: nat, first: Option<string>, clock: nat, lost: bool, most: int)
    requires Inv(w) && Budget(w, most)
    ensures Budget(DoRelease(w, p, first, clock, lost), most)
  {
    var w' := DoRelease(w, p, first, clock, lost);
    if ReleaseDueRetry(w.store, first, clock).1 == Ok(1) {
      KnownWhenAgreed(w, first.value);
      assert HashOk(w, first.value);
      RequeueKeepsBudget(w, w', first.value, clock, p, most);
    } else {
      RemovalIsFrugal(w, p, first, clock, lost);
      FrugalKeepsBudget(w, w', p, most);
    }
  }

  lemma FrugalStep(cfg: Config, w: World, step: Step, most: int)
    requires Enabled(w, step) && Budget(w, most) && Quiet(step) && !step.Begin?
    ensures Budget(Apply(cfg, w, step), most)
  {
    hide Budget, Frugal, DoEnsure, DoScan, DoRead, DoCall, ScanFinds, NextUnread, FirstDue, Due, Decoded;
    FrugalKeepsBudget(w, Apply(cfg, w, step), step.p, most) by {
      match step
      case Crash(p) => MoveIsFrugal(w, p, Ready);
      case Ensure(p, lost) => EnsureIsFrugal(w, p, lost);
      case Scan(p, now, minIdle, found, lost) =>
        ScanIsInStream(w, now, minIdle, found);
        ScanIsFrugal(w, p, now, found, lost);
      case Reread(p) => RereadIsFrugal(cfg, w, p);
      case Read(p, now, found, lost) => ReadIsInStream(w, found); ReadIsFrugal(cfg, w, p, now, found, lost);
      case CallSink(p, response) => CallIsFrugal(w, p, response);
    }
  }

  lemma RereadIsFrugal(cfg: Config, w: World, p: nat)
    requires PcOf(w, p).Claimed?
    ensures Frugal(w, DoReread(cfg, w, p), p)
  {
  }

  lemma StepKeepsBudget(cfg: Config, w: World, step: Step, most: int)
    requires Inv(w) && Budget(w, most) && Capped(cfg, most) && Enabled(w, step)
    ensures Budget(Apply(cfg, w, step), most)
  {
    hide Core, Witnesses, Budget, Frugal;
    match step
    case Accept(_, _, _) => AcceptKeepsBudget(cfg, w, step, most);
    case AcceptKeyed(_, _, _, _) => AcceptKeepsBudget(cfg, w, step, most);
    case Release(p, now, first, clock, lost) => ReleaseKeepsBudget(w, p, first, clock, lost, most);
    case Begin(p, lost) => BeginKeepsBudget(w, p, lost, most);
    case Isolate(p, lost) => IsolateIsFrugal(w, p, lost); FrugalKeepsBudget(w, DoIsolate(w, p, lost), p, most);
    case Finish(p) => FinishIsFrugal(w, p); FrugalKeepsBudget(w, DoFinish(w, p), p, most);
    case GiveUp(p, due) =>
      if Retries(cfg.policy(p), PcOf(w, p).error, PcOf(w, p).attempt) {
        ScheduleKeepsBudget(cfg, w, p, due, most);
      } else {
        BuryIsFrugal(cfg, w, p, due);
        FrugalKeepsBudget(w, DoGiveUp(cfg, w, p, due), p, most);
      }
    case _ => FrugalStep(cfg, w, step, most);
  }

  lemma {:induction false} RunKeepsBudget(cfg: Config, ws: seq<World>, steps: seq<Step>, i: nat, most: int)
    requires IsRun(cfg, ws, steps) && i < |ws| && Capped(cfg, most)
    ensures Budget(ws[i], most)
  {
    if i > 0 {
      hide IsRun, Inv, Budget, Capped, Apply, Enabled;
      RunKeepsBudget(cfg, ws, steps, i - 1, most);
      RunKeeps(cfg, ws, steps, i - 1);
      RunStep(cfg, ws, steps, i - 1);
      StepKeepsBudget(cfg, ws[i - 1], steps[i - 1], most);
    }
  }

  /** The stream messages that name an event. */
  function PostedFor(s: Store, e: string): set<StreamId> {
    set id | id in s.entries && FieldValue(s.entries[id], "event_id") == Some(e)
  }

  /**
   Bounded requeue: in any run, an event is put on the stream at most as often as the largest maximum in use,
   however many crashes its deliveries meet.
   */
  lemma BoundedRequeue(cfg: Config, ws: seq<World>, steps: seq<Step>, i: nat, most: int, e: string)
    requires IsRun(cfg, ws, steps) && i < |ws| && Capped(cfg, most)
    ensures |PostedFor(ws[i].store, e)| <= most
  {
    RunKeepsBudget(cfg, ws, steps, i, most);
    RunKeeps(cfg, ws, steps, i);
    var w := ws[i];
    forall id | id in w.store.entries
      ensures FieldValue(w.store.entries[id], "event_id") == Some(w.owner[id]) && w.owner[id] in w.accepted
    {
      assert EntryOk(w, id);
      EncodeFields(w.owner[id], w.accepted[w.owner[id]]);
    }
    assert PostedFor(w.store, e) == Messages(w, e);
    if e in w.accepted {
      assert Affordable(w, e, most);
    } else {
      assert PostedFor(w.store, e) == {};
    }
  }

  // ---------------------------------------------------------------- contents

  /** What was accepted under an id stays what it was. */
  lemma {:induction false} AcceptedForever(cfg: Config, ws: seq<World>, steps: seq<Step>, i: nat, j: nat, e: string)
    requires IsRun(cfg, ws, steps) && i <= j < |ws| && e in ws[i].accepted
    ensures e in ws[j].accepted && ws[j].accepted[e] == ws[i].accepted[e]
  {
    if i < j {
      hide IsRun, Apply, Enabled, Core, Witnesses;
      AcceptedForever(cfg, ws, steps, i, j - 1, e);
      RunKeeps(cfg, ws, steps, j - 1);
      HasStatusHash(ws[j - 1], e);
      RunStep(cfg, ws, steps, j - 1);
      AcceptanceStays(cfg, ws[j - 1], steps[j - 1], e);
    }
  }

  /**
   Every stream message of an event, every dead-letter record made from one and every request sent downstream
   carries exactly the event type, payload and acceptance time first accepted.
   */
  lemma ContentsAreAsAccepted(cfg: Config, ws: seq<World>, steps: seq<Step>, i: nat, j: nat, e: string)
    requires IsRun(cfg, ws, steps) && i <= j < |ws| && e in ws[i].accepted
    ensures forall id :: id in ws[j].owner && ws[j].owner[id] == e ==>
              id in ws[j].store.entries && ws[j].store.entries[id] == Encode(e, ws[i].accepted[e])
    ensures forall k :: k in Burials(ws[j], e) ==> ws[j].store.deadLetters[k].fields == Encode(e, ws[i].accepted[e])
    ensures forall k :: 0 <= k < |ws[j].calls| && ws[j].calls[k].e == e ==> ws[j].calls[k].c == ws[i].accepted[e]
  {
    AcceptedForever(cfg, ws, steps, i, j, e);
    RunKeeps(cfg, ws, steps, j);
    var w := ws[j];
    forall id | id in w.owner && w.owner[id] == e
      ensures id in w.store.entries && w.store.entries[id] == Encode(e, w.accepted[e])
    {
      assert EntryOk(w, id);
    }
    forall k | k in Burials(w, e)
      ensures w.store.deadLetters[k].fields == Encode(e, w.accepted[e])
    {
      assert RecordOk(w, w.store.deadLetters[k]);
    }
    forall k | 0 <= k < |w.calls| && w.calls[k].e == e
      ensures w.calls[k].c == w.accepted[e]
    {
      assert CallOk(w, w.calls[k]);
    }
  }

  /** In this step the sink answers a call for `e` with a code from 200 to 299, or with one below 100. */
  predicate TakesNow(w: World, step: Step, e: string) {
    && step.CallSink? && PcOf(w, step.p).Started? && PcOf(w, step.p).m.e == e
    && step.response.Status? && (200 <= step.response.code < 300 || step.response.code < 100)
  }

  lemma StepTakes(cfg: Config, w: World, step: Step, e: string)
    requires Enabled(w, step)
    ensures e in Apply(cfg, w, step).taken <==> e in w.taken || TakesNow(w, step, e)
  {
    if step.CallSink? {
      hide Decoded;
    } else {
      hide Apply, Enabled;
      OthersTakeNothing(cfg, w, step);
    }
  }

  lemma OthersTakeNothing(cfg: Config, w: World, step: Step)
    requires Enabled(w, step) && !step.CallSink?
    ensures Apply(cfg, w, step).taken == w.taken
  {
    hide Decoded, ReleaseDueRetry, Enqueue, EnqueueKeyed, EnsureGroup, Quarantine, StartDelivery, CompleteDelivery,
         MoveToDeadLetter, ScheduleRetry, ScanFinds, NextUnread, FirstDue, Dispose, Take, Deliver, Buries, Retries,
         ErrorName, RedisClassify;
  }

  /** The sink has taken an event exactly when it has answered one of its calls so. */
  lemma {:induction false} TakenIffAnswered(cfg: Config, ws: seq<World>, steps: seq<Step>, i: nat, e: string)
    requires IsRun(cfg, ws, steps) && i < |ws|
    ensures e in ws[i].taken <==> exists k :: 0 <= k < i && TakesNow(ws[k], steps[k], e)
  {
    hide Apply, Enabled, TakesNow;
    if i > 0 {
      hide IsRun;
      TakenIffAnswered(cfg, ws, steps, i - 1, e);
      RunStep(cfg, ws, steps, i - 1);
      StepTakes(cfg, ws[i - 1], steps[i - 1], e);
    }
  }
}
