/**
 Acceptance under idempotency keys, and what the queue gauges count, over whole runs.
 */
module RedisAcceptance {
  import opened Options
  import opened DeliveryPolicy
  import opened RedisStore
  import opened RedisWorld
  import opened RedisSafety
  import opened RedisGuarantees

  // ---------------------------------------------------------------- idempotent acceptance

  predicate KeyOk(cfg: Config, w: World, k: string) {
    && k in w.store.index && w.store.index[k].eventId.Some?
    && var e := w.store.index[k].eventId.value;
    && e in w.accepted && e !in w.keyless
    && w.store.index[k].fingerprint == Some(Fingerprint(cfg, w.accepted[e]))
  }

  ghost predicate Keyed(cfg: Config, w: World) {
    && w.keyless <= w.accepted.Keys
    && |w.accepted| == |w.store.index| + |w.keyless|
    && (forall k {:trigger KeyOk(cfg, w, k)} :: k in w.store.index ==> KeyOk(cfg, w, k))
    && (forall k, l {:trigger w.store.index[k], w.store.index[l]} ::
          k in w.store.index && l in w.store.index && k != l ==>
            w.store.index[k].eventId != w.store.index[l].eventId)
  }

  /** Acceptance state is touched by acceptance steps only. */
  ghost predicate SameAcceptance(w: World, w': World) {
    w'.accepted == w.accepted && w'.keyless == w.keyless && w'.store.index == w.store.index
  }

  lemma WorkerStepAcceptsNothing(cfg: Config, w: World, step: Step)
    requires Enabled(w, step) && !step.Accept? && !step.AcceptKeyed?
    ensures SameAcceptance(w, Apply(cfg, w, step))
  {
    hide FirstDue, Due, CompleteDelivery, MoveToDeadLetter, Quarantine, ReleaseDueRetry, ScheduleRetry;
    match step
    case Release(p, now, first, clock, lost) => ReleaseKeepsIndex(w.store, first, clock);
    case Isolate(p, lost) => QuarantineKeepsIndex(w.store, PcOf(w, p).id, PcOf(w, p).reason);
    case Finish(p) => DeliveryKeepsIndex(w.store, PcOf(w, p).m, 0, "");
    case GiveUp(p, due) => DeliveryKeepsIndex(w.store, PcOf(w, p).m, due, ErrorName(PcOf(w, p).error));
    case _ => QuietStep(cfg, w, step);
  }

  lemma ReleaseKeepsIndex(s: Store, first: Option<string>, clock: nat)
    ensures ReleaseDueRetry(s, first, clock).0.index == s.index
  {
  }

  lemma QuarantineKeepsIndex(s: Store, id: StreamId, reason: string)
    ensures Quarantine(s, id, reason).0.index == s.index
  {
  }

  lemma DeliveryKeepsIndex(s: Store, m: Held, due: int, error: string)
    ensures CompleteDelivery(s, m.e, m.id).0.index == s.index
    ensures ScheduleRetry(s, m.e, m.id, due, error).0.index == s.index
    ensures MoveToDeadLetter(s, m.e, m.id, error).0.index == s.index
  {
  }

  lemma AcceptKeepsKeyed(cfg: Config, w: World, e: string, c: Content, clock: nat)
    requires Inv(w) && Keyed(cfg, w)
    ensures Keyed(cfg, DoAccept(w, e, c, clock))
  {
    var w' := DoAccept(w, e, c, clock);
    forall k | k in w'.store.index ensures KeyOk(cfg, w', k) { assert KeyOk(cfg, w, k); }
  }

  lemma AcceptKeyedKeepsKeyed(cfg: Config, w: World, k: string, e: string, c: Content, clock: nat)
    requires Inv(w) && Keyed(cfg, w)
    ensures Keyed(cfg, DoAcceptKeyed(w, k, Fingerprint(cfg, c), e, c, clock))
  {
    var w' := DoAcceptKeyed(w, k, Fingerprint(cfg, c), e, c, clock);
    BindsOrLeaves(cfg, w, k, e, c, clock);
    hide DoAcceptKeyed, Inv;
    if w' != w { BindingKeepsKeyed(cfg, w, w', k, e, c); }
  }

  /** A keyed request binds a new key to a new event, or changes nothing. */
  ghost predicate Binds(cfg: Config, w: World, w': World, k: string, e: string, c: Content) {
    && k !in w.store.index && e !in w.accepted
    && w'.store.index == w.store.index[k := Binding(Some(e), Some(Fingerprint(cfg, c)))]
    && w'.accepted == w.accepted[e := c] && w'.keyless == w.keyless
  }

  lemma BindsOrLeaves(cfg: Config, w: World, k: string, e: string, c: Content, clock: nat)
    requires Inv(w)
    ensures var w' := DoAcceptKeyed(w, k, Fingerprint(cfg, c), e, c, clock); w' == w || Binds(cfg, w, w', k, e, c)
  {
    hide Witnesses, HashOk, Placed, EntryOk, FateOk;
  }

  lemma BindingKeepsKeyed(cfg: Config, w: World, w': World, k: string, e: string, c: Content)
    requires Keyed(cfg, w) && Binds(cfg, w, w', k, e, c)
    ensures Keyed(cfg, w')
  {
    BindingCounts(cfg, w, w', k, e, c);
    BindingSeparates(cfg, w, w', k, e, c);
    forall l | l in w'.store.index ensures KeyOk(cfg, w', l) {
      assert l in w.store.index ==> KeyOk(cfg, w, l);
    }
  }

  lemma BindingCounts(cfg: Config, w: World, w': World, k: string, e: string, c: Content)
    requires Binds(cfg, w, w', k, e, c)
    ensures |w'.accepted| == |w.accepted| + 1 && |w'.store.index| == |w.store.index| + 1
  {
    assert w'.accepted.Keys == w.accepted.Keys + {e} && w'.store.index.Keys == w.store.index.Keys + {k};
  }

  lemma BindingSeparates(cfg: Config, w: World, w': World, k: string, e: string, c: Content)
    requires Keyed(cfg, w) && Binds(cfg, w, w', k, e, c)
    ensures forall l, m {:trigger w'.store.index[l], w'.store.index[m]} ::
              l in w'.store.index && m in w'.store.index && l != m ==>
                w'.store.index[l].eventId != w'.store.index[m].eventId
  {
    forall l | l in w.store.index ensures w.store.index[l].eventId != Some(e) {
      assert KeyOk(cfg, w, l);
    }
  }

  lemma SameKeepsKeyed(cfg: Config, w: World, w': World)
    requires Keyed(cfg, w) && SameAcceptance(w, w')
    ensures Keyed(cfg, w')
  {
    forall k | k in w'.store.index ensures KeyOk(cfg, w', k) { assert KeyOk(cfg, w, k); }
  }

  lemma {:induction false} RunKeepsKeyed(cfg: Config, ws: seq<World>, steps: seq<Step>, i: nat)
    requires IsRun(cfg, ws, steps) && i < |ws|
    ensures Keyed(cfg, ws[i]) && Inv(ws[i])
  {
    RunKeeps(cfg, ws, steps, i);
    if i > 0 {
      RunKeepsKeyed(cfg, ws, steps, i - 1);
      hide Keyed, Inv;
      var w, step := ws[i - 1], steps[i - 1];
      match step
      case Accept(e, c, clock) => AcceptKeepsKeyed(cfg, w, e, c, clock);
      case AcceptKeyed(k, e, c, clock) => AcceptKeyedKeepsKeyed(cfg, w, k, e, c, clock);
      case _ => WorkerStepAcceptsNothing(cfg, w, step); SameKeepsKeyed(cfg, w, ws[i]);
    }
  }

  /** Accepted events are the distinct keys and the keyless acceptances, no more and no fewer. */
  lemma AcceptedIsKeysPlusKeyless(cfg: Config, ws: seq<World>, steps: seq<Step>, i: nat)
    requires IsRun(cfg, ws, steps) && i < |ws|
    ensures |ws[i].accepted| == |ws[i].store.index| + |ws[i].keyless|
    ensures ws[i].accepted.Keys == ws[i].store.statuses.Keys
  {
    RunKeepsKeyed(cfg, ws, steps, i);
  }

  lemma StepKeepsBinding(cfg: Config, w: World, step: Step, k: string)
    requires Enabled(w, step) && k in w.store.index
    ensures k in Apply(cfg, w, step).store.index && Apply(cfg, w, step).store.index[k] == w.store.index[k]
  {
    hide Apply, Enabled;
    if !step.Accept? && !step.AcceptKeyed? {
      WorkerStepAcceptsNothing(cfg, w, step);
    } else {
      AcceptKeepsBinding(cfg, w, step, k);
    }
  }

  lemma AcceptKeepsBinding(cfg: Config, w: World, step: Step, k: string)
    requires Enabled(w, step) && k in w.store.index && (step.Accept? || step.AcceptKeyed?)
    ensures k in Apply(cfg, w, step).store.index && Apply(cfg, w, step).store.index[k] == w.store.index[k]
  {
  }

  /** A key is bound for good to the first event accepted under it, and to that event's fingerprint. */
  lemma {:induction false} KeyBoundForever(cfg: Config, ws: seq<World>, steps: seq<Step>, i: nat, j: nat, k: string)
    requires IsRun(cfg, ws, steps) && i <= j < |ws| && k in ws[i].store.index
    ensures k in ws[j].store.index && ws[j].store.index[k] == ws[i].store.index[k]
  {
    hide IsRun, Apply, Enabled;
    if i < j {
      KeyBoundForever(cfg, ws, steps, i, j - 1, k);
      RunStep(cfg, ws, steps, j - 1);
      StepKeepsBinding(cfg, ws[j - 1], steps[j - 1], k);
    }
  }

  /** SHA-256 over the canonical request is taken to be injective. */
  ghost predicate Injective(digest: (string, string) -> string) {
    forall t, p, t', p' {:trigger digest(t, p), digest(t', p')} :: digest(t, p) == digest(t', p') ==> t == t' && p == p'
  }

  /**
   A second request under a used key changes nothing: it gets the first event's id when event type and payload
   are the same, and a conflict otherwise.
   */
  lemma UsedKeyChangesNothing(cfg: Config, ws: seq<World>, steps: seq<Step>, i: nat, k: string, e: string,
                              c: Content, clock: nat)
    requires IsRun(cfg, ws, steps) && i < |ws| && k in ws[i].store.index && Injective(cfg.digest)
    ensures var w := ws[i];
            && DoAcceptKeyed(w, k, Fingerprint(cfg, c), e, c, clock) == w
            && w.store.index[k].eventId.Some? && w.store.index[k].eventId.value in w.accepted
            && var first := w.store.index[k].eventId.value;
            && var same := w.accepted[first].eventType == c.eventType && w.accepted[first].payload == c.payload;
               EnqueueKeyed(w.store, k, Fingerprint(cfg, c), e, c, clock)
                 == (w.store, Ok(if same then Reused(first) else Conflict(first)))
  {
    RunKeepsKeyed(cfg, ws, steps, i);
    assert KeyOk(cfg, ws[i], k);
  }

  // ---------------------------------------------------------------- quarantine

  /** Everything accepted so far can be decoded. */
  predicate Decodable(cfg: Config, w: World, e: string) {
    e in w.accepted && cfg.decodes(Encode(e, w.accepted[e]))
  }

  ghost predicate AllDecodable(cfg: Config, w: World) {
    forall e :: e in w.accepted ==> Decodable(cfg, w, e)
  }

  ghost predicate NothingUnfit(w: World) {
    && (forall p {:trigger w.pcs[p]} :: p in w.pcs ==> !w.pcs[p].Unfit?)
    && (forall id {:trigger w.fates[id]} :: id in w.fates ==> w.fates[id] != Quarantined)
  }

  lemma DecodableIsHeld(cfg: Config, w: World, id: StreamId, idleAfter: bool)
    requires Inv(w) && AllDecodable(cfg, w) && id in w.store.entries
    ensures !Decoded(cfg, id, w.store.entries[id], idleAfter).Unfit?
  {
    assert EntryOk(w, id);
    assert HashOk(w, w.owner[id]) && Decodable(cfg, w, w.owner[id]);
    DecodeReturnsAccepted(cfg, id, w.owner[id], w.accepted[w.owner[id]]);
  }

  lemma ScanMovesOne(w: World, p: nat, now: int, found: Option<StreamId>, lost: bool)
    requires found.Some? ==> found.value in w.store.entries
    ensures DoScan(w, p, now, found, lost).pcs == w.pcs[p := PcOf(DoScan(w, p, now, found, lost), p)]
  {
    hide Dispose, Take;
  }

  lemma ReadMovesOne(cfg: Config, w: World, p: nat, now: int, found: Option<StreamId>, lost: bool)
    requires found.Some? ==> found.value in w.store.entries
    ensures DoRead(cfg, w, p, now, found, lost).pcs == w.pcs[p := PcOf(DoRead(cfg, w, p, now, found, lost), p)]
  {
    hide Decoded, Deliver;
  }

  lemma QuietMovesOne(cfg: Config, w: World, step: Step)
    requires Enabled(w, step) && Quiet(step)
    ensures Apply(cfg, w, step).pcs == w.pcs[step.p := PcOf(Apply(cfg, w, step), step.p)]
  {
    if step.Scan? {
      hide DoScan;
      ScanIsInStream(w, step.now, step.minIdle, step.found);
      ScanMovesOne(w, step.p, step.now, step.found, step.lost);
    } else if step.Read? {
      hide DoRead;
      ReadIsInStream(w, step.found);
      ReadMovesOne(cfg, w, step.p, step.now, step.found, step.lost);
    } else {
      hide Decode, Decoded, RedisClassify, StartDelivery, EnsureGroup, DoScan, DoRead, DoRelease, DoIsolate,
           DoFinish, DoGiveUp;
    }
  }

  /** The one worker a step moves does not come to hold an unfit message. */
  lemma MoverIsFit(cfg: Config, w: World, step: Step)
    requires Inv(w) && AllDecodable(cfg, w) && Enabled(w, step) && Quiet(step)
    ensures !PcOf(Apply(cfg, w, step), step.p).Unfit?
  {
    hide Core, Witnesses, AllDecodable, Decode, Decoded, Dispose, RedisClassify, ScanFinds, NextUnread, StartDelivery;
    match step
    case Reread(p) =>
      PcLookup(w, p);
      DecodableIsHeld(cfg, w, PcOf(w, p).id, false);
    case Read(p, now, found, lost) =>
      ReadIsInStream(w, found);
      if found.Some? { DecodableIsHeld(cfg, w, found.value, true); }
    case _ =>
  }

  lemma EndingIsNoQuarantine(cfg: Config, w: World, step: Step)
    requires NothingUnfit(w) && Enabled(w, step) && !Quiet(step)
    ensures NothingUnfit(Apply(cfg, w, step))
  {
    hide FirstDue, Due, CompleteDelivery, MoveToDeadLetter, ReleaseDueRetry, ScheduleRetry, Enqueue, EnqueueKeyed;
  }

  lemma StepIsolatesNothing(cfg: Config, w: World, step: Step)
    requires Inv(w) && AllDecodable(cfg, w) && NothingUnfit(w) && Enabled(w, step)
    ensures NothingUnfit(Apply(cfg, w, step))
  {
    hide Inv, AllDecodable, Apply, Enabled;
    if Quiet(step) {
      MoverIsFit(cfg, w, step);
      QuietMovesOne(cfg, w, step);
      QuietStep(cfg, w, step);
    } else {
      EndingIsNoQuarantine(cfg, w, step);
    }
  }

  /**
   When every accepted request can be decoded by the workers, no message is ever quarantined, under full
   interleaving too: the scan's own consistency check never fails on what Hooklane wrote.
   */
  lemma {:induction false} NothingQuarantined(cfg: Config, ws: seq<World>, steps: seq<Step>, i: nat)
    requires IsRun(cfg, ws, steps) && i < |ws| && AllDecodable(cfg, ws[i])
    ensures NothingUnfit(ws[i])
  {
    if i > 0 {
      var w, w' := ws[i - 1], ws[i];
      RunKeeps(cfg, ws, steps, i - 1);
      forall e | e in w.accepted
        ensures Decodable(cfg, w, e)
      {
        AcceptanceStays(cfg, w, steps[i - 1], e);
        assert Decodable(cfg, w', e);
      }
      NothingQuarantined(cfg, ws, steps, i - 1);
      StepIsolatesNothing(cfg, w, steps[i - 1]);
    }
  }

  // ---------------------------------------------------------------- gauges

  function LiveIds(s: Store): set<StreamId> {
    s.pending.Keys + UnreadIds(s)
  }

  function Unfinished(w: World): set<string> { set e | e in w.accepted && !Finished(w, e) }

  lemma {:induction false} ImageSize(s: Store, events: set<string>, ids: set<StreamId>)
    requires forall e :: e in events ==> Current(s, e) in ids
    requires forall id :: id in ids ==> exists e :: e in events && Current(s, e) == id
    requires forall d, e {:trigger Current(s, d), Current(s, e)} ::
               d in events && e in events && Current(s, d) == Current(s, e) ==> d == e
    ensures |events| == |ids|
  {
    if events == {} {
      assert ids == {};
    } else {
      var e :| e in events;
      ImageSize(s, events - {e}, ids - {Current(s, e)});
    }
  }

  /**
   Between steps of a run, pending plus lag equals the number of accepted events that have not finished: the
   two lists never overlap, and each unfinished event has exactly one message in them.
   */
  lemma DepthCountsUnfinished(cfg: Config, ws: seq<World>, steps: seq<Step>, i: nat)
    requires IsRun(cfg, ws, steps) && i < |ws|
    ensures |ws[i].store.pending| + |UnreadIds(ws[i].store)| == |Unfinished(ws[i])|
  {
    RunKeeps(cfg, ws, steps, i);
    hide Inv;
    var w := ws[i];
    var s := w.store;
    UnfinishedIsLive(w);
    LiveIsUnfinished(w);
    ImageSize(s, Unfinished(w), LiveIds(s));
    PendingIsRead(w);
    assert |LiveIds(s)| == |s.pending.Keys| + |UnreadIds(s)|;
  }

  lemma UnfinishedIsLive(w: World)
    requires Inv(w)
    ensures forall e :: e in Unfinished(w) ==>
              && Current(w.store, e) in LiveIds(w.store)
              && Current(w.store, e) in w.owner && w.owner[Current(w.store, e)] == e
  {
    forall e | e in Unfinished(w)
      ensures Current(w.store, e) in LiveIds(w.store)
      ensures Current(w.store, e) in w.owner && w.owner[Current(w.store, e)] == e
    {
      assert HashOk(w, e) && EntryOk(w, Current(w.store, e));
      assert Current(w.store, e) in w.fates ==> FateOk(w, Current(w.store, e));
    }
  }

  lemma LiveIsUnfinished(w: World)
    requires Inv(w)
    ensures forall id :: id in LiveIds(w.store) ==> exists e :: e in Unfinished(w) && Current(w.store, e) == id
  {
    forall id | id in LiveIds(w.store)
      ensures exists e :: e in Unfinished(w) && Current(w.store, e) == id
    {
      assert EntryOk(w, id);
      assert id in w.fates ==> FateOk(w, id);
      assert w.owner[id] in Unfinished(w) && Current(w.store, w.owner[id]) == id;
    }
  }

  lemma PendingIsRead(w: World)
    requires Inv(w)
    ensures w.store.pending.Keys !! UnreadIds(w.store)
  {
  }

  /** The gauge method may be called on every reachable keyspace. */
  lemma ReachableIsPhysical(cfg: Config, ws: seq<World>, steps: seq<Step>, i: nat)
    requires IsRun(cfg, ws, steps) && i < |ws|
    ensures Physical(ws[i].store)
  {
    RunKeeps(cfg, ws, steps, i);
    forall id | id in ws[i].store.entries
      ensures Less(ZERO_ID, id)
    {
      assert EntryOk(ws[i], id);
    }
  }
}
