/**
 The hold a worker has on a message: what a claim scan settles on, and for how long a message that was read or claimed
 is out of reach of the other workers' scans.
 */
module RedisClaims {
  import opened Options
  import opened DeliveryPolicy
  import opened RedisStore
  import opened RedisScripts
  import opened RedisEffects
  import opened RedisWorld
  import opened RedisSafety

  // ---------------------------------------------------------------- the scan

  /** Idle for long enough, with its message in the stream, and not waiting for a retry. */
  predicate Eligible(s: Store, now: int, minIdle: int, id: StreamId) {
    && id in s.pending && now - s.pending[id].since >= minIdle && id in s.entries
    && !Backed(s, id, {RetryScheduled})
  }

  /** The ids before `id` that have been idle for long enough. */
  function Ahead(s: Store, now: int, minIdle: int, id: StreamId): set<StreamId> {
    set x | x in s.pending && Less(x, id) && now - s.pending[x].since >= minIdle
  }

  /**
   A scan that finds something has found the least eligible id of all. A scan that finds nothing has missed only
   eligible ids behind a hundred idle ones.
   */
  lemma ScanSettlesOnLeast(s: Store, now: int, minIdle: int, found: Option<StreamId>, id: StreamId)
    requires ScanFinds(s, now, minIdle, found)
    ensures found.Some? ==> Eligible(s, now, minIdle, found.value) && |Ahead(s, now, minIdle, found.value)| < 100
    ensures found.Some? && Eligible(s, now, minIdle, id) ==> AtMost(found.value, id)
    ensures found.None? && Eligible(s, now, minIdle, id) ==> |Ahead(s, now, minIdle, id)| >= 100
  {
    if Eligible(s, now, minIdle, id) {
      DispositionMeans(s, id);
      assert Ahead(s, now, minIdle, id) == IdleBefore(s, now, minIdle, id);
      assert Scanned(s, now, minIdle, id) <==> |IdleBefore(s, now, minIdle, id)| < 100;
    }
    if found.Some? {
      DispositionMeans(s, found.value);
      assert Ahead(s, now, minIdle, found.value) == IdleBefore(s, now, minIdle, found.value);
      if Eligible(s, now, minIdle, id) && Less(id, found.value) {
        Subset(IdleBefore(s, now, minIdle, id), IdleBefore(s, now, minIdle, found.value));
      }
    }
  }

  /** Some field has this name. */
  predicate Carries(fields: Fields, name: string) { exists j :: 0 <= j < |fields| && fields[j].0 == name }

  /**
   A message can be delivered exactly when it carries the four fields, its last event id is a UUID, and validation lets
   the rest through; what is then delivered are the last values.
   */
  lemma DeliverableIff(cfg: Config, id: StreamId, fields: Fields)
    ensures var held := Decode(cfg, id, fields);
            && (held.Some? <==>
                  && Carries(fields, "event_type") && Carries(fields, "payload") && Carries(fields, "accepted_at_ms")
                  && LastValue(fields, "event_id").Some? && IsUuid(LastValue(fields, "event_id").value)
                  && cfg.decodes(fields))
            && (held.Some? ==>
                  && held.value.id == id && LastValue(fields, "event_id") == Some(held.value.e)
                  && LastValue(fields, "event_type") == Some(held.value.c.eventType)
                  && LastValue(fields, "payload") == Some(held.value.c.payload)
                  && LastValue(fields, "accepted_at_ms") == Some(held.value.c.acceptedAt))
  {
    LastValueIsLast(fields, "event_type", 0);
    LastValueIsLast(fields, "payload", 0);
    LastValueIsLast(fields, "accepted_at_ms", 0);
  }

  // ---------------------------------------------------------------- the hold

  /** Step `k` hands message `id` to a worker: it reads it, or claims it. */
  ghost predicate Hands(steps: seq<Step>, k: nat, id: StreamId)
    requires k < |steps|
  {
    (steps[k].Read? || steps[k].Scan?) && steps[k].found == Some(id)
  }

  /** The pending list says that `p` has had message `id` since `now`. */
  predicate HeldBy(w: World, id: StreamId, p: nat, now: int) {
    id in w.store.pending && w.store.pending[id] == Claim(p, now)
  }

  /** A message is handed out only when stream and group are there; it is then this worker's, as of now. */
  lemma HandingHolds(cfg: Config, w: World, step: Step, id: StreamId)
    requires Inv(w) && Enabled(w, step) && (step.Read? || step.Scan?) && step.found == Some(id)
    ensures w.store.hasGroup ==> HeldBy(Apply(cfg, w, step), id, step.p, step.now)
  {
    hide Inv, Core;
    assert GroupOk(w.store) by { GroupIsOk(w); }
  }

  lemma GroupIsOk(w: World)
    requires Inv(w)
    ensures GroupOk(w.store)
  {
  }

  /** A hold ends with a claim by someone who finds the message idle for long enough, or with an acknowledgement. */
  lemma HoldEnds(cfg: Config, w: World, step: Step, id: StreamId, p: nat, now: int)
    requires Inv(w) && Enabled(w, step) && HeldBy(w, id, p, now)
    ensures || HeldBy(Apply(cfg, w, step), id, p, now)
            || (step.Scan? && step.found == Some(id) && step.now - now >= step.minIdle)
            || (id !in Apply(cfg, w, step).store.pending && id in Apply(cfg, w, step).fates)
  {
    GroupIsOk(w);
    hide Inv, Core;
    match step
    case Read(q, t, found, lost) =>
      hide DoRead;
      ReadHolds(cfg, w, q, t, found, lost, id, p, now);
    case Scan(q, t, minIdle, found, lost) =>
      hide DoScan;
      ScanTakesOver(w, q, t, minIdle, found, lost, id, p, now);
    case Release(q, t, first, clock, lost) =>
      hide FirstDue, DoRelease;
      ReleaseFrees(w, q, first, clock, lost);
    case Isolate(q, lost) =>
      hide DoIsolate;
      IsolateFrees(w, q, lost);
    case Finish(q) =>
      hide DoFinish;
      FinishFrees(w, q);
    case GiveUp(q, due) =>
      hide DoGiveUp;
      GiveUpFrees(cfg, w, q, due);
    case _ =>
      hide Apply, Enabled, HeldBy;
      OthersLeavePending(cfg, w, step);
      SamePending(w, Apply(cfg, w, step), id, p, now);
  }

  lemma SamePending(w: World, w': World, id: StreamId, p: nat, now: int)
    requires HeldBy(w, id, p, now) && w'.store.pending == w.store.pending
    ensures HeldBy(w', id, p, now)
  {
  }

  lemma ReadHolds(cfg: Config, w: World, q: nat, t: int, found: Option<StreamId>, lost: bool, id: StreamId, p: nat,
                  now: int)
    requires GroupOk(w.store) && NextUnread(w.store, found) && HeldBy(w, id, p, now)
    ensures HeldBy(DoRead(cfg, w, q, t, found, lost), id, p, now)
  {
    assert found == Some(id) ==> !Unread(w.store, id);
    hide Decoded;
  }

  lemma ScanTakesOver(w: World, q: nat, t: int, minIdle: int, found: Option<StreamId>, lost: bool, id: StreamId, p: nat,
                      now: int)
    requires ScanFinds(w.store, t, minIdle, found) && HeldBy(w, id, p, now)
    ensures HeldBy(DoScan(w, q, t, found, lost), id, p, now) || (found == Some(id) && t - now >= minIdle)
  {
    assert found == Some(id) ==> id in Idle(w.store, t, minIdle);
    hide Dispose;
  }

  lemma OthersLeavePending(cfg: Config, w: World, step: Step)
    requires Enabled(w, step) && GroupOk(w.store)
    requires !step.Read? && !step.Scan? && !step.Release? && !step.Isolate? && !step.Finish? && !step.GiveUp?
    ensures Apply(cfg, w, step).store.pending == w.store.pending
  {
    hide Decoded, Encode, NextId;
  }

  /** No entry of the pending list changes, and one that goes has its fate recorded. */
  ghost predicate Frees(w: World, w': World) {
    forall x :: x in w.store.pending ==>
      if x in w'.store.pending then w'.store.pending[x] == w.store.pending[x] else x in w'.fates
  }

  lemma ReleaseFrees(w: World, p: nat, first: Option<string>, clock: nat, lost: bool)
    ensures Frees(w, DoRelease(w, p, first, clock, lost))
  {
  }

  lemma IsolateFrees(w: World, p: nat, lost: bool)
    requires PcOf(w, p).Unfit?
    ensures Frees(w, DoIsolate(w, p, lost))
  {
    hide SafeToCondemn, QuarantineEntry;
  }

  lemma FinishFrees(w: World, p: nat)
    requires PcOf(w, p).Taken?
    ensures Frees(w, DoFinish(w, p))
  {
  }

  lemma GiveUpFrees(cfg: Config, w: World, p: nat, due: int)
    requires PcOf(w, p).Refused?
    ensures Frees(w, DoGiveUp(cfg, w, p, due))
  {
    hide Buries, Retries;
  }

  /** In step `k` a hold that began at `since` ends: by a claim late enough for its idle time, or for good. */
  ghost predicate EndsHold(ws: seq<World>, steps: seq<Step>, k: nat, id: StreamId, since: int)
    requires k < |steps| && |ws| == |steps| + 1
  {
    || (steps[k].Scan? && steps[k].found == Some(id) && steps[k].now - since >= steps[k].minIdle)
    || (id !in ws[k + 1].store.pending && id in ws[k + 1].fates)
  }

  /**
   A message that a worker read or claimed at `now` stays its own in the pending list until a worker that asks for
   `minIdle` claims it no earlier than `now + minIdle`, or it is acknowledged.
   */
  lemma {:induction false} HoldLasts(cfg: Config, ws: seq<World>, steps: seq<Step>, i: nat, j: nat, id: StreamId)
    requires IsRun(cfg, ws, steps) && i < j < |ws| && Hands(steps, i, id) && ws[i].store.hasGroup
    ensures || HeldBy(ws[j], id, steps[i].p, steps[i].now)
            || exists k: nat :: i < k < j && EndsHold(ws, steps, k, id, steps[i].now)
  {
    hide Inv, Apply, Enabled, HeldBy, EndsHold;
    RunKeeps(cfg, ws, steps, j - 1);
    RunStep(cfg, ws, steps, j - 1);
    if j == i + 1 {
      HandingHolds(cfg, ws[i], steps[i], id);
    } else {
      HoldLasts(cfg, ws, steps, i, j - 1, id);
      if HeldBy(ws[j - 1], id, steps[i].p, steps[i].now) {
        HoldEnds(cfg, ws[j - 1], steps[j - 1], id, steps[i].p, steps[i].now);
        HoldStep(ws, steps, j - 1, id, steps[i].p, steps[i].now);
      }
    }
  }

  lemma HoldStep(ws: seq<World>, steps: seq<Step>, k: nat, id: StreamId, p: nat, since: int)
    requires k < |steps| && |ws| == |steps| + 1
    requires || HeldBy(ws[k + 1], id, p, since)
             || (steps[k].Scan? && steps[k].found == Some(id) && steps[k].now - since >= steps[k].minIdle)
             || (id !in ws[k + 1].store.pending && id in ws[k + 1].fates)
    ensures HeldBy(ws[k + 1], id, p, since) || EndsHold(ws, steps, k, id, since)
  {
  }
}
