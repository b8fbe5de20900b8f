/** A series of steps taken from one world on: how a piece of worker code shows up in the state machine. */
module RedisWalks {
  import opened Options
  import opened DeliveryPolicy
  import opened RedisStore
  import opened RedisScripts
  import opened RedisWorld

  /** The world after these steps; None when one of them is not enabled. */
  ghost function Walk(cfg: Config, w: World, steps: seq<Step>): Option<World> {
    if steps == [] then Some(w)
    else
      match Walk(cfg, w, steps[..|steps| - 1])
      case None => None
      case Some(mid) =>
        var step := steps[|steps| - 1];
        if Enabled(mid, step) then Some(Apply(cfg, mid, step)) else None
  }

  lemma WalkMore(cfg: Config, w: World, steps: seq<Step>, mid: World, step: Step)
    requires Walk(cfg, w, steps) == Some(mid) && Enabled(mid, step)
    ensures Walk(cfg, w, steps + [step]) == Some(Apply(cfg, mid, step))
  {
    assert (steps + [step])[..|steps|] == steps;
  }

  lemma WalkNone(cfg: Config, w: World, p: nat)
    ensures Walk(cfg, w, []) == Some(w) && By([], p)
  {
  }

  lemma {:induction false} WalkOn(cfg: Config, w: World, steps: seq<Step>, mid: World, more: seq<Step>)
    requires Walk(cfg, w, steps) == Some(mid)
    ensures Walk(cfg, w, steps + more) == Walk(cfg, mid, more)
  {
    if more == [] {
      assert steps + more == steps;
    } else {
      var n := |more| - 1;
      WalkOn(cfg, w, steps, mid, more[..n]);
      assert (steps + more)[..|steps + more| - 1] == steps + more[..n];
    }
  }

  /** A run, and one step more. */
  lemma Extend(cfg: Config, ws: seq<World>, steps: seq<Step>, step: Step) returns (ws': seq<World>, steps': seq<Step>)
    requires IsRun(cfg, ws, steps) && Enabled(ws[|steps|], step)
    ensures IsRun(cfg, ws', steps') && steps' == steps + [step] && |ws'| == |ws| + 1 == |steps'| + 1
    ensures ws'[..|ws|] == ws && ws'[|steps'|] == Apply(cfg, ws[|steps|], step)
  {
    hide Enabled, Apply;
    ws', steps' := ws + [Apply(cfg, ws[|steps|], step)], steps + [step];
    forall i | 0 <= i < |steps'|
      ensures Enabled(ws'[i], steps'[i]) && ws'[i + 1] == Apply(cfg, ws'[i], steps'[i])
    {
      if i < |steps| {
        assert Enabled(ws[i], steps[i]) && ws[i + 1] == Apply(cfg, ws[i], steps[i]);
      }
    }
  }

  /** A walk from the end of a run prolongs it. */
  lemma {:induction false} WalkProlongs(cfg: Config, ws: seq<World>, steps: seq<Step>, more: seq<Step>)
    returns (ws': seq<World>)
    requires IsRun(cfg, ws, steps) && Walk(cfg, ws[|steps|], more).Some?
    ensures IsRun(cfg, ws', steps + more) && ws'[..|ws|] == ws
    ensures ws'[|steps + more|] == Walk(cfg, ws[|steps|], more).value
  {
    if more == [] {
      assert steps + more == steps;
      ws' := ws;
    } else {
      var n := |more| - 1;
      var shorter := WalkProlongs(cfg, ws, steps, more[..n]);
      var longer;
      ws', longer := Extend(cfg, shorter, steps + more[..n], more[n]);
      assert steps + more == (steps + more[..n]) + [more[n]];
      hide Enabled, Apply, IsRun;
    }
  }

  /** All steps are worker `p`'s own. */
  ghost predicate By(steps: seq<Step>, p: nat) {
    forall i :: 0 <= i < |steps| ==> !steps[i].Accept? && !steps[i].AcceptKeyed? && steps[i].p == p
  }

  /** The world has this keyspace, and worker `p` stands here. */
  ghost predicate At(w: World, s: Store, p: nat, pc: Pc) { w.store == s && PcOf(w, p) == pc }

  // ---------------------------------------------------------------- single steps

  /** Worker `p` may take this step, which leads to this keyspace and this position without calling the sink. */
  ghost predicate Goes(cfg: Config, w: World, step: Step, p: nat, s: Store, pc: Pc) {
    Enabled(w, step) && At(Apply(cfg, w, step), s, p, pc) && Apply(cfg, w, step).calls == w.calls && By([step], p)
  }

  lemma WalkGoes(cfg: Config, w: World, steps: seq<Step>, mid: World, step: Step, p: nat, s: Store, pc: Pc)
    returns (w': World)
    requires Walk(cfg, w, steps) == Some(mid) && By(steps, p) && Goes(cfg, mid, step, p, s, pc)
    ensures Walk(cfg, w, steps + [step]) == Some(w') && By(steps + [step], p) && At(w', s, p, pc)
    ensures w'.calls == mid.calls
  {
    w' := Apply(cfg, mid, step);
    hide Apply, Enabled, At, Walk;
    WalkMore(cfg, w, steps, mid, step);
  }

  lemma EnsureGoes(cfg: Config, w: World, p: nat)
    requires PcOf(w, p) == Ready
    ensures var (s', reply) := EnsureGroup(w.store);
            Goes(cfg, w, Ensure(p, false), p, s', if reply.Err? then Ready else Grouped)
  {
    hide EnsureGroup;
  }

  lemma ReleaseGoes(cfg: Config, w: World, p: nat, now: int, first: Option<string>, clock: nat)
    requires PcOf(w, p) == Grouped
    requires if first.Some? then FirstDue(w.store, now, first.value) else Due(w.store, now) == {}
    ensures var (s', reply) := ReleaseDueRetry(w.store, first, clock);
            Goes(cfg, w, Release(p, now, first, clock, false), p, s', if reply.Err? then Ready else Swept)
  {
    assert ReleaseDueRetry(w.store, first, clock).1 == Ok(1) ==> first.Some? && Agrees(w.store, first.value);
    hide ReleaseDueRetry;
  }

  lemma ScanGoes(cfg: Config, w: World, p: nat, now: int, minIdle: int, found: Option<StreamId>)
    requires PcOf(w, p) == Swept && ScanFinds(w.store, now, minIdle, found)
    requires StreamKey !in w.store.foreign && w.store.hasStream && w.store.hasGroup
    ensures found.Some? ==> found.value in w.store.entries
    ensures Goes(cfg, w, Scan(p, now, minIdle, found, false), p,
                 if found.Some? then Take(w.store, found.value, p, now) else w.store,
                 if found.Some? then Claimed(found.value, Dispose(w.store, found.value) == ForDelivery) else Unclaimed)
  {
    hide Dispose;
  }

  /** Every keyspace has something that a scan settles on, if only on nothing. */
  lemma SomethingIsFound(s: Store, now: int, minIdle: int) returns (found: Option<StreamId>)
    ensures ScanFinds(s, now, minIdle, found)
  {
    var ids := set id | id in Idle(s, now, minIdle) && Scanned(s, now, minIdle, id) && Claimable(s, id);
    if ids == {} {
      found := None;
      assert forall id :: Scanned(s, now, minIdle, id) && Claimable(s, id) ==> id in ids;
    } else {
      LowestExists(ids);
      var x :| x in ids && forall y :: y in ids ==> AtMost(x, y);
      found := Some(x);
      hide Claimable;
      assert forall id :: Scanned(s, now, minIdle, id) && Claimable(s, id) ==> id in ids;
    }
  }

  lemma SomethingIsNext(s: Store) returns (found: Option<StreamId>)
    ensures NextUnread(s, found)
  {
    if UnreadIds(s) == {} {
      found := None;
      assert forall id :: id in s.entries && Less(s.lastRead, id) ==> id in UnreadIds(s);
    } else {
      LowestExists(UnreadIds(s));
      var x :| x in UnreadIds(s) && forall y :: y in UnreadIds(s) ==> AtMost(x, y);
      found := Some(x);
      assert forall id :: id in s.entries && Less(s.lastRead, id) ==> id in UnreadIds(s);
    }
  }

  lemma ScanRefused(cfg: Config, w: World, p: nat, now: int, minIdle: int, found: Option<StreamId>)
    requires PcOf(w, p) == Swept && ScanFinds(w.store, now, minIdle, found)
    requires StreamKey in w.store.foreign || !w.store.hasStream || !w.store.hasGroup
    ensures Goes(cfg, w, Scan(p, now, minIdle, found, false), p, w.store, Ready)
  {
  }

  lemma ReadRefused(cfg: Config, w: World, p: nat, now: int, found: Option<StreamId>)
    requires PcOf(w, p) == Unclaimed && NextUnread(w.store, found)
    requires StreamKey in w.store.foreign || !w.store.hasStream || !w.store.hasGroup
    ensures Goes(cfg, w, Read(p, now, found, false), p, w.store, Ready)
  {
  }

  lemma RereadGoes(cfg: Config, w: World, p: nat, id: StreamId, fit: bool)
    requires PcOf(w, p) == Claimed(id, fit) && id in w.store.entries
    ensures Goes(cfg, w, Reread(p), p, w.store,
                 if fit then Decoded(cfg, id, w.store.entries[id], false) else Unfit(id, "invariant_violation", false))
  {
    hide Decoded;
  }

  lemma ReadGoes(cfg: Config, w: World, p: nat, now: int, found: Option<StreamId>)
    requires PcOf(w, p) == Unclaimed && NextUnread(w.store, found)
    requires StreamKey !in w.store.foreign && w.store.hasStream && w.store.hasGroup
    ensures found.Some? ==> found.value in w.store.entries
    ensures Goes(cfg, w, Read(p, now, found, false), p,
                 if found.Some? then Deliver(w.store, found.value, p, now) else w.store,
                 if found.Some? then Decoded(cfg, found.value, w.store.entries[found.value], true) else Ready)
  {
    hide Decoded;
  }

  lemma IsolateGoes(cfg: Config, w: World, p: nat, id: StreamId, reason: string, idleAfter: bool)
    requires PcOf(w, p) == Unfit(id, reason, idleAfter)
    ensures var (s', reply) := Quarantine(w.store, id, reason);
            Goes(cfg, w, Isolate(p, false), p, s', if reply.Err? || idleAfter then Ready else Unclaimed)
  {
    hide Quarantine;
  }

  lemma BeginGoes(cfg: Config, w: World, p: nat, m: Held)
    requires PcOf(w, p) == Holding(m)
    ensures var (s', reply) := StartDelivery(w.store, m.e, m.id);
            Goes(cfg, w, Begin(p, false), p, s', if reply.Err? then Ready else Started(m, reply.value))
  {
    hide StartDelivery;
  }

  /** The sink call is the one step that calls the sink. */
  lemma CallSends(cfg: Config, w: World, steps: seq<Step>, mid: World, p: nat, m: Held, attempt: int,
                  response: Response)
    returns (w': World)
    requires Walk(cfg, w, steps) == Some(mid) && By(steps, p) && PcOf(mid, p) == Started(m, attempt)
    ensures Walk(cfg, w, steps + [CallSink(p, response)]) == Some(w') && By(steps + [CallSink(p, response)], p)
    ensures var refused := RedisClassify(response);
            At(w', mid.store, p, if refused == None then Taken(m, attempt) else Refused(m, attempt, refused.value))
    ensures w'.calls == mid.calls + [SinkCall(m.e, m.c)]
  {
    w' := Apply(cfg, mid, CallSink(p, response));
    hide Walk, RedisClassify;
    WalkMore(cfg, w, steps, mid, CallSink(p, response));
  }

  lemma FinishGoes(cfg: Config, w: World, p: nat, m: Held, attempt: int)
    requires PcOf(w, p) == Taken(m, attempt)
    ensures Goes(cfg, w, Finish(p), p, CompleteDelivery(w.store, m.e, m.id).0, Ready)
  {
    hide CompleteDelivery;
  }

  lemma GiveUpGoes(cfg: Config, w: World, p: nat, m: Held, attempt: int, error: ErrorClass, due: int)
    requires PcOf(w, p) == Refused(m, attempt, error)
    ensures var policy := cfg.policy(p);
            Goes(cfg, w, GiveUp(p, due), p,
                 if Buries(policy, error, attempt) then MoveToDeadLetter(w.store, m.e, m.id, ErrorName(error)).0
                 else if Retries(policy, error, attempt)
                 then ScheduleRetry(w.store, m.e, m.id, due, ErrorName(error)).0
                 else w.store,
                 Ready)
  {
    hide MoveToDeadLetter, ScheduleRetry, Buries, Retries, ErrorName;
  }
}
