/**
 Runs in which a pending message is claimed only after its previous holder stopped acting. There the public
 status follows the documented life cycle and a terminal status is final.
 */
module RedisExclusive {
  import opened Options
  import opened DeliveryPolicy
  import opened RedisStore
  import opened RedisWorld
  import opened RedisSafety
  import opened RedisGuarantees

  /** No other worker still acts on the message that a claim takes. */
  ghost predicate Courteous(w: World, step: Step) {
    step.Scan? && step.found.Some? ==>
      forall q :: q in w.pcs && HasId(w.pcs[q]) ==> IdOf(w.pcs[q]) != step.found.value
  }

  ghost predicate IsExclusiveRun(cfg: Config, ws: seq<World>, steps: seq<Step>) {
    IsRun(cfg, ws, steps) && forall i :: 0 <= i < |steps| ==> Courteous(ws[i], steps[i])
  }

  predicate HasStatusIn(w: World, e: string, a: EventStatus, b: EventStatus) {
    StatusOf(w.store, e) == Some(a) || StatusOf(w.store, e) == Some(b)
  }

  /** Status, place of the current message and retry schedule tell the same story. */
  predicate Settled(w: World, e: string) {
    var id := Current(w.store, e);
    && (HasStatusIn(w, e, Queued, Delivering) ==> Live(w.store, id))
    && (StatusOf(w.store, e) == Some(RetryScheduled) <==> e in w.store.retries)
    && (e in w.store.retries ==> id in w.store.pending)
  }

  /** A worker that acts on a message has it pending, and its event in a matching status. */
  predicate HolderOk(cfg: Config, w: World, pc: Pc) {
    HasId(pc) ==>
      && IdOf(pc) in w.store.pending && IdOf(pc) in w.owner
      && HasStatusIn(w, w.owner[IdOf(pc)], Queued, Delivering)
      && (pc.Started? || pc.Taken? || pc.Refused? ==> StatusOf(w.store, pc.m.e) == Some(Delivering))
      && (pc.Unfit? ==> IdOf(pc) in w.store.entries && !cfg.decodes(w.store.entries[pc.id]))
  }

  ghost predicate Distinct(pcs: map<nat, Pc>) {
    forall p, q {:trigger pcs[p], pcs[q]} ::
      p in pcs && q in pcs && p != q && HasId(pcs[p]) && HasId(pcs[q]) ==> IdOf(pcs[p]) != IdOf(pcs[q])
  }

  ghost predicate Excl(cfg: Config, w: World) {
    && w.store.retries.Keys <= w.accepted.Keys
    && (forall e {:trigger Settled(w, e)} :: e in w.accepted ==> Settled(w, e))
    && (forall p {:trigger w.pcs[p]} :: p in w.pcs ==> HolderOk(cfg, w, w.pcs[p]))
    && Distinct(w.pcs)
  }

  // ---------------------------------------------------------------- preservation

  /** A worker that holds another message is not concerned by what happens to event `e`. */
  lemma OtherHolder(cfg: Config, w: World, w': World, e: string, pc: Pc)
    requires Inv(w) && Touches(w, w', e) && PcOk(w, pc) && HolderOk(cfg, w, pc)
    requires HasId(pc) ==> IdOf(pc) != Current(w.store, e)
    ensures HolderOk(cfg, w', pc)
  {
    if HasId(pc) {
      assert EntryOk(w, IdOf(pc));
    }
  }

  /** The holder of an event's current message changes its status, and possibly acknowledges it. */
  lemma HolderKeepsExcl(cfg: Config, w: World, w': World, p: nat, e: string)
    requires Inv(w) && Excl(cfg, w) && Touches(w, w', e)
    requires HasId(PcOf(w, p)) && IdOf(PcOf(w, p)) == Current(w.store, e)
    requires p in w'.pcs && w'.pcs == w.pcs[p := w'.pcs[p]]
    requires HasId(w'.pcs[p]) ==> IdOf(w'.pcs[p]) == IdOf(PcOf(w, p))
    requires HolderOk(cfg, w', w'.pcs[p]) && Settled(w', e)
    requires forall d {:trigger d in w'.store.retries} :: d != e ==> (d in w'.store.retries <==> d in w.store.retries)
    ensures Excl(cfg, w')
  {
    assert HashOk(w, e);
    forall d | d in w'.accepted ensures Settled(w', d) {
      assert Settled(w, d);
      assert HashOk(w, d);
    }
    forall q | q in w'.pcs ensures HolderOk(cfg, w', w'.pcs[q]) {
      if q != p {
        OtherHolder(cfg, w, w', e, w.pcs[q]);
      }
    }
  }

  /** A worker moves on without taking up a new message; statuses, schedule and pending ids stay. */
  lemma MoveKeepsExcl(cfg: Config, w: World, w': World, p: nat)
    requires Inv(w) && Excl(cfg, w) && StillChange(w, w')
    requires w'.store.pending.Keys == w.store.pending.Keys && w'.store.lastRead == w.store.lastRead
    requires p in w'.pcs && w'.pcs == w.pcs[p := w'.pcs[p]] && HolderOk(cfg, w', w'.pcs[p])
    requires HasId(w'.pcs[p]) ==>
               || (HasId(PcOf(w, p)) && IdOf(w'.pcs[p]) == IdOf(PcOf(w, p)))
               || (forall q :: q in w.pcs && HasId(w.pcs[q]) ==> IdOf(w.pcs[q]) != IdOf(w'.pcs[p]))
    ensures Excl(cfg, w')
  {
    forall d | d in w'.accepted ensures Settled(w', d) {
      assert Settled(w, d);
    }
    forall q | q in w'.pcs ensures HolderOk(cfg, w', w'.pcs[q]) {
      assert q != p ==> HolderOk(cfg, w, w.pcs[q]);
    }
  }

  lemma LookupHolder(cfg: Config, w: World, p: nat)
    requires Inv(w) && Excl(cfg, w)
    ensures PcOk(w, PcOf(w, p)) && HolderOk(cfg, w, PcOf(w, p))
    ensures HasId(PcOf(w, p)) ==>
              && IdOf(PcOf(w, p)) in w.owner && w.owner[IdOf(PcOf(w, p))] in w.accepted
              && var e := w.owner[IdOf(PcOf(w, p))];
              && Current(w.store, e) == IdOf(PcOf(w, p)) && HashOk(w, e) && Placed(w, e) && Settled(w, e)
              && e !in w.store.retries && w.store.foreign == {} && w.store.hasStream && w.store.hasGroup
              && w.store.entries[IdOf(PcOf(w, p))] == Encode(e, w.accepted[e])
  {
    PcLookup(w, p);
    var pc := PcOf(w, p);
    if HasId(pc) {
      assert p in w.pcs;
      assert EntryOk(w, IdOf(pc));
      var e := w.owner[IdOf(pc)];
      assert HashOk(w, e) && Placed(w, e) && Settled(w, e);
    }
  }

  lemma BeginKeepsExcl(cfg: Config, w: World, p: nat, lost: bool)
    requires Inv(w) && Excl(cfg, w) && PcOf(w, p).Holding?
    ensures Excl(cfg, DoBegin(w, p, lost))
  {
    hide Core, Witnesses, Excl;
    var w' := DoBegin(w, p, lost);
    var m := PcOf(w, p).m;
    LookupHolder(cfg, w, p);
    BeginTouches(w, w', m);
    HolderKeepsExcl(cfg, w, w', p, m.e);
  }

  lemma FinishKeepsExcl(cfg: Config, w: World, p: nat)
    requires Inv(w) && Excl(cfg, w) && PcOf(w, p).Taken?
    ensures Excl(cfg, DoFinish(w, p)) && StatusOf(DoFinish(w, p).store, PcOf(w, p).m.e) == Some(Delivered)
  {
    hide Core, Witnesses, Excl;
    var w' := DoFinish(w, p);
    var m := PcOf(w, p).m;
    LookupHolder(cfg, w, p);
    FinishTouches(w, w', m);
    HolderKeepsExcl(cfg, w, w', p, m.e);
  }

  lemma IsolateKeepsExcl(cfg: Config, w: World, p: nat, lost: bool)
    requires Inv(w) && Excl(cfg, w) && PcOf(w, p).Unfit?
    ensures Excl(cfg, DoIsolate(w, p, lost))
    ensures PcOf(w, p).id in w.owner
    ensures StatusOf(DoIsolate(w, p, lost).store, w.owner[PcOf(w, p).id]) == Some(DeadLetter)
  {
    hide Core, Witnesses, Excl, Quarantine;
    var w' := DoIsolate(w, p, lost);
    var pc := PcOf(w, p);
    LookupHolder(cfg, w, p);
    var e := w.owner[pc.id];
    EncodeFields(e, w.accepted[e]);
    QuarantineAnswers(w.store, pc.id, pc.reason);
    QuarantineEffect(w.store, pc.id, pc.reason);
    QuarantineTouches(w, w', pc.id, pc.reason);
    HolderKeepsExcl(cfg, w, w', p, e);
  }

  lemma QuarantineAnswers(s: Store, id: StreamId, reason: string)
    requires s.foreign == {} && IsPending(s, id) && id in s.entries
    ensures Quarantine(s, id, reason).1.Ok?
  {
  }

  lemma BuryKeepsExcl(cfg: Config, w: World, p: nat, due: int)
    requires Inv(w) && Excl(cfg, w) && PcOf(w, p).Refused?
    requires Buries(cfg.policy(p), PcOf(w, p).error, PcOf(w, p).attempt)
    ensures Excl(cfg, DoGiveUp(cfg, w, p, due))
  {
    hide Core, Witnesses, Excl;
    var w' := DoGiveUp(cfg, w, p, due);
    var m := PcOf(w, p).m;
    LookupHolder(cfg, w, p);
    EncodeFields(m.e, w.accepted[m.e]);
    BuryTouches(w, w', m, ErrorName(PcOf(w, p).error));
    HolderKeepsExcl(cfg, w, w', p, m.e);
  }

  lemma GiveUpKeepsExcl(cfg: Config, w: World, p: nat, due: int)
    requires Inv(w) && Excl(cfg, w) && PcOf(w, p).Refused?
    ensures Excl(cfg, DoGiveUp(cfg, w, p, due))
  {
    hide Core, Witnesses, Excl;
    var w' := DoGiveUp(cfg, w, p, due);
    var pc := PcOf(w, p);
    if Buries(cfg.policy(p), pc.error, pc.attempt) {
      hide DoGiveUp;
      BuryKeepsExcl(cfg, w, p, due);
    } else if Retries(cfg.policy(p), pc.error, pc.attempt) {
      LookupHolder(cfg, w, p);
      ScheduleTouches(w, w', pc.m, due, ErrorName(pc.error));
      HolderKeepsExcl(cfg, w, w', p, pc.m.e);
    } else {
      LookupHolder(cfg, w, p);
      MoveKeepsExcl(cfg, w, w', p);
    }
  }

  lemma CreateKeepsExcl(cfg: Config, w: World, w': World, e: string, c: Content, clock: nat)
    requires Inv(w) && Excl(cfg, w) && Creates(w, w', e, c, clock)
    ensures Excl(cfg, w')
  {
    FreshIdIsNew(w, clock);
    forall d | d in w'.accepted ensures Settled(w', d) {
      assert d != e ==> Settled(w, d) && HashOk(w, d);
    }
    forall q | q in w'.pcs ensures HolderOk(cfg, w', w'.pcs[q]) {
      assert HolderOk(cfg, w, w.pcs[q]) && PcOk(w, w.pcs[q]);
      assert HasId(w.pcs[q]) ==> EntryOk(w, IdOf(w.pcs[q]));
    }
  }

  lemma AcceptKeepsExcl(cfg: Config, w: World, step: Step)
    requires Inv(w) && Excl(cfg, w) && Enabled(w, step) && (step.Accept? || step.AcceptKeyed?)
    ensures Excl(cfg, Apply(cfg, w, step))
  {
    hide Excl;
    var w' := Apply(cfg, w, step);
    if w' != w {
      CreateKeepsExcl(cfg, w, w', step.e, step.c, step.clock);
    }
  }

  /** In exclusive runs a due event is always requeued: the invalid-record branch is never taken. */
  lemma DueAgrees(cfg: Config, w: World, e: string)
    requires Inv(w) && Excl(cfg, w) && e in w.store.retries
    ensures e in w.accepted && Agrees(w.store, e)
    ensures forall q :: q in w.pcs && HasId(w.pcs[q]) ==> IdOf(w.pcs[q]) != Current(w.store, e)
  {
    assert Settled(w, e) && HashOk(w, e) && EntryOk(w, Current(w.store, e));
    EncodeFields(e, w.accepted[e]);
    forall q | q in w.pcs && HasId(w.pcs[q])
      ensures IdOf(w.pcs[q]) != Current(w.store, e)
    {
      assert HolderOk(cfg, w, w.pcs[q]);
    }
  }

  lemma RequeueKeepsExcl(cfg: Config, w: World, w': World, e: string, clock: nat, p: nat)
    requires Inv(w) && Excl(cfg, w) && Requeues(w, w', e, clock)
    requires p in w'.pcs && w'.pcs == w.pcs[p := w'.pcs[p]] && !HasId(w'.pcs[p])
    requires forall q :: q in w.pcs && HasId(w.pcs[q]) ==> IdOf(w.pcs[q]) != Current(w.store, e)
    ensures Excl(cfg, w')
  {
    FreshIdIsNew(w, clock);
    assert HashOk(w, e);
    forall d | d in w'.accepted ensures Settled(w', d) {
      assert Settled(w, d) && HashOk(w, d);
    }
    forall q | q in w'.pcs ensures HolderOk(cfg, w', w'.pcs[q]) {
      if q != p { RequeueKeepsHolder(cfg, w, w', e, clock, w.pcs[q]); }
    }
  }

  lemma RequeueKeepsHolder(cfg: Config, w: World, w': World, e: string, clock: nat, pc: Pc)
    requires Inv(w) && Requeues(w, w', e, clock) && HolderOk(cfg, w, pc) && PcOk(w, pc)
    requires HasId(pc) ==> IdOf(pc) != Current(w.store, e)
    ensures HolderOk(cfg, w', pc)
  {
    FreshIdIsNew(w, clock);
    assert HasId(pc) ==> EntryOk(w, IdOf(pc));
  }

  lemma ReleaseKeepsExcl(cfg: Config, w: World, step: Step)
    requires Inv(w) && Excl(cfg, w) && step.Release? && Enabled(w, step)
    ensures Excl(cfg, DoRelease(w, step.p, step.first, step.clock, step.lost))
    ensures ReleaseDueRetry(w.store, step.first, step.clock).1 != Ok(2)
  {
    hide Excl, Core, Witnesses;
    var w' := DoRelease(w, step.p, step.first, step.clock, step.lost);
    if step.first.Some? {
      DueAgrees(cfg, w, step.first.value);
      KnownGroup(w, step.first.value);
      RequeueKeepsExcl(cfg, w, w', step.first.value, step.clock, step.p);
    } else {
      MoveKeepsExcl(cfg, w, w', step.p);
    }
  }

  lemma KnownGroup(w: World, e: string)
    requires Inv(w) && Agrees(w.store, e)
    ensures w.store.foreign == {} && w.store.hasStream && w.store.hasGroup
  {
  }

  lemma ReadKeepsExcl(cfg: Config, w: World, p: nat, now: int, found: Option<StreamId>, lost: bool)
    requires Inv(w) && Excl(cfg, w) && PcOf(w, p) == Unclaimed && NextUnread(w.store, found)
    ensures Excl(cfg, DoRead(cfg, w, p, now, found, lost))
  {
    hide Excl, Core, Witnesses, NextUnread;
    ReadIsInStream(w, found);
    var w' := DoRead(cfg, w, p, now, found, lost);
    if found == None || !w.store.hasGroup || !w.store.hasStream || w.store.foreign != {} {
      GroupFacts(w);
      MoveKeepsExcl(cfg, w, w', p);
    } else {
      DeliveryKeepsExcl(cfg, w, w', p, found.value, now, lost);
    }
  }

  lemma GroupFacts(w: World)
    requires Inv(w)
    ensures w.store.foreign == {} && (w.store.hasGroup ==> w.store.hasStream)
    ensures !w.store.hasGroup ==> w.store.lastRead == ZERO_ID && w.store.pending == map[]
  {
  }

  ghost predicate Delivers(cfg: Config, w: World, w': World, p: nat, id: StreamId, now: int, lost: bool) {
    && NextUnread(w.store, Some(id)) && w.store.hasGroup && id in w.store.entries
    && w' == Goto(w.(store := Deliver(w.store, id, p, now)), p,
                  if lost then Ready else Decoded(cfg, id, w.store.entries[id], true))
  }

  lemma DeliveryKeepsExcl(cfg: Config, w: World, w': World, p: nat, id: StreamId, now: int, lost: bool)
    requires Inv(w) && Excl(cfg, w) && Delivers(cfg, w, w', p, id, now, lost)
    ensures Excl(cfg, w')
  {
    DeliveryKeepsEvents(cfg, w, w', p, id, now, lost);
    DeliveryKeepsHolders(cfg, w, w', p, id, now, lost);
  }

  lemma DeliveryKeepsEvents(cfg: Config, w: World, w': World, p: nat, id: StreamId, now: int, lost: bool)
    requires Inv(w) && Excl(cfg, w) && Delivers(cfg, w, w', p, id, now, lost)
    ensures forall d {:trigger Settled(w', d)} :: d in w'.accepted ==> Settled(w', d)
  {
    forall d | d in w'.accepted ensures Settled(w', d) {
      assert Settled(w, d) && HashOk(w, d);
    }
  }

  lemma DeliveryKeepsHolders(cfg: Config, w: World, w': World, p: nat, id: StreamId, now: int, lost: bool)
    requires Inv(w) && Excl(cfg, w) && Delivers(cfg, w, w', p, id, now, lost)
    ensures forall q {:trigger w'.pcs[q]} :: q in w'.pcs ==> HolderOk(cfg, w', w'.pcs[q])
    ensures Distinct(w'.pcs)
  {
    assert EntryOk(w, id);
    var e := w.owner[id];
    assert HashOk(w, e) && Placed(w, e);
    DecodeReturnsAccepted(cfg, id, e, w.accepted[e]);
    forall q | q in w'.pcs ensures HolderOk(cfg, w', w'.pcs[q]) {
      assert q != p ==> HolderOk(cfg, w, w.pcs[q]);
    }
    forall q | q in w.pcs && HasId(w.pcs[q])
      ensures IdOf(w.pcs[q]) != id
    {
      assert HolderOk(cfg, w, w.pcs[q]);
    }
  }

  lemma ScanKeepsExcl(cfg: Config, w: World, step: Step)
    requires Inv(w) && Excl(cfg, w) && step.Scan? && Enabled(w, step) && Courteous(w, step)
    ensures step.found.Some? ==> step.found.value in w.store.entries
    ensures Excl(cfg, DoScan(w, step.p, step.now, step.found, step.lost))
  {
    hide Excl, Core, Witnesses, ScanFinds;
    ScanIsInStream(w, step.now, step.minIdle, step.found);
    if step.found.Some? {
      hide DoScan;
      ScanTakesPending(w, step.now, step.minIdle, step.found.value);
      TakingKeepsExcl(cfg, w, step.p, step.now, step.found.value, step.lost);
    } else {
      MoveKeepsExcl(cfg, w, DoScan(w, step.p, step.now, None, step.lost), step.p);
    }
  }

  lemma TakingKeepsExcl(cfg: Config, w: World, p: nat, now: int, id: StreamId, lost: bool)
    requires Inv(w) && Excl(cfg, w) && id in w.store.pending && Claimable(w.store, id)
    requires forall q :: q in w.pcs && HasId(w.pcs[q]) ==> IdOf(w.pcs[q]) != id
    ensures Excl(cfg, DoScan(w, p, now, Some(id), lost))
  {
    hide Excl, Core, Witnesses;
    ClaimedIsOpen(w, id);
    MoveKeepsExcl(cfg, w, DoScan(w, p, now, Some(id), lost), p);
  }

  lemma ScanTakesPending(w: World, now: int, minIdle: int, id: StreamId)
    requires ScanFinds(w.store, now, minIdle, Some(id))
    ensures id in w.store.pending && Claimable(w.store, id)
  {
  }

  lemma ClaimedIsOpen(w: World, id: StreamId)
    requires Inv(w) && id in w.store.pending && Claimable(w.store, id)
    ensures id in w.owner && HasStatusIn(w, w.owner[id], Queued, Delivering)
  {
    assert EntryOk(w, id);
    var e := w.owner[id];
    assert HashOk(w, e) && Placed(w, e);
    EncodeFields(e, w.accepted[e]);
  }

  lemma RereadKeepsExcl(cfg: Config, w: World, p: nat)
    requires Inv(w) && Excl(cfg, w) && PcOf(w, p).Claimed?
    ensures Excl(cfg, DoReread(cfg, w, p))
  {
    hide Excl, Core, Witnesses;
    var pc := PcOf(w, p);
    LookupHolder(cfg, w, p);
    var e := w.owner[pc.id];
    DecodeReturnsAccepted(cfg, pc.id, e, w.accepted[e]);
    MoveKeepsExcl(cfg, w, DoReread(cfg, w, p), p);
  }

  lemma CallKeepsExcl(cfg: Config, w: World, p: nat, response: Response)
    requires Inv(w) && Excl(cfg, w) && PcOf(w, p).Started?
    ensures Excl(cfg, DoCall(w, p, response))
  {
    hide Excl, Core, Witnesses, RedisClassify;
    LookupHolder(cfg, w, p);
    MoveKeepsExcl(cfg, w, DoCall(w, p, response), p);
  }

  lemma EnsureKeepsExcl(cfg: Config, w: World, p: nat, lost: bool)
    requires Inv(w) && Excl(cfg, w)
    ensures Excl(cfg, DoEnsure(w, p, lost)) && Excl(cfg, Goto(w, p, Ready))
  {
    hide Excl, Core, Witnesses;
    GroupFacts(w);
    MoveKeepsExcl(cfg, w, DoEnsure(w, p, lost), p);
    MoveKeepsExcl(cfg, w, Goto(w, p, Ready), p);
  }

  lemma StepKeepsExcl(cfg: Config, w: World, step: Step)
    requires Inv(w) && Excl(cfg, w) && Enabled(w, step) && Courteous(w, step)
    ensures Excl(cfg, Apply(cfg, w, step))
  {
    hide Excl, Core, Witnesses;
    match step
    case Accept(_, _, _) => AcceptKeepsExcl(cfg, w, step);
    case AcceptKeyed(_, _, _, _) => AcceptKeepsExcl(cfg, w, step);
    case Crash(p) => EnsureKeepsExcl(cfg, w, p, false);
    case Ensure(p, lost) => EnsureKeepsExcl(cfg, w, p, lost);
    case Release(_, _, _, _, _) => ReleaseKeepsExcl(cfg, w, step);
    case Scan(_, _, _, _, _) => ScanKeepsExcl(cfg, w, step);
    case Reread(p) => RereadKeepsExcl(cfg, w, p);
    case Read(p, now, found, lost) => ReadKeepsExcl(cfg, w, p, now, found, lost);
    case Isolate(p, lost) => IsolateKeepsExcl(cfg, w, p, lost);
    case Begin(p, lost) => BeginKeepsExcl(cfg, w, p, lost);
    case CallSink(p, response) => CallKeepsExcl(cfg, w, p, response);
    case Finish(p) => FinishKeepsExcl(cfg, w, p);
    case GiveUp(p, due) => GiveUpKeepsExcl(cfg, w, p, due);
  }

  lemma {:induction false} RunKeepsExcl(cfg: Config, ws: seq<World>, steps: seq<Step>, i: nat)
    requires IsExclusiveRun(cfg, ws, steps) && i < |ws|
    ensures Inv(ws[i]) && Excl(cfg, ws[i])
  {
    RunKeeps(cfg, ws, steps, i);
    if i > 0 {
      RunKeepsExcl(cfg, ws, steps, i - 1);
      StepKeepsExcl(cfg, ws[i - 1], steps[i - 1]);
    }
  }

  // ---------------------------------------------------------------- the life cycle

  /** The documented moves of the public status. */
  predicate LegalMove(a: EventStatus, b: EventStatus) {
    || a == b
    || (a == Queued && b == Delivering)
    || (a == Delivering && b in {RetryScheduled, Delivered, DeadLetter})
    || (a == RetryScheduled && b == Queued)
  }

  /** `LegalMove`, or the one exception: a message that no client can decode goes to dead_letter unattempted. */
  ghost predicate MovesLegally(cfg: Config, w: World, w': World, e: string) {
    && StatusOf(w.store, e).Some? && StatusOf(w'.store, e).Some?
    && var a, b := StatusOf(w.store, e).value, StatusOf(w'.store, e).value;
       LegalMove(a, b)
       || (e in w.accepted && !cfg.decodes(Encode(e, w.accepted[e])) && a == Queued && b == DeadLetter)
  }

  lemma BeginMoves(cfg: Config, w: World, p: nat, lost: bool, e: string)
    requires Inv(w) && Excl(cfg, w) && PcOf(w, p).Holding? && HashOk(w, e)
    ensures MovesLegally(cfg, w, DoBegin(w, p, lost), e)
  {
    hide Core, Witnesses, Excl;
    LookupHolder(cfg, w, p);
  }

  lemma FinishMoves(cfg: Config, w: World, p: nat, e: string)
    requires Inv(w) && Excl(cfg, w) && PcOf(w, p).Taken? && HashOk(w, e)
    ensures MovesLegally(cfg, w, DoFinish(w, p), e)
  {
    hide Core, Witnesses, Excl;
    LookupHolder(cfg, w, p);
  }

  lemma GiveUpMoves(cfg: Config, w: World, p: nat, due: int, e: string)
    requires Inv(w) && Excl(cfg, w) && PcOf(w, p).Refused? && HashOk(w, e)
    ensures MovesLegally(cfg, w, DoGiveUp(cfg, w, p, due), e)
  {
    hide Core, Witnesses, Excl, MoveToDeadLetter, ScheduleRetry;
    var pc := PcOf(w, p);
    LookupHolder(cfg, w, p);
    BurialStatus(w.store, pc.m.e, pc.m.id, ErrorName(pc.error), e);
    ScheduleStatus(w.store, pc.m.e, pc.m.id, due, ErrorName(pc.error), e);
  }

  lemma BurialStatus(s: Store, d: string, id: StreamId, error: string, e: string)
    ensures var s' := MoveToDeadLetter(s, d, id, error).0;
            StatusOf(s', e) == StatusOf(s, e) || (d == e && StatusOf(s', e) == Some(DeadLetter))
  {
  }

  lemma ScheduleStatus(s: Store, d: string, id: StreamId, due: int, error: string, e: string)
    ensures var s' := ScheduleRetry(s, d, id, due, error).0;
            StatusOf(s', e) == StatusOf(s, e) || (d == e && StatusOf(s', e) == Some(RetryScheduled))
  {
  }

  lemma IsolateMoves(cfg: Config, w: World, p: nat, lost: bool, e: string)
    requires Inv(w) && Excl(cfg, w) && PcOf(w, p).Unfit? && HashOk(w, e)
    ensures MovesLegally(cfg, w, DoIsolate(w, p, lost), e)
  {
    hide Core, Witnesses, Excl, Quarantine;
    var pc := PcOf(w, p);
    LookupHolder(cfg, w, p);
    var d := w.owner[pc.id];
    EncodeFields(d, w.accepted[d]);
    QuarantineAnswers(w.store, pc.id, pc.reason);
    QuarantineEffect(w.store, pc.id, pc.reason);
  }

  lemma ReleaseMoves(cfg: Config, w: World, step: Step, e: string)
    requires Inv(w) && Excl(cfg, w) && step.Release? && Enabled(w, step) && HashOk(w, e)
    ensures MovesLegally(cfg, w, DoRelease(w, step.p, step.first, step.clock, step.lost), e)
  {
    hide Core, Witnesses, Excl;
    if step.first.Some? {
      DueAgrees(cfg, w, step.first.value);
    }
  }

  lemma AcceptMoves(cfg: Config, w: World, step: Step, e: string)
    requires Enabled(w, step) && (step.Accept? || step.AcceptKeyed?) && HashOk(w, e)
    ensures MovesLegally(cfg, w, Apply(cfg, w, step), e)
  {
  }

  lemma StepMoves(cfg: Config, w: World, step: Step, e: string)
    requires Inv(w) && Excl(cfg, w) && Enabled(w, step) && e in w.accepted
    ensures MovesLegally(cfg, w, Apply(cfg, w, step), e)
  {
    hide Core, Witnesses, Excl;
    KnownEvent(w, e);
    match step
    case Accept(_, _, _) => AcceptMoves(cfg, w, step, e);
    case AcceptKeyed(_, _, _, _) => AcceptMoves(cfg, w, step, e);
    case Release(_, _, _, _, _) => ReleaseMoves(cfg, w, step, e);
    case Isolate(p, lost) => IsolateMoves(cfg, w, p, lost, e);
    case Begin(p, lost) => BeginMoves(cfg, w, p, lost, e);
    case Finish(p) => FinishMoves(cfg, w, p, e);
    case GiveUp(p, due) => GiveUpMoves(cfg, w, p, due, e);
    case _ => QuietStep(cfg, w, step);
  }

  lemma KnownEvent(w: World, e: string)
    requires Inv(w) && e in w.accepted
    ensures HashOk(w, e)
  {
  }

  /**
   Life cycle: in an exclusive run each step moves the status of each accepted event along the documented
   edges only, and a delivered event was taken by the downstream.
   */
  lemma LifeCycle(cfg: Config, ws: seq<World>, steps: seq<Step>, i: nat, e: string)
    requires IsExclusiveRun(cfg, ws, steps) && i < |steps| && e in ws[i].accepted
    ensures MovesLegally(cfg, ws[i], ws[i + 1], e)
    ensures StatusOf(ws[i].store, e) == Some(Delivered) ==> e in ws[i].taken
  {
    RunKeepsExcl(cfg, ws, steps, i);
    StepMoves(cfg, ws[i], steps[i], e);
    KnownEvent(ws[i], e);
  }

  /** A terminal status is absorbing in exclusive runs. */
  lemma {:induction false} TerminalForever(cfg: Config, ws: seq<World>, steps: seq<Step>, i: nat, j: nat, e: string)
    requires IsExclusiveRun(cfg, ws, steps) && i <= j < |ws| && e in ws[i].accepted
    requires HasStatusIn(ws[i], e, Delivered, DeadLetter)
    ensures e in ws[j].accepted && StatusOf(ws[j].store, e) == StatusOf(ws[i].store, e)
  {
    hide IsRun, Apply, Enabled, Inv;
    if i < j {
      RunStep(cfg, ws, steps, j - 1);
      TerminalForever(cfg, ws, steps, i, j - 1, e);
      LifeCycle(cfg, ws, steps, j - 1, e);
      RunKeeps(cfg, ws, steps, j - 1);
      HasStatusHash(ws[j - 1], e);
      AcceptanceStays(cfg, ws[j - 1], steps[j - 1], e);
    }
  }

  /** In exclusive runs the public status is terminal exactly when the event has finished. */
  lemma TerminalIffFinished(cfg: Config, ws: seq<World>, steps: seq<Step>, i: nat, e: string)
    requires IsExclusiveRun(cfg, ws, steps) && i < |ws| && e in ws[i].accepted
    ensures HasStatusIn(ws[i], e, Delivered, DeadLetter) <==> Finished(ws[i], e)
  {
    RunKeepsExcl(cfg, ws, steps, i);
    FinishedShows(cfg, ws[i], e);
  }

  lemma FinishedShows(cfg: Config, w: World, e: string)
    requires Inv(w) && Excl(cfg, w) && e in w.accepted
    ensures HasStatusIn(w, e, Delivered, DeadLetter) <==> Finished(w, e)
  {
    var id := Current(w.store, e);
    assert HashOk(w, e) && Placed(w, e) && Settled(w, e) && EntryOk(w, id);
    assert Finished(w, e) ==> FateOk(w, id);
    if HasStatusIn(w, e, Delivered, DeadLetter) {
      assert !Unread(w.store, id) && id !in w.store.pending;
      assert FateOk(w, id);
    } else {
      var status := w.store.statuses[e].status.value;
      assert status == Queued || status == Delivering || status == RetryScheduled;
      assert Live(w.store, id);
    }
  }

  // ---------------------------------------------------------------- which status for which ending

  /** An ended event's status names its ending. */
  predicate Labelled(w: World, e: string) {
    var id := Current(w.store, e);
    Finished(w, e) ==>
      && (StatusOf(w.store, e) == Some(Delivered) <==> w.fates[id] == Completed)
      && (StatusOf(w.store, e) == Some(DeadLetter) <==> w.fates[id] in {DeadLettered, Quarantined})
  }

  lemma CompletionIsLabelled(cfg: Config, w: World, p: nat, e: string)
    requires Inv(w) && Excl(cfg, w) && PcOf(w, p).Taken? && HashOk(w, e) && !Finished(w, e)
    ensures Labelled(DoFinish(w, p), e)
  {
    hide Core, Witnesses, Excl;
    LookupHolder(cfg, w, p);
  }

  lemma IsolationIsLabelled(cfg: Config, w: World, p: nat, lost: bool, e: string)
    requires Inv(w) && Excl(cfg, w) && PcOf(w, p).Unfit? && HashOk(w, e) && !Finished(w, e)
    ensures Labelled(DoIsolate(w, p, lost), e)
  {
    hide Core, Witnesses, Excl, Quarantine;
    var pc := PcOf(w, p);
    LookupHolder(cfg, w, p);
    EncodeFields(w.owner[pc.id], w.accepted[w.owner[pc.id]]);
    QuarantineAnswers(w.store, pc.id, pc.reason);
    QuarantineEffect(w.store, pc.id, pc.reason);
  }

  lemma BurialEffect(s: Store, d: string, id: StreamId, error: string, e: string)
    ensures var (s', reply) := MoveToDeadLetter(s, d, id, error);
            && Current(s', e) == Current(s, e)
            && (reply.Ok? ==> Current(s, d) == id && StatusOf(s', d) == Some(DeadLetter))
            && (d != e ==> StatusOf(s', e) == StatusOf(s, e))
            && (reply.Err? ==> s' == s)
  {
  }

  lemma BurialIsLabelled(cfg: Config, w: World, p: nat, due: int, e: string)
    requires Inv(w) && Excl(cfg, w) && PcOf(w, p).Refused? && HashOk(w, e) && !Finished(w, e)
    ensures Labelled(DoGiveUp(cfg, w, p, due), e)
  {
    hide Core, Witnesses, Excl, MoveToDeadLetter, ScheduleRetry;
    var pc := PcOf(w, p);
    LookupHolder(cfg, w, p);
    BurialEffect(w.store, pc.m.e, pc.m.id, ErrorName(pc.error), e);
    ScheduleKeepsPlace(w.store, pc.m.e, pc.m.id, due, ErrorName(pc.error), e);
  }

  lemma ReleaseEndsNothing(w: World, step: Step, e: string)
    requires Inv(w) && step.Release? && Enabled(w, step) && HashOk(w, e) && !Finished(w, e)
    ensures !Finished(DoRelease(w, step.p, step.first, step.clock, step.lost), e)
  {
    hide ReleaseDueRetry;
    var id' := NextId(w.store.lastId, step.clock);
    assert id' !in w.store.entries by { assert id' in w.store.entries ==> EntryOk(w, id'); }
    assert id' !in w.fates by { assert id' in w.fates ==> FateOk(w, id'); }
    hide Inv, FirstDue, Due;
    ReleaseKeepsOthersPlace(w.store, step.first, step.clock, e);
    ReleaseMovesTo(w.store, step.first, step.clock);
  }

  lemma ReleaseMovesTo(s: Store, first: Option<string>, clock: nat)
    ensures var (s', reply) := ReleaseDueRetry(s, first, clock);
            reply == Ok(1) ==>
              && first.Some? && Current(s', first.value) == NextId(s.lastId, clock) == s'.lastId
              && first.value in s.statuses && Readable(s.statuses[first.value].streamId)
              && s.statuses[first.value].streamId.id == Current(s, first.value)
  {
  }

  lemma AcceptEndsNothing(cfg: Config, w: World, step: Step, e: string)
    requires Enabled(w, step) && (step.Accept? || step.AcceptKeyed?) && HashOk(w, e) && !Finished(w, e)
    ensures !Finished(Apply(cfg, w, step), e)
  {
  }

  lemma EndingIsLabelled(cfg: Config, w: World, step: Step, e: string)
    requires Inv(w) && Excl(cfg, w) && Enabled(w, step) && e in w.accepted && !Finished(w, e)
    ensures Labelled(Apply(cfg, w, step), e)
  {
    hide Core, Witnesses, Excl, DoFinish, DoIsolate, DoGiveUp, DoRelease;
    KnownEvent(w, e);
    match step
    case Finish(p) => CompletionIsLabelled(cfg, w, p, e);
    case Isolate(p, lost) => IsolationIsLabelled(cfg, w, p, lost, e);
    case GiveUp(p, due) => BurialIsLabelled(cfg, w, p, due, e);
    case Release(_, _, _, _, _) => ReleaseEndsNothing(w, step, e);
    case Accept(_, _, _) => AcceptEndsNothing(cfg, w, step, e);
    case AcceptKeyed(_, _, _, _) => AcceptEndsNothing(cfg, w, step, e);
    case _ => QuietStep(cfg, w, step);
  }

  lemma LabelStays(cfg: Config, w: World, step: Step, e: string)
    requires Inv(w) && Excl(cfg, w) && Enabled(w, step) && e in w.accepted && Finished(w, e) && Labelled(w, e)
    ensures Labelled(Apply(cfg, w, step), e)
  {
    hide Inv, Excl, Apply, Enabled, Finished;
    FinishedShows(cfg, w, e);
    StepKeepsFinished(cfg, w, step, e);
    StepMoves(cfg, w, step, e);
    SameLabel(cfg, w, Apply(cfg, w, step), e);
  }

  lemma SameLabel(cfg: Config, w: World, w': World, e: string)
    requires Labelled(w, e) && SameHistory(w, w', e) && HasStatusIn(w, e, Delivered, DeadLetter)
    requires MovesLegally(cfg, w, w', e)
    ensures Labelled(w', e)
  {
    hide Messages, Burials;
  }

  lemma NewIsUnfinished(cfg: Config, w: World, step: Step, e: string)
    requires Inv(w) && Enabled(w, step) && e !in w.accepted && e in Apply(cfg, w, step).accepted
    ensures !Finished(Apply(cfg, w, step), e)
  {
    if step.Accept? || step.AcceptKeyed? {
      var id' := NextId(w.store.lastId, step.clock);
      assert id' !in w.store.entries by { assert id' in w.store.entries ==> EntryOk(w, id'); }
      assert id' !in w.fates by { assert id' in w.fates ==> FateOk(w, id'); }
      hide Inv;
    } else {
      hide Inv, Apply, Enabled;
      NoNewEvent(cfg, w, step);
    }
  }

  lemma NoNewEvent(cfg: Config, w: World, step: Step)
    requires Enabled(w, step) && !step.Accept? && !step.AcceptKeyed?
    ensures Apply(cfg, w, step).accepted == w.accepted
  {
    if Quiet(step) {
      hide Apply, Enabled;
      QuietStep(cfg, w, step);
    } else {
      hide ReleaseDueRetry, Quarantine, CompleteDelivery, MoveToDeadLetter, ScheduleRetry, FirstDue, Due;
    }
  }

  lemma {:induction false} RunKeepsLabels(cfg: Config, ws: seq<World>, steps: seq<Step>, i: nat, e: string)
    requires IsExclusiveRun(cfg, ws, steps) && i < |ws| && e in ws[i].accepted
    ensures Labelled(ws[i], e)
  {
    hide Inv, Excl, Apply, Enabled, Labelled;
    if i > 0 {
      RunKeepsExcl(cfg, ws, steps, i - 1);
      var w, step := ws[i - 1], steps[i - 1];
      if e !in w.accepted {
        NewIsUnfinished(cfg, w, step, e);
        UnfinishedIsLabelled(ws[i], e);
      } else if Finished(w, e) {
        RunKeepsLabels(cfg, ws, steps, i - 1, e);
        LabelStays(cfg, w, step, e);
      } else {
        EndingIsLabelled(cfg, w, step, e);
      }
    }
  }

  lemma UnfinishedIsLabelled(w: World, e: string)
    requires !Finished(w, e)
    ensures Labelled(w, e)
  {
  }

  /**
   In exclusive runs the public status tells the ending: delivered exactly after completion, dead_letter exactly after
   dead-letter or quarantine, and any other status exactly while the event has not finished.
   */
  lemma StatusNamesEnding(cfg: Config, ws: seq<World>, steps: seq<Step>, i: nat, e: string)
    requires IsExclusiveRun(cfg, ws, steps) && i < |ws| && e in ws[i].accepted
    ensures var w, id := ws[i], Current(ws[i].store, e);
            && (StatusOf(w.store, e) == Some(Delivered) <==> id in w.fates && w.fates[id] == Completed)
            && (StatusOf(w.store, e) == Some(DeadLetter)
                <==> id in w.fates && w.fates[id] in {DeadLettered, Quarantined})
            && (HasStatusIn(w, e, Delivered, DeadLetter) <==> Finished(w, e))
  {
    TerminalIffFinished(cfg, ws, steps, i, e);
    RunKeepsLabels(cfg, ws, steps, i, e);
  }

  /** The two branches meant for corrupted records are never taken in exclusive runs. */
  lemma DefensiveBranchesUnreached(cfg: Config, ws: seq<World>, steps: seq<Step>, i: nat)
    requires IsExclusiveRun(cfg, ws, steps) && i < |steps|
    ensures steps[i].Release? ==> ReleaseDueRetry(ws[i].store, steps[i].first, steps[i].clock).1 != Ok(2)
    ensures forall id :: id in ws[i].store.pending ==>
              id in ws[i].store.entries && Dispose(ws[i].store, id) != Violation
  {
    RunKeepsExcl(cfg, ws, steps, i);
    if steps[i].Release? {
      ReleaseKeepsExcl(cfg, ws[i], steps[i]);
    }
    forall id | id in ws[i].store.pending
      ensures id in ws[i].store.entries && Dispose(ws[i].store, id) != Violation
    {
      PendingIsFit(ws[i], id);
    }
  }
}
