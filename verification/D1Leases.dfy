/**
 What the two leases are for: a running attempt keeps other consumers off its event, and a claimed outbox row is out
 of reach of other repairs, until the lease has run out or its holder has let go.
 */
module D1Leases {
  import opened Options
  import opened DeliveryPolicy
  import opened Chunker
  import opened D1Store
  import opened D1Batch
  import opened D1Statements
  import opened D1World
  import opened D1Safety
  import opened D1Preservation
  import opened D1Guarantees

  // ---------------------------------------------------------------- the delivery lease, one call

  /** A consumer that comes before the lease of a running attempt is over is told so, and leaves everything alone. */
  lemma RunningAttemptIsBusy(d: D1, e: string, token: nat, now: int, maximum: int)
    requires e in d.events && d.events[e].status == Delivering
    requires d.events[e].lease.Some? && now < d.events[e].lease.value
    ensures StartAlone(d, e, token, now, maximum) == (d, Busy(d.events[e].attempts))
  {
  }

  /** The row a consumer may start an attempt on, spelled out status by status. */
  predicate Free(row: Row, now: int, maximum: int) {
    match row.status
    case Queued => row.attempts < maximum
    case RetryScheduled => row.attempts < maximum
    case Delivering => row.attempts <= maximum && (row.lease.Some? ==> row.lease.value <= now)
    case Delivered => false
    case DeadLetter => false
  }

  /**
   A call takes the row exactly when it is free. It then gives it its own token and a lease of half a minute, and
   counts an attempt, except that a taken-over attempt never counts past the maximum. Nothing else changes.
   */
  lemma StartTakesExactlyFreeRows(d: D1, e: string, token: nat, now: int, maximum: int)
    ensures var d' := StartAlone(d, e, token, now, maximum).0;
            && d' == d.(events := d'.events) && d'.events.Keys == d.events.Keys
            && (forall f :: f in d.events && f != e ==> d'.events[f] == d.events[f])
            && (e in d.events ==>
                  var row, row' := d.events[e], d'.events[e];
                  if Free(row, now, maximum) then
                    row' == row.(status := Delivering, token := Some(token), lease := Some(now + 30000),
                                 attempts := if row.status == Delivering && row.attempts == maximum
                                             then maximum else row.attempts + 1)
                  else if row.status in {Queued, RetryScheduled} then row' == row.(status := DeadLetter)
                  else row' == row)
  {
  }

  /** What the caller is told, from the row it found. */
  lemma StartAnswers(d: D1, e: string, token: nat, now: int, maximum: int)
    ensures var start := StartAlone(d, e, token, now, maximum).1;
            if e !in d.events then start == NotFound
            else
              var row := d.events[e];
              && (start.Finished? <==>
                    Terminal(row.status) || (row.status in {Queued, RetryScheduled} && row.attempts >= maximum))
              && (start.Finished? ==>
                    && start.attempts == row.attempts
                    && start.status == (if row.status == Delivered then Delivered else DeadLetter))
              && (start.Busy? <==> row.status == Delivering && !Free(row, now, maximum))
              && (start.Busy? ==> start.attempts == row.attempts)
              && (start.Started? <==> Free(row, now, maximum) && LoadPayload(d, e, row.legacyPayload).Some?)
              && (start.Started? ==>
                    && start.token == token && start.eventType == row.eventType
                    && Some(start.payload) == LoadPayload(d, e, row.legacyPayload)
                    && start.attempts == StartAlone(d, e, token, now, maximum).0.events[e].attempts)
              && !start.NotFound?
  {
    assert ChunkRows(ClaimAttempt(d, e, token, now, maximum).0, e) == ChunkRows(d, e);
  }

  /** The end of an attempt reaches the row only while the row is delivering under the attempt's own token. */
  lemma TokenGuardsRow(d: D1, e: string, status: EventStatus, token: nat)
    ensures var (d', moved) := Transition(d, e, status, token);
            && (moved <==> e in d.events && d.events[e].status == Delivering && d.events[e].token == Some(token))
            && d' == if moved
                     then d.(events := d.events[e := d.events[e].(status := status, token := None, lease := None)])
                     else d
  {
  }

  // ---------------------------------------------------------------- the delivery lease, whole runs

  /** Step `k` draws a fresh token for `e`: a consumer has started an attempt. */
  ghost predicate Claims(ws: seq<World>, steps: seq<Step>, k: nat, e: string)
    requires k < |steps| && |ws| == |steps| + 1
  {
    steps[k].Begin? && e in ws[k + 1].latest && ws[k + 1].latest[e] == ws[k].tokens
  }

  /** Step `k` concludes the attempt that holds `token`. */
  ghost predicate Concludes(ws: seq<World>, steps: seq<Step>, k: nat, e: string, token: nat)
    requires k < |steps| && |ws| == |steps| + 1
  {
    && steps[k].Conclude? && PcOf(ws[k], steps[k].p).Concluding?
    && PcOf(ws[k], steps[k].p).a.token == token && EventOf(ws[k], PcOf(ws[k], steps[k].p).a.m) == e
  }

  /** Attempt `token` on `e`, started at `now`, is the latest, and its row says so. */
  predicate Leased(w: World, e: string, token: nat, now: int) {
    && e in w.accepted && e in w.latest && w.latest[e] == token
    && e in w.db.events && w.db.events[e].status == Delivering && w.db.events[e].token == Some(token)
    && w.db.events[e].lease == Some(now + 30000)
  }

  lemma ClaimLeases(cfg: Config, w: World, step: Step, e: string)
    requires Inv(cfg, w) && Enabled(w, step) && step.Begin?
    requires e in Apply(cfg, w, step).latest && Apply(cfg, w, step).latest[e] == w.tokens
    ensures Leased(Apply(cfg, w, step), e, w.tokens, step.now)
  {
    PcIsOk(cfg, w, step.p);
    assert e in w.accepted ==> RowOk(cfg, w, e);
    assert e in w.latest ==> e in w.accepted;
    hide Inv, RowOk, PcOk, Startable, NextAttempt;
  }

  /** A step that leaves the row alone leaves its latest attempt alone, and a claim gives the row a fresh token. */
  lemma LatestMovesWithRow(cfg: Config, w: World, step: Step, e: string)
    requires Inv(cfg, w) && KeysOk(cfg, w) && Enabled(w, step) && e in w.accepted
    requires e in w.db.events && e in Apply(cfg, w, step).db.events
    requires Apply(cfg, w, step).db.events[e] == w.db.events[e] || !step.Begin?
    ensures SameLatest(w, Apply(cfg, w, step), e)
  {
    if step.Begin? {
      assert RowOk(cfg, w, e);
      hide Inv, KeysOk, RowOk, DoBegin, SameLatest;
      SameRowKeepsLatest(cfg, w, step.p, step.now, step.ran, step.lost, e);
    } else {
      hide Inv, KeysOk, Enabled, Apply, SameLatest;
      OthersDrawNothing(cfg, w, step, e);
    }
  }

  lemma SameRowKeepsLatest(cfg: Config, w: World, p: nat, now: int, ran: bool, lost: bool, e: string)
    requires PcOf(w, p).Took? && e in w.db.events && w.db.events[e].token != Some(w.tokens)
    requires e in DoBegin(cfg, w, p, now, ran, lost).db.events
    requires DoBegin(cfg, w, p, now, ran, lost).db.events[e] == w.db.events[e]
    ensures SameLatest(w, DoBegin(cfg, w, p, now, ran, lost), e)
  {
    hide Startable, NextAttempt;
  }

  lemma StepKeepsAccepted(cfg: Config, w: World, step: Step, e: string)
    requires Inv(cfg, w) && KeysOk(cfg, w) && Enabled(w, step) && e in w.accepted
    ensures e in Apply(cfg, w, step).accepted
  {
    hide Inv, KeysOk, Enabled, Apply;
    StepLasts(cfg, w, step, e);
  }

  /** What may end a lease. */
  predicate EndsLease(w: World, w': World, step: Step, e: string, token: nat, now: int) {
    || (step.Begin? && step.now >= now + 30000 && e in w'.latest && w'.latest[e] == w.tokens)
    || (step.Conclude? && PcOf(w, step.p).Concluding? && PcOf(w, step.p).a.token == token
        && EventOf(w, PcOf(w, step.p).a.m) == e)
  }

  lemma LeaseEnds(cfg: Config, w: World, step: Step, e: string, token: nat, now: int)
    requires Inv(cfg, w) && KeysOk(cfg, w) && Enabled(w, step) && Leased(w, e, token, now)
    ensures Leased(Apply(cfg, w, step), e, token, now) || EndsLease(w, Apply(cfg, w, step), step, e, token, now)
  {
    hide Inv, KeysOk, Enabled, Apply, MovedByRight, SameLatest, EndsLease;
    StepKeepsAccepted(cfg, w, step, e);
    RowMovesByRight(cfg, w, step, e);
    if Apply(cfg, w, step).db.events[e] == w.db.events[e] {
      LatestMovesWithRow(cfg, w, step, e);
      SameLatestLeases(w, Apply(cfg, w, step), e, token, now);
    } else {
      MoveEndsLease(cfg, w, Apply(cfg, w, step), step, e, token, now);
    }
  }

  lemma SameLatestLeases(w: World, w': World, e: string, token: nat, now: int)
    requires Leased(w, e, token, now) && SameLatest(w, w', e) && e in w'.accepted
    requires e in w'.db.events && w'.db.events[e] == w.db.events[e]
    ensures Leased(w', e, token, now)
  {
  }

  lemma MoveEndsLease(cfg: Config, w: World, w': World, step: Step, e: string, token: nat, now: int)
    requires Leased(w, e, token, now) && e in w'.db.events && MovedByRight(cfg, w, w', step, e)
    ensures EndsLease(w, w', step, e, token, now)
  {
  }

  /**
   An attempt started at `now` stays its event's latest, with its lease, until a consumer whose clock shows at least
   `now + 30000` starts the next one, or its holder concludes.
   */
  lemma {:induction false} LeaseHolds(cfg: Config, ws: seq<World>, steps: seq<Step>, i: nat, j: nat, e: string)
    requires IsRun(cfg, ws, steps) && i < j < |ws| && Claims(ws, steps, i, e)
    ensures || Leased(ws[j], e, ws[i].tokens, steps[i].now)
            || exists k: nat :: i < k < j && (|| (Claims(ws, steps, k, e) && steps[k].now >= steps[i].now + 30000)
                                         || Concludes(ws, steps, k, e, ws[i].tokens))
  {
    hide Inv, KeysOk, Apply, Enabled, Leased;
    RunKeeps(cfg, ws, steps, j - 1);
    if j == i + 1 {
      ClaimLeases(cfg, ws[i], steps[i], e);
    } else {
      LeaseHolds(cfg, ws, steps, i, j - 1, e);
      if Leased(ws[j - 1], e, ws[i].tokens, steps[i].now) {
        LeaseEnds(cfg, ws[j - 1], steps[j - 1], e, ws[i].tokens, steps[i].now);
        assert || Leased(ws[j], e, ws[i].tokens, steps[i].now)
               || (Claims(ws, steps, j - 1, e) && steps[j - 1].now >= steps[i].now + 30000)
               || Concludes(ws, steps, j - 1, e, ws[i].tokens);
      }
    }
  }

  /** Between two attempts on one event lies a lease, on the consumers' clocks, or the end of the earlier attempt. */
  lemma AttemptsAreALeaseApart(cfg: Config, ws: seq<World>, steps: seq<Step>, i: nat, j: nat, e: string)
    requires IsRun(cfg, ws, steps) && i < j < |steps| && Claims(ws, steps, i, e) && Claims(ws, steps, j, e)
    ensures exists k: nat :: i < k <= j && (|| (Claims(ws, steps, k, e) && steps[k].now >= steps[i].now + 30000)
                                            || Concludes(ws, steps, k, e, ws[i].tokens))
  {
    hide Inv, KeysOk, Apply, Enabled;
    LeaseHolds(cfg, ws, steps, i, j, e);
    if Leased(ws[j], e, ws[i].tokens, steps[i].now) {
      LeaseHolds(cfg, ws, steps, i, j + 1, e);
      RunKeeps(cfg, ws, steps, j);
      LatestIsPast(cfg, ws[j], e);
    }
  }

  lemma LatestIsPast(cfg: Config, w: World, e: string)
    requires Inv(cfg, w) && e in w.accepted && e in w.latest
    ensures w.latest[e] < w.tokens
  {
    assert RowOk(cfg, w, e);
  }

  // ---------------------------------------------------------------- the outbox lease, one call

  /** A pending row that nobody has a current claim on. */
  lemma ClaimableMeans(d: D1, t: int, e: string)
    ensures Claimable(d, t, e) <==>
            && e in d.outbox && !d.outbox[e].sent
            && (d.outbox[e].claim.Some? ==> d.outbox[e].lease.Some? && t >= d.outbox[e].lease.value)
  {
  }

  /** Marking and releasing reach a pending row only under the very claim the caller names, and no other row. */
  lemma ClaimGuardsRow(d: D1, e: string, token: nat, claim: Option<nat>, now: int)
    ensures var pending := e in d.outbox && !d.outbox[e].sent;
            var (d', done) := MarkDispatched(d, e, claim, now);
            && (done <==> pending && d.outbox[e].claim == claim)
            && d' == if done then d.(outbox := d.outbox[e := Box(true, d.outbox[e].sends + 1, None, None, now)]) else d
    ensures var pending := e in d.outbox && !d.outbox[e].sent;
            ReleaseClaim(d, e, token, now) ==
            if pending && d.outbox[e].claim == Some(token)
            then d.(outbox := d.outbox[e := Box(false, d.outbox[e].sends, None, None, now)])
            else d
  {
  }

  // ---------------------------------------------------------------- the outbox lease, whole runs

  /** Step `k` claims the outbox row of `e` for a repair. */
  ghost predicate Takes(steps: seq<Step>, k: nat, e: string)
    requires k < |steps|
  {
    steps[k].StartTour? && e in steps[k].picked
  }

  /** The repair that holds `token` marks the row of `e` sent, or releases it. */
  predicate Releases(w: World, step: Step, e: string, token: nat) {
    var pc := PcOf(w, step.p);
    && ((step.TourMark? && pc.TourMarking?) || (step.TourFree? && pc.TourFreeing?))
    && pc.tour.token == token && Head(pc.tour) == e
  }

  /** So in step `k`. */
  ghost predicate LetsGo(ws: seq<World>, steps: seq<Step>, k: nat, e: string, token: nat)
    requires k < |steps| && |ws| == |steps| + 1
  {
    Releases(ws[k], steps[k], e, token)
  }

  /** The row of `e` is pending under the claim `token`, made at `now`. */
  predicate Reserved(w: World, e: string, token: nat, now: int) {
    && e in w.accepted && e in w.db.outbox
    && w.db.outbox[e] == Box(false, 0, Some(token), Some(now + 30000), now)
  }

  lemma TourReserves(cfg: Config, w: World, step: Step, e: string)
    requires Inv(cfg, w) && Enabled(w, step) && step.StartTour? && e in step.picked
    ensures Reserved(Apply(cfg, w, step), e, w.tokens, step.now)
  {
    assert Claimable(w.db, step.now, e);
    assert BoxOk(w, e);
  }

  lemma ReservationEnds(cfg: Config, w: World, step: Step, e: string, token: nat, now: int)
    requires Inv(cfg, w) && KeysOk(cfg, w) && Enabled(w, step) && Reserved(w, e, token, now)
    ensures || Reserved(Apply(cfg, w, step), e, token, now)
            || (step.StartTour? && e in step.picked && step.now >= now + 30000)
            || Releases(w, step, e, token)
  {
    if step.Accept? {
      AcceptKeepsBox(cfg, w, step, e);
    } else if step.StartTour? {
      hide Inv, KeysOk, Releases;
      TourTakesOver(cfg, w, step, e, token, now);
    } else if step.Mark? || step.TourMark? || step.TourFree? {
      hide Inv, KeysOk, Apply, Enabled;
      MarksMoveBox(cfg, w, step, e, token, now);
    } else {
      hide Inv, KeysOk, Apply, Enabled;
      OutboxStays(cfg, w, step);
    }
  }

  lemma TourTakesOver(cfg: Config, w: World, step: Step, e: string, token: nat, now: int)
    requires Enabled(w, step) && step.StartTour? && Reserved(w, e, token, now)
    ensures Reserved(Apply(cfg, w, step), e, token, now) || (e in step.picked && step.now >= now + 30000)
  {
    hide Lists;
    assert e in step.picked ==> Claimable(w.db, step.now, e);
  }

  lemma MarksMoveBox(cfg: Config, w: World, step: Step, e: string, token: nat, now: int)
    requires Enabled(w, step) && Reserved(w, e, token, now) && (step.Mark? || step.TourMark? || step.TourFree?)
    ensures Reserved(Apply(cfg, w, step), e, token, now) || Releases(w, step, e, token)
  {
  }

  lemma AcceptKeepsBox(cfg: Config, w: World, step: Step, e: string)
    requires Inv(cfg, w) && KeysOk(cfg, w) && Enabled(w, step) && step.Accept? && e in w.accepted
    requires e in w.db.outbox
    ensures e in Apply(cfg, w, step).accepted && e in Apply(cfg, w, step).db.outbox
    ensures Apply(cfg, w, step).db.outbox[e] == w.db.outbox[e]
  {
    KeysPointAtEvents(cfg, w);
    hide Inv, KeysOk;
    AcceptAddsOrLeaves(cfg, w, step.p, step.e, step.request, step.key, step.now, step.lost);
    hide DoAccept;
  }

  lemma OutboxStays(cfg: Config, w: World, step: Step)
    requires Enabled(w, step) && !step.Accept? && !step.StartTour? && !step.Mark? && !step.TourMark? && !step.TourFree?
    ensures Apply(cfg, w, step).db.outbox == w.db.outbox && Apply(cfg, w, step).accepted == w.accepted
  {
    if step.Begin? || step.Snapshot? || step.Exhaust? || step.Recheck? {
      hide Startable, NextAttempt, AfterSnapshot, AfterRecheck, Dispatch;
    } else {
      hide LoadedPayload, Report, Outcome, DoBegin, DoSnapshot, DoExhaust, DoRecheck, Dispatch, ClaimOutbox, Next;
    }
  }

  /**
   A row claimed at `now` stays pending under that claim until a repair whose clock shows at least `now + 30000`
   claims it, or its holder marks it sent or releases it.
   */
  lemma {:induction false} ClaimHolds(cfg: Config, ws: seq<World>, steps: seq<Step>, i: nat, j: nat, e: string)
    requires IsRun(cfg, ws, steps) && i < j < |ws| && Takes(steps, i, e)
    ensures || Reserved(ws[j], e, ws[i].tokens, steps[i].now)
            || exists k: nat :: i < k < j && (|| (Takes(steps, k, e) && steps[k].now >= steps[i].now + 30000)
                                              || LetsGo(ws, steps, k, e, ws[i].tokens))
  {
    hide Inv, KeysOk, Apply, Enabled, Reserved;
    RunKeeps(cfg, ws, steps, j - 1);
    if j == i + 1 {
      TourReserves(cfg, ws[i], steps[i], e);
    } else {
      ClaimHolds(cfg, ws, steps, i, j - 1, e);
      if Reserved(ws[j - 1], e, ws[i].tokens, steps[i].now) {
        ReservationEnds(cfg, ws[j - 1], steps[j - 1], e, ws[i].tokens, steps[i].now);
        assert || Reserved(ws[j], e, ws[i].tokens, steps[i].now)
               || (Takes(steps, j - 1, e) && steps[j - 1].now >= steps[i].now + 30000)
               || LetsGo(ws, steps, j - 1, e, ws[i].tokens);
      }
    }
  }

  /** Two repairs claim the same unsent row only a lease apart, or after the first has let it go. */
  lemma ClaimsAreALeaseApart(cfg: Config, ws: seq<World>, steps: seq<Step>, i: nat, j: nat, e: string)
    requires IsRun(cfg, ws, steps) && i < j < |steps| && Takes(steps, i, e) && Takes(steps, j, e)
    ensures exists k: nat :: i < k <= j && (|| (Takes(steps, k, e) && steps[k].now >= steps[i].now + 30000)
                                            || LetsGo(ws, steps, k, e, ws[i].tokens))
  {
    ClaimHolds(cfg, ws, steps, i, j, e);
    if Reserved(ws[j], e, ws[i].tokens, steps[i].now) {
      assert Claimable(ws[j].db, steps[j].now, e);
      assert Takes(steps, j, e) && steps[j].now >= steps[i].now + 30000;
    }
  }
}
