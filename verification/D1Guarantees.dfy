/** The guarantees of the Cloudflare backend over whole runs, for any interleaving, loss, crash and clock. */
module D1Guarantees {
  import opened Options
  import opened DeliveryPolicy
  import opened Chunker
  import opened D1Store
  import opened D1Batch
  import opened D1World
  import opened D1Safety
  import opened D1Preservation

  // ---------------------------------------------------------------- no loss

  /** From time `t` on, every repair with room for it claims the outbox row of `e`. */
  ghost predicate ClaimableFrom(d: D1, e: string, t: int) {
    forall now: int {:trigger Claimable(d, now, e)} :: now >= t ==> Claimable(d, now, e)
  }

  /** From time `t` on, a consumer with this maximum can start an attempt on the row. */
  ghost predicate StartableFrom(row: Row, maximum: int, t: int) {
    forall now: int {:trigger Startable(row, now, maximum)} :: now >= t ==> Startable(row, now, maximum)
  }

  /**
   No loss: at every moment of every run an accepted event is terminal, or its outbox row is pending and will be
   claimable by a repair, or an unacknowledged queue message refers to it.
   */
  lemma NoLoss(cfg: Config, ws: seq<World>, steps: seq<Step>, i: nat, e: string)
    requires IsRun(cfg, ws, steps) && i < |ws| && e in ws[i].accepted
    ensures var w := ws[i];
            && e in w.db.events && e in w.db.outbox
            && (|| Done(w, e)
                || (!w.db.outbox[e].sent && exists t: int :: ClaimableFrom(w.db, e, t))
                || exists m: nat :: Unacked(w, m, e))
  {
    RunKeeps(cfg, ws, steps, i);
    var w := ws[i];
    assert RowOk(cfg, w, e) && BoxOk(w, e);
    var box := w.db.outbox[e];
    if !box.sent {
      var t := if box.lease.Some? then box.lease.value else 0;
      assert ClaimableFrom(w.db, e, t);
    }
  }

  /** Only messages of terminal events are ever acknowledged. */
  lemma AckedMeansDone(cfg: Config, ws: seq<World>, steps: seq<Step>, i: nat, m: nat)
    requires IsRun(cfg, ws, steps) && i < |ws| && m in ws[i].acked
    ensures m < |ws[i].messages| && Done(ws[i], ws[i].messages[m])
  {
    RunKeeps(cfg, ws, steps, i);
    assert MessageOk(ws[i], m);
  }

  // ---------------------------------------------------------------- fencing

  /**
   The transition at the end of an attempt takes effect exactly when the attempt is its event's latest STARTED
   one; otherwise it reports false and the database stays as it was.
   */
  lemma OnlyLatestConcludes(cfg: Config, ws: seq<World>, steps: seq<Step>, i: nat, p: nat)
    requires IsRun(cfg, ws, steps) && i < |ws| && PcOf(ws[i], p).Concluding?
    ensures var w, pc := ws[i], PcOf(ws[i], p);
            var e := EventOf(w, pc.a.m);
            var (d, moved) := Transition(w.db, e, pc.outcome, pc.a.token);
            && e in w.latest && e in w.db.events
            && (moved <==> w.latest[e] == pc.a.token)
            && (!moved ==> d == w.db)
            && (moved ==> d.events[e].status == pc.outcome && d.events[e].attempts == pc.a.number)
  {
    RunKeeps(cfg, ws, steps, i);
    PcIsOk(cfg, ws[i], p);
    var e := EventOf(ws[i], PcOf(ws[i], p).a.m);
    assert RowOk(cfg, ws[i], e);
  }

  /** While an attempt is its event's latest, the row is delivering with the attempt's own token and number. */
  lemma CurrentAttemptIsRecorded(cfg: Config, ws: seq<World>, steps: seq<Step>, i: nat, p: nat)
    requires IsRun(cfg, ws, steps) && i < |ws| && Holds(PcOf(ws[i], p))
    ensures var w, a := ws[i], PcOf(ws[i], p).a;
            var e := EventOf(w, a.m);
            && e in w.latest && e in w.db.events && w.latest[e] >= a.token
            && (w.latest[e] == a.token <==> w.db.events[e].token == Some(a.token))
            && (w.latest[e] == a.token ==> w.db.events[e].status == Delivering && w.db.events[e].attempts == a.number)
    ensures forall q :: q != p && Holds(PcOf(ws[i], q)) ==> PcOf(ws[i], q).a.token != PcOf(ws[i], p).a.token
  {
    RunKeeps(cfg, ws, steps, i);
    PcIsOk(cfg, ws[i], p);
    var e := EventOf(ws[i], PcOf(ws[i], p).a.m);
    assert RowOk(cfg, ws[i], e);
    assert PcOf(ws[i], p) == ws[i].pcs[p];
  }

  /** The three ways in which a row may change. */
  predicate MovedByRight(cfg: Config, w: World, w': World, step: Step, e: string)
    requires e in w.db.events && e in w'.db.events
  {
    var pc, row, row' := PcOf(w, step.p), w.db.events[e], w'.db.events[e];
    || (&& step.Begin? && pc.Took? && EventOf(w, pc.m) == e && Startable(row, step.now, cfg.maximum(step.p))
        && e in w'.latest && w'.latest[e] == w.tokens && row'.token == Some(w.tokens) && row'.status == Delivering
        && row'.attempts == NextAttempt(row, cfg.maximum(step.p)))
    || (&& step.Exhaust? && pc.Spent? && EventOf(w, pc.m) == e
        && row.token == None && row' == row.(status := DeadLetter))
    || (&& step.Conclude? && pc.Concluding? && EventOf(w, pc.a.m) == e && e in w.latest
        && w.latest[e] == pc.a.token && row.attempts == pc.a.number
        && row' == row.(status := pc.outcome, token := None, lease := None))
  }

  /**
   Whatever changes an accepted event's row is a new claim with a fresh token, the burial of a waiting row that no
   attempt holds, or the conclusion of the latest attempt.
   */
  lemma OnlyTheseMoveARow(cfg: Config, ws: seq<World>, steps: seq<Step>, i: nat, e: string)
    requires IsRun(cfg, ws, steps) && i < |steps| && e in ws[i].accepted
    ensures e in ws[i].db.events && e in ws[i + 1].db.events
    ensures ws[i + 1].db.events[e] != ws[i].db.events[e] ==> MovedByRight(cfg, ws[i], ws[i + 1], steps[i], e)
  {
    RunKeeps(cfg, ws, steps, i);
    hide Inv, KeysOk, Apply, Enabled, MovedByRight;
    RowMovesByRight(cfg, ws[i], steps[i], e);
  }

  lemma RowMovesByRight(cfg: Config, w: World, step: Step, e: string)
    requires Inv(cfg, w) && KeysOk(cfg, w) && Enabled(w, step) && e in w.accepted
    ensures e in w.db.events && e in Apply(cfg, w, step).db.events
    ensures Apply(cfg, w, step).db.events[e] != w.db.events[e] ==> MovedByRight(cfg, w, Apply(cfg, w, step), step, e)
  {
    assert RowOk(cfg, w, e);
    hide Inv, KeysOk, MovedByRight, Apply, Enabled, RowOk;
    if step.Begin? {
      BeginMovesByRight(cfg, w, step, e);
    } else if step.Exhaust? {
      ExhaustMovesByRight(cfg, w, step, e);
    } else if step.Conclude? {
      ConcludeMovesByRight(cfg, w, step, e);
    } else if step.Accept? {
      AcceptMovesNoRow(cfg, w, step, e);
    } else {
      EventsStay(cfg, w, step);
    }
  }

  lemma AcceptMovesNoRow(cfg: Config, w: World, step: Step, e: string)
    requires Inv(cfg, w) && KeysOk(cfg, w) && Enabled(w, step) && step.Accept? && e in w.accepted && e in w.db.events
    ensures e in Apply(cfg, w, step).db.events && Apply(cfg, w, step).db.events[e] == w.db.events[e]
    ensures Apply(cfg, w, step).latest == w.latest
  {
    KeysPointAtEvents(cfg, w);
    hide Inv, KeysOk;
    AcceptAddsOrLeaves(cfg, w, step.p, step.e, step.request, step.key, step.now, step.lost);
    hide DoAccept;
  }

  lemma BeginMovesByRight(cfg: Config, w: World, step: Step, e: string)
    requires Inv(cfg, w) && Enabled(w, step) && step.Begin? && e in w.accepted
    ensures e in w.db.events && e in Apply(cfg, w, step).db.events
    ensures Apply(cfg, w, step).db.events[e] != w.db.events[e] ==> MovedByRight(cfg, w, Apply(cfg, w, step), step, e)
  {
    PcIsOk(cfg, w, step.p);
    assert RowOk(cfg, w, e);
  }

  lemma ExhaustMovesByRight(cfg: Config, w: World, step: Step, e: string)
    requires Inv(cfg, w) && Enabled(w, step) && step.Exhaust? && e in w.accepted
    ensures e in w.db.events && e in Apply(cfg, w, step).db.events
    ensures Apply(cfg, w, step).db.events[e] != w.db.events[e] ==> MovedByRight(cfg, w, Apply(cfg, w, step), step, e)
  {
    PcIsOk(cfg, w, step.p);
    assert RowOk(cfg, w, e);
  }

  lemma ConcludeMovesByRight(cfg: Config, w: World, step: Step, e: string)
    requires Inv(cfg, w) && Enabled(w, step) && step.Conclude? && e in w.accepted
    ensures e in w.db.events && e in Apply(cfg, w, step).db.events
    ensures Apply(cfg, w, step).db.events[e] != w.db.events[e] ==> MovedByRight(cfg, w, Apply(cfg, w, step), step, e)
  {
    PcIsOk(cfg, w, step.p);
    assert RowOk(cfg, w, e);
  }

  lemma EventsStay(cfg: Config, w: World, step: Step)
    requires Enabled(w, step) && !step.Accept? && !step.Begin? && !step.Exhaust? && !step.Conclude?
    ensures Apply(cfg, w, step).db.events == w.db.events && Apply(cfg, w, step).latest == w.latest
  {
    hide Picks, Lists, LoadedPayload, Report, Outcome;
  }

  // ---------------------------------------------------------------- what lasts

  /** From `w` to `w'` an accepted event keeps its content, an ending keeps its status and attempts. */
  ghost predicate Lasts(w: World, w': World, e: string) {
    && e in w'.accepted && e in w.accepted && w'.accepted[e] == w.accepted[e]
    && e in w.db.events && e in w'.db.events && e in w.db.outbox && e in w'.db.outbox
    && (Terminal(w.db.events[e].status) ==>
          w'.db.events[e].status == w.db.events[e].status && w'.db.events[e].attempts == w.db.events[e].attempts)
    && w.db.events[e].attempts <= w'.db.events[e].attempts
    && (w.db.outbox[e].sent ==> w'.db.outbox[e] == w.db.outbox[e])
  }

  lemma StepLasts(cfg: Config, w: World, step: Step, e: string)
    requires Inv(cfg, w) && KeysOk(cfg, w) && Enabled(w, step) && e in w.accepted
    ensures Lasts(w, Apply(cfg, w, step), e)
  {
    hide Inv, KeysOk, Apply, Enabled, Grows, Lasts;
    StepKeeps(cfg, w, step);
    LastsAtOnce(cfg, w, e);
    if Apply(cfg, w, step) != w {
      GrowthLasts(w, Apply(cfg, w, step), Own(PcOf(w, step.p)), e);
    }
  }

  lemma GrowthLasts(w: World, w': World, own: Option<nat>, e: string)
    requires Grows(w, w', own) && e in w.accepted
    ensures Lasts(w, w', e)
  {
    assert Evolves(w, w', e, own);
  }

  lemma LastsAtOnce(cfg: Config, w: World, e: string)
    requires Inv(cfg, w) && e in w.accepted
    ensures Lasts(w, w, e)
  {
    assert RowOk(cfg, w, e) && BoxOk(w, e);
  }

  /**
   Acceptance is for good, terminal rows never change status or attempt count again, attempt counts never
   decrease, and an outbox row that was sent stays exactly as it is.
   */
  lemma {:induction false} AcceptedLasts(cfg: Config, ws: seq<World>, steps: seq<Step>, i: nat, j: nat, e: string)
    requires IsRun(cfg, ws, steps) && i <= j < |ws| && e in ws[i].accepted
    ensures Lasts(ws[i], ws[j], e)
  {
    hide Inv, KeysOk, Apply, Enabled;
    RunKeeps(cfg, ws, steps, i);
    if i < j {
      AcceptedLasts(cfg, ws, steps, i, j - 1, e);
      RunKeeps(cfg, ws, steps, j - 1);
      StepLasts(cfg, ws[j - 1], steps[j - 1], e);
    } else {
      LastsAtOnce(cfg, ws[i], e);
    }
  }

  // ---------------------------------------------------------------- no attempt after the end

  predicate SameLatest(w: World, w': World, e: string) {
    (e in w'.latest <==> e in w.latest) && (e in w.latest ==> w'.latest[e] == w.latest[e])
  }

  /** The latest token moves only with a claim, which leaves the row delivering. */
  lemma ClaimsDeliver(cfg: Config, w: World, p: nat, now: int, ran: bool, lost: bool, e: string)
    requires PcOf(w, p).Took?
    ensures var w' := DoBegin(cfg, w, p, now, ran, lost);
            SameLatest(w, w', e) || (e in w'.db.events && w'.db.events[e].status == Delivering)
  {
    hide Startable, NextAttempt;
  }

  lemma EndingsDrawNothing(cfg: Config, w: World, p: nat, ran: bool, lost: bool)
    ensures PcOf(w, p).Spent? ==> DoExhaust(cfg, w, p, ran, lost).latest == w.latest
    ensures PcOf(w, p).Concluding? ==> DoConclude(w, p, ran, lost).latest == w.latest
  {
  }

  lemma OthersDrawNothing(cfg: Config, w: World, step: Step, e: string)
    requires Inv(cfg, w) && KeysOk(cfg, w) && Enabled(w, step) && !step.Begin? && e in w.accepted
    ensures SameLatest(w, Apply(cfg, w, step), e)
  {
    if step.Accept? {
      assert RowOk(cfg, w, e);
      hide Inv, KeysOk, Apply, Enabled;
      AcceptMovesNoRow(cfg, w, step, e);
    } else if step.Exhaust? || step.Conclude? {
      hide Inv, KeysOk, DoExhaust, DoConclude;
      EndingsDrawNothing(cfg, w, step.p, step.ran, step.lost);
    } else {
      hide Inv, KeysOk, Apply, Enabled;
      EventsStay(cfg, w, step);
    }
  }

  lemma EndedDrawsNothing(cfg: Config, w: World, step: Step, e: string)
    requires Inv(cfg, w) && KeysOk(cfg, w) && Enabled(w, step) && e in w.accepted && Done(w, e)
    ensures SameLatest(w, Apply(cfg, w, step), e)
  {
    if step.Begin? {
      StepLasts(cfg, w, step, e);
      hide Inv, KeysOk, DoBegin;
      ClaimsDeliver(cfg, w, step.p, step.now, step.ran, step.lost, e);
    } else {
      hide Inv, KeysOk, Apply, Enabled, SameLatest;
      OthersDrawNothing(cfg, w, step, e);
    }
  }

  lemma LastingEnd(w: World, w': World, e: string)
    requires Lasts(w, w', e) && Done(w, e)
    ensures Done(w', e) && e in w'.accepted
  {
  }

  /** Once an event is terminal no further attempt on it is started: no redelivery draws a token for it. */
  lemma {:induction false} NoAttemptAfterTheEnd(cfg: Config, ws: seq<World>, steps: seq<Step>, i: nat, j: nat,
                                                e: string)
    requires IsRun(cfg, ws, steps) && i <= j < |ws| && e in ws[i].accepted && Done(ws[i], e)
    ensures SameLatest(ws[i], ws[j], e) && Done(ws[j], e)
  {
    hide Inv, KeysOk, Apply, Enabled, Lasts, Done;
    AcceptedLasts(cfg, ws, steps, i, j, e);
    LastingEnd(ws[i], ws[j], e);
    if i < j {
      NoAttemptAfterTheEnd(cfg, ws, steps, i, j - 1, e);
      AcceptedLasts(cfg, ws, steps, i, j - 1, e);
      LastingEnd(ws[i], ws[j - 1], e);
      RunKeeps(cfg, ws, steps, j - 1);
      EndedDrawsNothing(cfg, ws[j - 1], steps[j - 1], e);
    }
  }

  // ---------------------------------------------------------------- acknowledgement

  /**
   Whenever `process` answers ACK, by whichever path, the event's row is terminal with exactly the reported
   status, then and in every later state, and its attempt count is final.
   */
  lemma AckIsFinal(cfg: Config, ws: seq<World>, steps: seq<Step>, i: nat, j: nat, p: nat)
    requires IsRun(cfg, ws, steps) && i <= j < |ws| && PcOf(ws[i], p).Answer? && PcOf(ws[i], p).ack
    ensures var pc := PcOf(ws[i], p);
            var e := EventOf(ws[i], pc.m);
            && e in ws[i].db.events && e in ws[j].db.events && Terminal(pc.status)
            && ws[j].db.events[e].status == pc.status
            && ws[j].db.events[e].attempts == ws[i].db.events[e].attempts
  {
    RunKeeps(cfg, ws, steps, i);
    PcIsOk(cfg, ws[i], p);
    AcceptedLasts(cfg, ws, steps, i, j, EventOf(ws[i], PcOf(ws[i], p).m));
  }

  // ---------------------------------------------------------------- what the sink receives

  /** Every sink call carries the event type and the payload first accepted under its event id. */
  lemma SinkReceivesAccepted(cfg: Config, ws: seq<World>, steps: seq<Step>, i: nat, k: nat)
    requires IsRun(cfg, ws, steps) && i < |ws| && k < |ws[i].calls|
    ensures var call := ws[i].calls[k];
            call.e in ws[i].accepted && ws[i].accepted[call.e] == Request(call.eventType, call.payload)
  {
    RunKeeps(cfg, ws, steps, i);
    assert CallOk(ws[i], ws[i].calls[k]);
  }

  /** A row says delivered, and an ACK reports it, only of an event that the sink accepted. */
  lemma DeliveredWasTaken(cfg: Config, ws: seq<World>, steps: seq<Step>, i: nat, e: string)
    requires IsRun(cfg, ws, steps) && i < |ws| && e in ws[i].accepted
    ensures e in ws[i].db.events && (ws[i].db.events[e].status == Delivered ==> e in ws[i].taken)
    ensures forall p ::
              PcOf(ws[i], p).Answer? && PcOf(ws[i], p).status == Delivered && EventOf(ws[i], PcOf(ws[i], p).m) == e ==>
                e in ws[i].taken
  {
    RunKeeps(cfg, ws, steps, i);
    assert RowOk(cfg, ws[i], e);
    forall p | PcOf(ws[i], p).Answer? && PcOf(ws[i], p).status == Delivered && EventOf(ws[i], PcOf(ws[i], p).m) == e
      ensures e in ws[i].taken
    {
      PcIsOk(cfg, ws[i], p);
    }
  }

  /** In this step the sink answers a call for `e` with a code from 200 to 299. */
  ghost predicate TakesNow(w: World, step: Step, e: string) {
    && step.CallSink? && PcOf(w, step.p).Loaded? && EventOf(w, PcOf(w, step.p).a.m) == e
    && step.response.Status? && 200 <= step.response.code < 300
  }

  lemma StepTakes(cfg: Config, w: World, step: Step, e: string)
    requires Inv(cfg, w) && KeysOk(cfg, w) && Enabled(w, step)
    ensures e in Apply(cfg, w, step).taken <==> e in w.taken || TakesNow(w, step, e)
  {
    if step.Accept? {
      KeysPointAtEvents(cfg, w);
      hide Inv, KeysOk;
      AcceptAddsOrLeaves(cfg, w, step.p, step.e, step.request, step.key, step.now, step.lost);
      hide DoAccept;
    } else if step.CallSink? {
      hide Inv, KeysOk, Outcome;
    } else {
      hide Inv, KeysOk, Apply, Enabled;
      OthersTakeNothing(cfg, w, step);
    }
  }

  lemma OthersTakeNothing(cfg: Config, w: World, step: Step)
    requires Enabled(w, step) && !step.Accept? && !step.CallSink?
    ensures Apply(cfg, w, step).taken == w.taken
  {
    if Dispatches(step) {
      hide Picks, Lists, MarkDispatched, ReleaseClaim, ClaimOutbox;
    } else {
      hide LoadedPayload, Report, Outcome, ClaimAttempt, BuryExhausted, Transition, AfterSnapshot, AfterRecheck;
    }
  }

  /** The sink has taken an event exactly when it has answered one of its calls with a code from 200 to 299. */
  lemma {:induction false} TakenIffAnswered(cfg: Config, ws: seq<World>, steps: seq<Step>, i: nat, e: string)
    requires IsRun(cfg, ws, steps) && i < |ws|
    ensures e in ws[i].taken <==> exists k :: 0 <= k < i && TakesNow(ws[k], steps[k], e)
  {
    hide Inv, KeysOk, Apply, Enabled, TakesNow;
    if i > 0 {
      TakenIffAnswered(cfg, ws, steps, i - 1, e);
      RunKeeps(cfg, ws, steps, i - 1);
      StepTakes(cfg, ws[i - 1], steps[i - 1], e);
    }
  }

  /** The second look after a lost race reports what it sees, and gives up on a row that waits again. */
  lemma RecheckTells(cfg: Config, ws: seq<World>, steps: seq<Step>, i: nat)
    requires IsRun(cfg, ws, steps) && i < |steps| && steps[i].Recheck? && !steps[i].lost
    ensures PcOf(ws[i], steps[i].p).Rechecking?
    ensures var m := PcOf(ws[i], steps[i].p).m;
            var e := EventOf(ws[i], m);
            && e in ws[i].db.events && ws[i + 1].db == ws[i].db
            && var row, pc := ws[i].db.events[e], PcOf(ws[i + 1], steps[i].p);
               match row.status
               case Delivered => pc == Answer(m, true, Delivered, row.attempts)
               case DeadLetter => pc == Answer(m, true, DeadLetter, row.attempts)
               case Delivering => pc == Answer(m, false, Delivering, row.attempts)
               case Queued => pc == Idle
               case RetryScheduled => pc == Idle
  {
    RunKeeps(cfg, ws, steps, i);
    PcIsOk(cfg, ws[i], steps[i].p);
    assert MessageOk(ws[i], PcOf(ws[i], steps[i].p).m);
    hide Inv, KeysOk;
  }

  // ---------------------------------------------------------------- the outbox

  /** A row's send count is one when it is sent and zero before. */
  lemma SentAtMostOnce(cfg: Config, ws: seq<World>, steps: seq<Step>, i: nat, e: string)
    requires IsRun(cfg, ws, steps) && i < |ws| && e in ws[i].accepted
    ensures e in ws[i].db.outbox && ws[i].db.outbox[e].sends == if ws[i].db.outbox[e].sent then 1 else 0
  {
    RunKeeps(cfg, ws, steps, i);
    assert BoxOk(ws[i], e);
  }

  /** A completed repair reports as repaired or deferred exactly the rows it claimed. */
  lemma ToursAccountForTheirClaims(cfg: Config, ws: seq<World>, steps: seq<Step>, i: nat, k: nat)
    requires IsRun(cfg, ws, steps) && i < |ws| && k < |ws[i].tours|
    ensures ws[i].tours[k].repaired + ws[i].tours[k].deferred == ws[i].tours[k].claimed
  {
    RunKeeps(cfg, ws, steps, i);
    assert TourReportOk(ws[i].tours[k]);
  }

  function SentRows(d: D1): set<string> { set e | e in d.outbox && d.outbox[e].sent }

  lemma {:induction false} DistinctWithin(xs: seq<string>, s: set<string>)
    requires forall i :: 0 <= i < |xs| ==> xs[i] in s
    requires forall i, j :: 0 <= i < j < |xs| ==> xs[i] != xs[j]
    ensures |xs| <= |s|
  {
    if xs != [] {
      var n := |xs| - 1;
      DistinctWithin(xs[..n], s - {xs[n]});
    }
  }

  /** Ingress and repairs together report at most one successful dispatch per sent row. */
  lemma ReportsWithinSentRows(cfg: Config, ws: seq<World>, steps: seq<Step>, i: nat)
    requires IsRun(cfg, ws, steps) && i < |ws|
    ensures |ws[i].dispatched| <= |SentRows(ws[i].db)|
    ensures forall k :: 0 <= k < |ws[i].dispatched| ==> ws[i].dispatched[k] in SentRows(ws[i].db)
  {
    RunKeeps(cfg, ws, steps, i);
    var w := ws[i];
    forall k | 0 <= k < |w.dispatched| ensures w.dispatched[k] in SentRows(w.db) {
      assert DispatchedOk(w, w.dispatched[k]);
    }
    DistinctWithin(w.dispatched, SentRows(w.db));
  }

  // ---------------------------------------------------------------- idempotent acceptance

  /** Accepted events are the distinct keys and the keyless acceptances; every event has its rows in each table. */
  lemma AcceptedIsKeysPlusKeyless(cfg: Config, ws: seq<World>, steps: seq<Step>, i: nat)
    requires IsRun(cfg, ws, steps) && i < |ws|
    ensures |ws[i].accepted| == |ws[i].db.keys| + |ws[i].keyless|
    ensures var d := ws[i].db; ws[i].accepted.Keys == d.events.Keys == d.chunks.Keys == d.outbox.Keys && Referential(d)
  {
    RunKeeps(cfg, ws, steps, i);
    KeysPointAtEvents(cfg, ws[i]);
  }

  /** What was accepted is what the tables hold, at every later moment. */
  lemma StoredAsAccepted(cfg: Config, ws: seq<World>, steps: seq<Step>, i: nat, e: string)
    requires IsRun(cfg, ws, steps) && i < |ws| && e in ws[i].accepted
    ensures e in ws[i].db.events && ws[i].db.events[e].eventType == ws[i].accepted[e].eventType
    ensures ws[i].db.events[e].fingerprint == cfg.digest(ws[i].accepted[e])
    ensures LoadPayload(ws[i].db, e, []) == Some(ws[i].accepted[e].payload)
  {
    RunKeeps(cfg, ws, steps, i);
    assert RowOk(cfg, ws[i], e) && PayloadOk(ws[i], e);
  }

  /** SHA-256 over the canonical request is taken to be injective. */
  ghost predicate Injective(digest: Request -> string) {
    forall r, s {:trigger digest(r), digest(s)} :: digest(r) == digest(s) ==> r == s
  }

  /** A key is bound for good to the first event accepted under it. */
  lemma {:induction false} KeyBoundForever(cfg: Config, ws: seq<World>, steps: seq<Step>, i: nat, j: nat, k: string)
    requires IsRun(cfg, ws, steps) && i <= j < |ws| && k in ws[i].db.keys
    ensures k in ws[j].db.keys && ws[j].db.keys[k] == ws[i].db.keys[k]
  {
    hide Inv, KeysOk, Apply, Enabled;
    if i < j {
      KeyBoundForever(cfg, ws, steps, i, j - 1, k);
      RunKeeps(cfg, ws, steps, j - 1);
      StepKeepsBinding(cfg, ws[j - 1], steps[j - 1], k);
    }
  }

  lemma StepKeepsBinding(cfg: Config, w: World, step: Step, k: string)
    requires Inv(cfg, w) && KeysOk(cfg, w) && Enabled(w, step) && k in w.db.keys
    ensures k in Apply(cfg, w, step).db.keys && Apply(cfg, w, step).db.keys[k] == w.db.keys[k]
  {
    if step.Accept? {
      hide Inv, KeysOk, DoAccept;
      AcceptKeepsBinding(cfg, w, step.p, step.e, step.request, step.key, step.now, step.lost, k);
    } else {
      hide Inv, KeysOk, Apply, Enabled;
      OthersAcceptNothing(cfg, w, step);
    }
  }

  lemma AcceptKeepsBinding(cfg: Config, w: World, p: nat, e: string, request: Request, key: Option<string>, now: int,
                           lost: bool, k: string)
    requires Inv(cfg, w) && KeysOk(cfg, w) && e !in w.db.events && request.payload != [] && k in w.db.keys
    ensures var w' := DoAccept(cfg, w, p, e, request, key, now, lost); k in w'.db.keys && w'.db.keys[k] == w.db.keys[k]
  {
    KeysPointAtEvents(cfg, w);
    hide Inv, KeysOk;
    AcceptAddsOrLeaves(cfg, w, p, e, request, key, now, lost);
    hide DoAccept;
  }

  /**
   A request under a used key changes no row at all; it is answered with the first event's id and state when the
   contents are the same, and with a conflict when they differ.
   */
  lemma UsedKeyChangesNothing(cfg: Config, ws: seq<World>, steps: seq<Step>, i: nat,
                              e: string, request: Request, k: string, now: int)
    requires IsRun(cfg, ws, steps) && i < |ws| && k in ws[i].db.keys && Injective(cfg.digest)
    requires e !in ws[i].db.events && Split(request.payload, PAYLOAD_CHUNK_LIMIT_BYTES).Some?
    ensures var w, first := ws[i], ws[i].db.keys[k];
            && first in w.accepted && first in w.db.events
            && var (d, reply) := AcceptBatch(w.db, e, request.eventType,
                                             Split(request.payload, PAYLOAD_CHUNK_LIMIT_BYTES).value,
                                             Some(k), cfg.digest(request), now);
            && d == w.db && reply.Ok?
            && Judge(reply.value, e, Some(k), cfg.digest(request))
                 == (if w.accepted[first] == request
                     then Recorded(first, false, w.db.events[first].status, w.db.events[first].attempts)
                     else Conflicting)
  {
    RunKeeps(cfg, ws, steps, i);
    var w, first := ws[i], ws[i].db.keys[k];
    KeysPointAtEvents(cfg, w);
    assert KeyOk(cfg, w, k) && RowOk(cfg, w, first);
    LoserLeavesNothing(w.db, e, request.eventType, Split(request.payload, PAYLOAD_CHUNK_LIMIT_BYTES).value, k,
                       cfg.digest(request), now);
  }
}
