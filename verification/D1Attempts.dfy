/**
 How many attempts an event gets, when the maximum-attempts fallback can be reached, and when the attempt count
 of an ACK is exact.
 */
module D1Attempts {
  import opened Options
  import opened DeliveryPolicy
  import opened Chunker
  import opened D1Store
  import opened D1Batch
  import opened D1World
  import opened D1Safety
  import opened D1Preservation
  import opened D1Guarantees

  ghost predicate Bounded(cfg: Config, high: int) { forall p {:trigger cfg.maximum(p)} :: cfg.maximum(p) <= high }

  predicate Waiting(row: Row) { row.status == Queued || row.status == RetryScheduled }

  predicate RowLimited(w: World, e: string, high: int) {
    e in w.db.events && w.db.events[e].attempts <= high && (Waiting(w.db.events[e]) ==> w.db.events[e].attempts < high)
  }

  predicate PcLimited(cfg: Config, p: nat, pc: Pc, high: int) {
    && (pc.Concluding? && pc.outcome == RetryScheduled ==> pc.a.number < high)
    && (pc.Spent? ==> cfg.maximum(p) <= pc.seen < high)
  }

  ghost predicate Limited(cfg: Config, w: World, high: int) {
    && (forall e {:trigger RowLimited(w, e, high)} :: e in w.accepted ==> RowLimited(w, e, high))
    && (forall p {:trigger w.pcs[p]} :: p in w.pcs ==> PcLimited(cfg, p, w.pcs[p], high))
  }

  lemma MovedRowIsLimited(cfg: Config, w: World, w': World, step: Step, high: int, e: string)
    requires e in w.db.events && e in w'.db.events && MovedByRight(cfg, w, w', step, e) && RowLimited(w, e, high)
    requires cfg.maximum(step.p) <= high && PcLimited(cfg, step.p, PcOf(w, step.p), high)
    requires PcOf(w, step.p).Concluding? ==> PcOf(w, step.p).outcome != Queued
    ensures RowLimited(w', e, high)
  {
  }

  lemma OutcomeIsNotQueued(cfg: Config, w: World, p: nat)
    requires Inv(cfg, w)
    ensures PcOf(w, p).Concluding? ==> PcOf(w, p).outcome != Queued
  {
    PcIsOk(cfg, w, p);
  }

  lemma RowsStayLimited(cfg: Config, w: World, step: Step, high: int, e: string)
    requires Inv(cfg, w) && KeysOk(cfg, w) && Limited(cfg, w, high) && Bounded(cfg, high) && Enabled(w, step)
    requires e in w.accepted
    ensures RowLimited(Apply(cfg, w, step), e, high)
  {
    hide Inv, KeysOk, Apply, Enabled, MovedByRight;
    OutcomeIsNotQueued(cfg, w, step.p);
    assert RowLimited(w, e, high) && PcLimited(cfg, step.p, PcOf(w, step.p), high);
    RowMovesByRight(cfg, w, step, e);
    if Apply(cfg, w, step).db.events[e] != w.db.events[e] {
      MovedRowIsLimited(cfg, w, Apply(cfg, w, step), step, high, e);
    }
  }

  lemma NewRowsAreLimited(cfg: Config, w: World, step: Step, high: int, e: string)
    requires Inv(cfg, w) && KeysOk(cfg, w) && high >= 1 && Enabled(w, step)
    requires e !in w.accepted && e in Apply(cfg, w, step).accepted
    ensures RowLimited(Apply(cfg, w, step), e, high)
  {
    if step.Accept? {
      KeysPointAtEvents(cfg, w);
      hide Inv, KeysOk;
      AcceptAddsOrLeaves(cfg, w, step.p, step.e, step.request, step.key, step.now, step.lost);
      hide DoAccept;
    } else {
      hide Inv, KeysOk, Apply, Enabled;
      OthersAcceptNothing(cfg, w, step);
    }
  }

  /** A waiting row that a snapshot finds exhausted has fewer attempts than the largest maximum. */
  lemma SnapshotStaysLimited(cfg: Config, w: World, p: nat, lost: bool, high: int)
    requires Inv(cfg, w) && Limited(cfg, w, high) && PcOf(w, p).Missed?
    ensures PcLimited(cfg, p, PcOf(DoSnapshot(cfg, w, p, lost), p), high)
  {
    PcIsOk(cfg, w, p);
    assert MessageOk(w, PcOf(w, p).m);
    assert RowLimited(w, EventOf(w, PcOf(w, p).m), high);
  }

  /** Only a snapshot leads to the fallback, and only a sink call to a transition. */
  lemma OthersStayLimited(cfg: Config, w: World, step: Step)
    requires Enabled(w, step) && !step.Accept? && !step.Snapshot? && !step.CallSink?
    ensures !PcOf(Apply(cfg, w, step), step.p).Concluding? && !PcOf(Apply(cfg, w, step), step.p).Spent?
  {
    hide Picks, Lists, LoadedPayload, Startable;
  }

  predicate Starts(step: Step) { step.Begin? || step.Snapshot? || step.Exhaust? || step.Recheck? }

  lemma DispatcherMovesAlone(cfg: Config, w: World, step: Step)
    requires Enabled(w, step) && Dispatches(step)
    ensures Apply(cfg, w, step).pcs == w.pcs[step.p := PcOf(Apply(cfg, w, step), step.p)]
  {
    hide Picks, Lists, MarkDispatched, ReleaseClaim, ClaimOutbox;
  }

  lemma StarterMovesAlone(cfg: Config, w: World, step: Step)
    requires Enabled(w, step) && Starts(step)
    ensures Apply(cfg, w, step).pcs == w.pcs[step.p := PcOf(Apply(cfg, w, step), step.p)]
  {
    hide ClaimAttempt, BuryExhausted, Report, EventOf, AfterSnapshot, AfterRecheck;
  }

  lemma OneMoves(cfg: Config, w: World, step: Step)
    requires Enabled(w, step) && !step.Accept?
    ensures Apply(cfg, w, step).pcs == w.pcs[step.p := PcOf(Apply(cfg, w, step), step.p)]
  {
    if Dispatches(step) {
      hide Apply, Enabled;
      DispatcherMovesAlone(cfg, w, step);
    } else if Starts(step) {
      hide Apply, Enabled;
      StarterMovesAlone(cfg, w, step);
    } else {
      hide LoadedPayload, Report, Outcome, Transition, EventOf, DoBegin, DoSnapshot, DoExhaust, DoRecheck, Dispatch,
           DoSend,
           DoMark, DoStartTour, DoTourSend, DoTourMark, DoTourFree, DoEndTour;
    }
  }

  lemma MoverStaysLimited(cfg: Config, w: World, step: Step, high: int)
    requires Inv(cfg, w) && Limited(cfg, w, high) && Bounded(cfg, high) && Enabled(w, step) && !step.Accept?
    ensures PcLimited(cfg, step.p, PcOf(Apply(cfg, w, step), step.p), high)
  {
    if step.Snapshot? {
      hide Inv, Limited, PcLimited;
      SnapshotStaysLimited(cfg, w, step.p, step.lost, high);
    } else if !step.CallSink? {
      hide Inv, Limited, Apply, Enabled;
      OthersStayLimited(cfg, w, step);
    } else {
      hide Inv, Limited;
    }
  }

  lemma ProcessesStayLimited(cfg: Config, w: World, step: Step, high: int)
    requires Inv(cfg, w) && KeysOk(cfg, w) && Limited(cfg, w, high) && Bounded(cfg, high) && Enabled(w, step)
    ensures forall p {:trigger Apply(cfg, w, step).pcs[p]} ::
              p in Apply(cfg, w, step).pcs ==> PcLimited(cfg, p, Apply(cfg, w, step).pcs[p], high)
  {
    if step.Accept? {
      hide Inv, KeysOk, DoAccept;
      AcceptMovesAtMostOne(cfg, w, step.p, step.e, step.request, step.key, step.now, step.lost);
    } else {
      hide Inv, KeysOk, Apply, Enabled, PcLimited;
      MoverStaysLimited(cfg, w, step, high);
      OneMoves(cfg, w, step);
    }
  }

  lemma StepStaysLimited(cfg: Config, w: World, step: Step, high: int)
    requires Inv(cfg, w) && KeysOk(cfg, w) && Limited(cfg, w, high) && Bounded(cfg, high) && high >= 1
    requires Enabled(w, step)
    ensures Limited(cfg, Apply(cfg, w, step), high)
  {
    var w' := Apply(cfg, w, step);
    ProcessesStayLimited(cfg, w, step, high);
    hide Inv, KeysOk, Apply, Enabled, RowLimited, PcLimited;
    forall e | e in w'.accepted ensures RowLimited(w', e, high) {
      if e in w.accepted { RowsStayLimited(cfg, w, step, high, e); } else { NewRowsAreLimited(cfg, w, step, high, e); }
    }
  }

  lemma AcceptMovesAtMostOne(cfg: Config, w: World, p: nat, e: string, request: Request, key: Option<string>,
                             now: int, lost: bool)
    requires Inv(cfg, w) && KeysOk(cfg, w) && e !in w.db.events && request.payload != []
    ensures var w' := DoAccept(cfg, w, p, e, request, key, now, lost);
            w'.pcs == w.pcs || w'.pcs == w.pcs[p := Idle] || w'.pcs == w.pcs[p := Sending(e)]
  {
    KeysPointAtEvents(cfg, w);
    hide Inv, KeysOk;
    AcceptAddsOrLeaves(cfg, w, p, e, request, key, now, lost);
    hide DoAccept;
  }

  lemma {:induction false} RunStaysLimited(cfg: Config, ws: seq<World>, steps: seq<Step>, i: nat, high: int)
    requires IsRun(cfg, ws, steps) && i < |ws| && Bounded(cfg, high)
    ensures Limited(cfg, ws[i], high)
  {
    assert cfg.maximum(0) >= 1;
    if i > 0 {
      RunStaysLimited(cfg, ws, steps, i - 1, high);
      RunKeeps(cfg, ws, steps, i - 1);
      hide Inv, KeysOk, Limited, Apply, Enabled;
      StepStaysLimited(cfg, ws[i - 1], steps[i - 1], high);
    }
  }

  /**
   No attempt count ever exceeds a bound on the maxima, re-claims after an expired lease included, and a row that
   waits for its next attempt is strictly below it; so a consumer with the largest maximum can always start that
   attempt, at once or when the current lease has run out.
   */
  lemma AttemptsStayBelow(cfg: Config, ws: seq<World>, steps: seq<Step>, i: nat, e: string, high: int)
    requires IsRun(cfg, ws, steps) && i < |ws| && Bounded(cfg, high) && e in ws[i].accepted
    ensures e in ws[i].db.events && ws[i].db.events[e].attempts <= high
    ensures Waiting(ws[i].db.events[e]) ==> ws[i].db.events[e].attempts < high
    ensures Done(ws[i], e) || exists t: int :: StartableFrom(ws[i].db.events[e], high, t)
  {
    RunStaysLimited(cfg, ws, steps, i, high);
    assert RowLimited(ws[i], e, high);
    RunKeeps(cfg, ws, steps, i);
    assert RowOk(cfg, ws[i], e);
    var row := ws[i].db.events[e];
    if !Done(ws[i], e) {
      var t := if row.lease.Some? then row.lease.value else 0;
      assert StartableFrom(row, high, t);
    }
  }
}
