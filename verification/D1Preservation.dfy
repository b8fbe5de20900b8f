/** Every step of the Cloudflare backend keeps the invariant of `D1Safety`; so every reachable world has it. */
module D1Preservation {
  import opened Options
  import opened DeliveryPolicy
  import opened Chunker
  import opened D1Store
  import opened D1Batch
  import opened D1World
  import opened D1Safety

  lemma PcIsOk(cfg: Config, w: World, p: nat)
    requires Inv(cfg, w)
    ensures PcOk(w, PcOf(w, p))
  {
  }

  lemma RestKeeps(cfg: Config, w: World, p: nat, pc: Pc)
    requires Inv(cfg, w) && PcOk(w, pc) && (Holds(pc) ==> Own(pc) == Own(PcOf(w, p)))
    ensures Inv(cfg, Goto(w, p, pc)) && Grows(w, Goto(w, p, pc), Own(PcOf(w, p)))
  {
    var w' := Goto(w, p, pc);
    LeavesGrows(cfg, w, w', Own(PcOf(w, p)));
    PcMoves(w, w', pc);
    LeavesKeeps(cfg, w, w', p);
  }

  /** A position reads nothing of the world but tables, queue and counter. */
  lemma PcMoves(w: World, w': World, pc: Pc)
    requires w' == w.(pcs := w'.pcs, calls := w'.calls, tours := w'.tours) && PcOk(w, pc)
    ensures PcOk(w', pc)
  {
    if pc.Marking? { CoveredMoves(w, w', pc.e); }
    if pc.TourMarking? { CoveredMoves(w, w', Head(pc.tour)); }
  }

  lemma CoveredMoves(w: World, w': World, e: string)
    requires w'.db == w.db && w'.messages == w.messages && w'.acked == w.acked && Covered(w, e)
    ensures Covered(w', e)
  {
    if !Done(w, e) {
      var m: nat :| Unacked(w, m, e);
      assert Unacked(w', m, e);
    }
  }

  // ---------------------------------------------------------------- sending

  lemma PostCovers(cfg: Config, w: World, w': World, e: string)
    requires Inv(cfg, w) && w'.messages == w.messages + [e] && w'.acked == w.acked
    ensures Covered(w', e)
  {
    var m: nat := |w.messages|;
    assert m !in w.acked;
    assert Unacked(w', m, e);
  }

  lemma SendKeeps(cfg: Config, w: World, p: nat, posted: bool, failed: bool)
    requires Inv(cfg, w) && PcOf(w, p).Sending? && (posted || failed)
    ensures Inv(cfg, DoSend(w, p, posted, failed)) && Grows(w, DoSend(w, p, posted, failed), Own(PcOf(w, p)))
  {
    PcIsOk(cfg, w, p);
    var w', e := DoSend(w, p, posted, failed), PcOf(w, p).e;
    var pc := if failed then Idle else Marking(e);
    assert w' == Goto(Post(w, e, posted), p, pc);
    hide DoSend;
    if posted { PostCovers(cfg, w, w', e); }
    hide Covered;
    assert PcOk(w', pc);
    LeavesKeeps(cfg, w, w', p);
  }

  lemma TourSendKeeps(cfg: Config, w: World, p: nat, posted: bool, failed: bool)
    requires Inv(cfg, w) && PcOf(w, p).Touring? && PcOf(w, p).tour.todo != [] && (posted || failed)
    ensures Inv(cfg, DoTourSend(w, p, posted, failed)) && Grows(w, DoTourSend(w, p, posted, failed), Own(PcOf(w, p)))
  {
    PcIsOk(cfg, w, p);
    hide Rows, Boxes, Processes, History, Covered;
    var w' := DoTourSend(w, p, posted, failed);
    if posted { PostCovers(cfg, w, w', Head(PcOf(w, p).tour)); }
    assert Leaves(w, w');
    LeavesKeeps(cfg, w, w', p);
  }

  // ---------------------------------------------------------------- the outbox

  lemma DispatchIsBoxed(cfg: Config, w: World, w': World, e: string, token: Option<nat>, now: int, ran: bool,
                        lost: bool)
    requires Inv(cfg, w) && e in w.accepted && Covered(w, e)
    requires var (d, reported) := Dispatch(w.db, e, token, now, ran, lost);
             w' == w.(db := d, pcs := w'.pcs, dispatched := if reported then w.dispatched + [e] else w.dispatched)
    ensures Boxed(w, w')
    ensures w'.dispatched == w.dispatched
            || (e in w.db.outbox && !w.db.outbox[e].sent && w'.db.outbox[e].sent && w'.dispatched == w.dispatched + [e])
  {
    forall d | d in w.db.outbox ensures BoxOk(w, d) { }
  }

  lemma MarkKeeps(cfg: Config, w: World, p: nat, now: int, ran: bool, lost: bool)
    requires Inv(cfg, w) && PcOf(w, p).Marking?
    ensures Inv(cfg, DoMark(w, p, now, ran, lost)) && Grows(w, DoMark(w, p, now, ran, lost), Own(PcOf(w, p)))
  {
    PcIsOk(cfg, w, p);
    var w' := DoMark(w, p, now, ran, lost);
    DispatchIsBoxed(cfg, w, w', PcOf(w, p).e, None, now, ran, lost);
    BoxedKeeps(cfg, w, w', p);
  }

  lemma NextTourOk(w: World, w': World, pc: Pc, success: bool)
    requires Tours(pc) && !pc.Touring? && TourOk(w, pc) && w'.accepted == w.accepted
    ensures PcOk(w', Touring(Next(pc.tour, success)))
  {
  }

  lemma TourMarkKeeps(cfg: Config, w: World, p: nat, now: int, ran: bool, lost: bool)
    requires Inv(cfg, w) && PcOf(w, p).TourMarking?
    ensures Inv(cfg, DoTourMark(w, p, now, ran, lost)) && Grows(w, DoTourMark(w, p, now, ran, lost), Own(PcOf(w, p)))
  {
    PcIsOk(cfg, w, p);
    var w' := DoTourMark(w, p, now, ran, lost);
    var pc := PcOf(w, p);
    DispatchIsBoxed(cfg, w, w', Head(pc.tour), Some(pc.tour.token), now, ran, lost);
    NextTourOk(w, w', pc, Dispatch(w.db, Head(pc.tour), Some(pc.tour.token), now, ran, lost).1);
    BoxedKeeps(cfg, w, w', p);
  }

  lemma TourFreeKeeps(cfg: Config, w: World, p: nat, now: int, ran: bool)
    requires Inv(cfg, w) && PcOf(w, p).TourFreeing?
    ensures Inv(cfg, DoTourFree(w, p, now, ran)) && Grows(w, DoTourFree(w, p, now, ran), Own(PcOf(w, p)))
  {
    PcIsOk(cfg, w, p);
    var w' := DoTourFree(w, p, now, ran);
    NextTourOk(w, w', PcOf(w, p), false);
    forall d | d in w.db.outbox ensures BoxOk(w, d) { }
    BoxedKeeps(cfg, w, w', p);
  }

  lemma PcOfTour(w: World, pc: Pc)
    requires pc == Idle || (pc.Touring? && TourOk(w, pc))
    ensures PcOk(w, pc)
  {
  }

  lemma StartTourKeeps(cfg: Config, w: World, p: nat, picked: set<string>, order: seq<string>, limit: nat, now: int,
                       lost: bool)
    requires Inv(cfg, w) && Picks(w.db, now, limit, picked) && Lists(order, picked)
    ensures Inv(cfg, DoStartTour(w, p, picked, order, now, lost))
    ensures Grows(w, DoStartTour(w, p, picked, order, now, lost), Own(PcOf(w, p)))
  {
    var w' := DoStartTour(w, p, picked, order, now, lost);
    forall d | d in w.db.outbox ensures BoxOk(w, d) { }
    forall e | e in order ensures e in w.accepted { assert e in picked; }
    hide PcOk;
    assert Boxed(w, w');
    PcOfTour(w', PcOf(w', p));
    hide Boxed, Rows, Boxes, Messages, Processes, History, Picks;
    BoxedKeeps(cfg, w, w', p);
  }

  lemma EndTourKeeps(cfg: Config, w: World, p: nat)
    requires Inv(cfg, w) && PcOf(w, p).Touring? && PcOf(w, p).tour.todo == []
    ensures Inv(cfg, DoEndTour(w, p)) && Grows(w, DoEndTour(w, p), Own(PcOf(w, p)))
  {
    PcIsOk(cfg, w, p);
    var tour := PcOf(w, p).tour;
    LedgerKeeps(cfg, w, DoEndTour(w, p), p, [], [TourReport(tour.repaired, tour.deferred, tour.claimed)]);
  }

  // ---------------------------------------------------------------- history

  /** Sound entries are added to the history, and events to those the sink accepted. */
  lemma LedgerKeeps(cfg: Config, w: World, w': World, p: nat, calls: seq<SinkCall>, tours: seq<TourReport>)
    requires Inv(cfg, w) && Moved(w, w', p) && w.taken <= w'.taken
    requires w' == w.(pcs := w'.pcs, calls := w.calls + calls, tours := w.tours + tours, taken := w'.taken)
    requires (forall c :: c in calls ==> CallOk(w, c)) && (forall r :: r in tours ==> TourReportOk(r))
    ensures Inv(cfg, w') && Grows(w, w', Own(PcOf(w, p)))
  {
    var own := Own(PcOf(w, p));
    assert Leaves(w, w');
    LeavesGrows(cfg, w, w', own);
    ProcessesStay(cfg, w, w', p);
    MessagesStay(cfg, w, w', own);
    LedgerHistory(w, w', calls, tours);
  }

  lemma LedgerHistory(w: World, w': World, calls: seq<SinkCall>, tours: seq<TourReport>)
    requires History(w)
    requires w' == w.(pcs := w'.pcs, calls := w.calls + calls, tours := w.tours + tours, taken := w'.taken)
    requires (forall c :: c in calls ==> CallOk(w, c)) && (forall r :: r in tours ==> TourReportOk(r))
    ensures History(w')
  {
    forall i | 0 <= i < |w'.calls| ensures CallOk(w', w'.calls[i]) {
      assert i < |w.calls| ==> CallOk(w, w.calls[i]);
      if i >= |w.calls| { assert w'.calls[i] == calls[i - |w.calls|] && w'.calls[i] in calls; }
    }
    forall i | 0 <= i < |w.dispatched| ensures DispatchedOk(w', w'.dispatched[i]) {
      assert DispatchedOk(w, w.dispatched[i]);
    }
  }

  // ---------------------------------------------------------------- attempts

  /** A claim moves one row, and draws its token for it. */
  lemma ClaimIsRowed(cfg: Config, w: World, w': World, e: string, now: int, maximum: int)
    requires RowOk(cfg, w, e) && e in w.db.outbox && w.latest.Keys <= w.accepted.Keys
    requires ClaimAttempt(w.db, e, w.tokens, now, maximum).1.Some?
    requires w' == w.(db := ClaimAttempt(w.db, e, w.tokens, now, maximum).0, pcs := w'.pcs,
                      tokens := w.tokens + 1, latest := w.latest[e := w.tokens])
    ensures Rowed(cfg, w, w', e, None)
  {
  }

  lemma ClaimGivesAttempt(cfg: Config, w: World, w': World, m: nat, now: int, maximum: int)
    requires m < |w.messages| && RowOk(cfg, w, w.messages[m])
    requires var (d, r) := ClaimAttempt(w.db, w.messages[m], w.tokens, now, maximum);
             && r.Some?
             && w' == w.(db := d, pcs := w'.pcs, tokens := w.tokens + 1,
                         latest := w.latest[w.messages[m] := w.tokens])
    ensures var r := ClaimAttempt(w.db, w.messages[m], w.tokens, now, maximum).1.value;
            AttemptOk(w', Attempt(m, w.tokens, r.attempts, r.eventType))
  {
  }

  lemma StartedMoves(w: World, w': World, p: nat, a: Attempt, lost: bool)
    requires AttemptOk(w', a) && a.token == w.tokens && w'.pcs == w.pcs[p := if lost then Idle else Begun(a)]
    ensures Moved(w, w', p)
  {
  }

  lemma StartedKeeps(cfg: Config, w: World, p: nat, now: int, lost: bool)
    requires Inv(cfg, w) && PcOf(w, p).Took?
    requires ClaimAttempt(w.db, EventOf(w, PcOf(w, p).m), w.tokens, now, cfg.maximum(p)).1.Some?
    ensures var w' := DoBegin(cfg, w, p, now, true, lost); Inv(cfg, w') && Grows(w, w', Own(PcOf(w, p)))
  {
    PcIsOk(cfg, w, p);
    var w' := DoBegin(cfg, w, p, now, true, lost);
    var m := PcOf(w, p).m;
    var e := EventOf(w, m);
    var r := ClaimAttempt(w.db, e, w.tokens, now, cfg.maximum(p)).1.value;
    assert MessageOk(w, m) && RowOk(cfg, w, e) && BoxOk(w, e);
    hide ClaimAttempt, Rowed, Moved, AttemptOk, PcOk, RowOk;
    ClaimIsRowed(cfg, w, w', e, now, cfg.maximum(p));
    ClaimGivesAttempt(cfg, w, w', m, now, cfg.maximum(p));
    StartedMoves(w, w', p, Attempt(m, w.tokens, r.attempts, r.eventType), lost);
    RowedKeeps(cfg, w, w', p, e);
  }

  lemma BeginKeeps(cfg: Config, w: World, p: nat, now: int, ran: bool, lost: bool)
    requires Inv(cfg, w) && PcOf(w, p).Took?
    ensures Inv(cfg, DoBegin(cfg, w, p, now, ran, lost))
    ensures Grows(w, DoBegin(cfg, w, p, now, ran, lost), Own(PcOf(w, p)))
  {
    if ran && ClaimAttempt(w.db, EventOf(w, PcOf(w, p).m), w.tokens, now, cfg.maximum(p)).1.Some? {
      StartedKeeps(cfg, w, p, now, lost);
    } else {
      PcIsOk(cfg, w, p);
      hide Rows, Boxes, Messages, Processes, History, Startable;
      LeavesKeeps(cfg, w, DoBegin(cfg, w, p, now, ran, lost), p);
    }
  }

  /** Reading status and attempts of an event's row gives a sound answer. */
  lemma ReportIsOk(w: World, m: nat)
    requires m < |w.messages| && w.messages[m] in w.db.events
    requires Terminal(w.db.events[w.messages[m]].status) || w.db.events[w.messages[m]].status == Delivering
    ensures PcOk(w, Report(m, w.db.events[w.messages[m]]))
  {
  }

  lemma SnapshotKeeps(cfg: Config, w: World, p: nat, lost: bool)
    requires Inv(cfg, w) && PcOf(w, p).Missed?
    ensures Inv(cfg, DoSnapshot(cfg, w, p, lost)) && Grows(w, DoSnapshot(cfg, w, p, lost), Own(PcOf(w, p)))
  {
    PcIsOk(cfg, w, p);
    hide Inv, Grows;
    var m := PcOf(w, p).m;
    var e := EventOf(w, m);
    var stop := lost || e !in w.db.events;
    if stop {
      RestKeeps(cfg, w, p, Idle);
    } else if Terminal(w.db.events[e].status) || w.db.events[e].status == Delivering {
      ReportIsOk(w, m);
      RestKeeps(cfg, w, p, Report(m, w.db.events[e]));
    } else if w.db.events[e].attempts >= cfg.maximum(p) {
      RestKeeps(cfg, w, p, Spent(m, w.db.events[e].attempts));
    } else {
      RestKeeps(cfg, w, p, Idle);
    }
  }

  lemma RecheckKeeps(cfg: Config, w: World, p: nat, lost: bool)
    requires Inv(cfg, w) && PcOf(w, p).Rechecking?
    ensures Inv(cfg, DoRecheck(w, p, lost)) && Grows(w, DoRecheck(w, p, lost), Own(PcOf(w, p)))
  {
    PcIsOk(cfg, w, p);
    RestKeeps(cfg, w, p, PcOf(DoRecheck(w, p, lost), p));
  }

  lemma RereadKeeps(cfg: Config, w: World, p: nat, lost: bool)
    requires Inv(cfg, w) && PcOf(w, p).Stale?
    ensures Inv(cfg, DoReread(w, p, lost)) && Grows(w, DoReread(w, p, lost), Own(PcOf(w, p)))
  {
    PcIsOk(cfg, w, p);
    RestKeeps(cfg, w, p, PcOf(DoReread(w, p, lost), p));
  }

  lemma BurialIsRowed(cfg: Config, w: World, w': World, e: string, maximum: int)
    requires RowOk(cfg, w, e) && e in w.db.outbox && w.latest.Keys <= w.accepted.Keys
    requires BuryExhausted(w.db, e, maximum).1
    requires w' == w.(db := BuryExhausted(w.db, e, maximum).0, pcs := w'.pcs)
    ensures Rowed(cfg, w, w', e, None)
  {
  }

  lemma BuriedKeeps(cfg: Config, w: World, p: nat, lost: bool)
    requires Inv(cfg, w) && PcOf(w, p).Spent? && BuryExhausted(w.db, EventOf(w, PcOf(w, p).m), cfg.maximum(p)).1
    ensures var w' := DoExhaust(cfg, w, p, true, lost); Inv(cfg, w') && Grows(w, w', Own(PcOf(w, p)))
  {
    PcIsOk(cfg, w, p);
    var w' := DoExhaust(cfg, w, p, true, lost);
    var m := PcOf(w, p).m;
    var e := EventOf(w, m);
    assert MessageOk(w, m) && RowOk(cfg, w, e) && BoxOk(w, e);
    BurialIsRowed(cfg, w, w', e, cfg.maximum(p));
    hide Rowed, Rows, Boxes, Messages, Processes, History;
    assert PcOk(w', PcOf(w', p));
    RowedKeeps(cfg, w, w', p, e);
  }

  lemma ExhaustKeeps(cfg: Config, w: World, p: nat, ran: bool, lost: bool)
    requires Inv(cfg, w) && PcOf(w, p).Spent?
    ensures Inv(cfg, DoExhaust(cfg, w, p, ran, lost)) && Grows(w, DoExhaust(cfg, w, p, ran, lost), Own(PcOf(w, p)))
  {
    if ran && BuryExhausted(w.db, EventOf(w, PcOf(w, p).m), cfg.maximum(p)).1 {
      BuriedKeeps(cfg, w, p, lost);
    } else {
      PcIsOk(cfg, w, p);
      hide Rows, Boxes, Messages, Processes, History;
      RestKeeps(cfg, w, p, if ran && !lost then Rechecking(PcOf(w, p).m) else Idle);
    }
  }

  lemma LoadKeeps(cfg: Config, w: World, p: nat, lost: bool)
    requires Inv(cfg, w) && PcOf(w, p).Begun?
    ensures Inv(cfg, DoLoad(w, p, lost)) && Grows(w, DoLoad(w, p, lost), Own(PcOf(w, p)))
  {
    PcIsOk(cfg, w, p);
    var e := EventOf(w, PcOf(w, p).a.m);
    assert PayloadOk(w, e);
    RestKeeps(cfg, w, p, PcOf(DoLoad(w, p, lost), p));
  }

  lemma CallKeeps(cfg: Config, w: World, p: nat, response: Response)
    requires Inv(cfg, w) && PcOf(w, p).Loaded?
    ensures Inv(cfg, DoCall(cfg, w, p, response)) && Grows(w, DoCall(cfg, w, p, response), Own(PcOf(w, p)))
  {
    PcIsOk(cfg, w, p);
    var w' := DoCall(cfg, w, p, response);
    var pc := PcOf(w, p);
    CalledIsOk(cfg, w, p, response);
    hide Inv, DoCall;
    LedgerKeeps(cfg, w, w', p, [SinkCall(EventOf(w, pc.a.m), pc.a.eventType, pc.payload)], []);
  }

  lemma CalledIsOk(cfg: Config, w: World, p: nat, response: Response)
    requires PcOf(w, p).Loaded? && PcOk(w, PcOf(w, p))
    ensures var w', pc := DoCall(cfg, w, p, response), PcOf(w, p);
            && Moved(w, w', p) && w.taken <= w'.taken
            && CallOk(w, SinkCall(EventOf(w, pc.a.m), pc.a.eventType, pc.payload))
            && w' == w.(pcs := w'.pcs, calls := w'.calls, taken := w'.taken)
            && w'.calls == w.calls + [SinkCall(EventOf(w, pc.a.m), pc.a.eventType, pc.payload)]
  {
  }

  lemma ConcludeKeeps(cfg: Config, w: World, p: nat, ran: bool, lost: bool)
    requires Inv(cfg, w) && PcOf(w, p).Concluding?
    ensures Inv(cfg, DoConclude(w, p, ran, lost)) && Grows(w, DoConclude(w, p, ran, lost), Own(PcOf(w, p)))
  {
    PcIsOk(cfg, w, p);
    var w' := DoConclude(w, p, ran, lost);
    var pc := PcOf(w, p);
    var e := EventOf(w, pc.a.m);
    assert RowOk(cfg, w, e) && BoxOk(w, e);
    if ran && Transition(w.db, e, pc.outcome, pc.a.token).1 {
      assert Rowed(cfg, w, w', e, Own(pc));
      RowedKeeps(cfg, w, w', p, e);
    } else {
      RestKeeps(cfg, w, p, PcOf(w', p));
    }
  }

  lemma SettleKeeps(cfg: Config, w: World, p: nat)
    requires Inv(cfg, w) && PcOf(w, p).Answer?
    ensures Inv(cfg, DoSettle(w, p)) && Grows(w, DoSettle(w, p), Own(PcOf(w, p)))
  {
    PcIsOk(cfg, w, p);
    LeavesKeeps(cfg, w, DoSettle(w, p), p);
  }

  // ---------------------------------------------------------------- acceptance

  /** A new event with all its rows; nothing of any other event changes. */
  ghost predicate Adds(cfg: Config, w: World, w': World, e: string, request: Request, pieces: seq<Bytes>,
                       key: Option<string>, now: int)
  {
    && Unused(w.db, e) && pieces != [] && e !in w.accepted
    && w' == w.(db := WithEvent(w.db, e, request.eventType, pieces, key, cfg.digest(request), now),
                accepted := w.accepted[e := request], keyless := w'.keyless, pcs := w'.pcs)
    && PayloadOk(w', e)
  }

  lemma AddsKeepsRow(cfg: Config, w: World, w': World, e: string, request: Request, pieces: seq<Bytes>,
                     key: Option<string>, now: int, d: string)
    requires Inv(cfg, w) && Adds(cfg, w, w', e, request, pieces, key, now) && d in w.accepted
    ensures Evolves(w, w', d, None) && RowOk(cfg, w', d) && PayloadOk(w', d)
  {
    hide Boxes, Messages, Processes, History, PayloadOk;
    assert RowOk(cfg, w, d) && PayloadOk(w, d);
    assert ChunkRows(w'.db, d) == ChunkRows(w.db, d);
    assert PayloadOk(w', d) by { PayloadMoves(w, w', d); }
  }

  lemma PayloadMoves(w: World, w': World, d: string)
    requires PayloadOk(w, d) && ChunkRows(w'.db, d) == ChunkRows(w.db, d)
    requires d in w'.accepted && w'.accepted[d] == w.accepted[d] && d in w'.db.events
    ensures PayloadOk(w', d)
  {
  }

  lemma AddsGrows(cfg: Config, w: World, w': World, e: string, request: Request, pieces: seq<Bytes>,
                  key: Option<string>, now: int)
    requires Inv(cfg, w) && Adds(cfg, w, w', e, request, pieces, key, now)
    ensures Grows(w, w', None) && Rows(cfg, w')
  {
    hide Boxes, Messages, Processes, History, PayloadOk, Evolves;
    assert RowOk(cfg, w', e);
    hide RowOk;
    forall d | d in w.accepted ensures Evolves(w, w', d, None) && RowOk(cfg, w', d) && PayloadOk(w', d) {
      AddsKeepsRow(cfg, w, w', e, request, pieces, key, now, d);
    }
  }

  lemma AddsBoxes(cfg: Config, w: World, w': World, e: string, request: Request, pieces: seq<Bytes>,
                  key: Option<string>, now: int)
    requires Inv(cfg, w) && Adds(cfg, w, w', e, request, pieces, key, now) && Grows(w, w', None)
    ensures Boxes(w')
  {
    hide Evolves, Covered, PayloadOk, Rows, Messages, Processes, History;
    forall d | d in w'.accepted ensures BoxOk(w', d) {
      if d != e {
        assert BoxOk(w, d);
        if w.db.outbox[d].sent { CoverStays(cfg, w, w', None, d); }
      }
    }
  }

  lemma AddsKeeps(cfg: Config, w: World, w': World, e: string, request: Request, pieces: seq<Bytes>,
                  key: Option<string>, now: int, p: nat)
    requires Inv(cfg, w) && Adds(cfg, w, w', e, request, pieces, key, now)
    requires PcOf(w, p) == Idle && w'.pcs == w.pcs[p := PcOf(w', p)] && p in w'.pcs && PcOf(w', p) in {Idle, Sending(e)}
    ensures Inv(cfg, w') && Grows(w, w', None)
  {
    AddsGrows(cfg, w, w', e, request, pieces, key, now);
    AddsBoxes(cfg, w, w', e, request, pieces, key, now);
    ProcessesStay(cfg, w, w', p);
    MessagesStay(cfg, w, w', None);
    HistoryStays(cfg, w, w', None);
  }

  lemma WinnerAdds(cfg: Config, w: World, p: nat, e: string, request: Request, key: Option<string>, now: int,
                   lost: bool)
    requires Unused(w.db, e) && e !in w.accepted && KeyFree(w.db, key) && request.payload != []
    requires Split(request.payload, PAYLOAD_CHUNK_LIMIT_BYTES).Some?
    ensures var w' := DoAccept(cfg, w, p, e, request, key, now, lost);
            && Adds(cfg, w, w', e, request, Split(request.payload, PAYLOAD_CHUNK_LIMIT_BYTES).value, key, now)
            && w'.pcs == w.pcs[p := if lost then Idle else Sending(e)]
            && w'.keyless == (if key == None then w.keyless + {e} else w.keyless)
  {
    var pieces := Split(request.payload, PAYLOAD_CHUNK_LIMIT_BYTES).value;
    StoredIsLoaded(w.db, e, request, PAYLOAD_CHUNK_LIMIT_BYTES, key, cfg.digest(request), now);
    WinnerStoresAll(w.db, e, request.eventType, pieces, key, cfg.digest(request), now);
    hide Unused, AcceptBatch, Split, LoadPayload;
  }

  lemma LoserLeaves(cfg: Config, w: World, p: nat, e: string, request: Request, key: Option<string>, now: int,
                    lost: bool)
    requires e !in w.db.events && !KeyFree(w.db, key) && w.db.keys[key.value] in w.db.events
    ensures DoAccept(cfg, w, p, e, request, key, now, lost) == w
  {
    var split := Split(request.payload, PAYLOAD_CHUNK_LIMIT_BYTES);
    if split.Some? {
      LoserLeavesNothing(w.db, e, request.eventType, split.value, key.value, cfg.digest(request), now);
    }
    hide AcceptBatch, Split;
  }

  /** The batch of a process at `Idle` either adds its event in full, or leaves the world as it is. */
  lemma AcceptAddsOrLeaves(cfg: Config, w: World, p: nat, e: string, request: Request, key: Option<string>, now: int,
                           lost: bool)
    requires Inv(cfg, w) && e !in w.db.events && request.payload != []
    requires forall k :: k in w.db.keys ==> w.db.keys[k] in w.db.events
    ensures var w' := DoAccept(cfg, w, p, e, request, key, now, lost);
            var split := Split(request.payload, PAYLOAD_CHUNK_LIMIT_BYTES);
            if split.Some? && KeyFree(w.db, key)
            then Adds(cfg, w, w', e, request, split.value, key, now)
                 && w'.pcs == w.pcs[p := if lost then Idle else Sending(e)]
                 && w'.keyless == (if key == None then w.keyless + {e} else w.keyless)
            else w' == w
  {
    assert Unused(w.db, e) && e !in w.accepted;
    if !KeyFree(w.db, key) {
      hide Inv, Unused, DoAccept;
      LoserLeaves(cfg, w, p, e, request, key, now, lost);
    } else if Split(request.payload, PAYLOAD_CHUNK_LIMIT_BYTES).Some? {
      hide Inv, Unused, DoAccept, Adds;
      WinnerAdds(cfg, w, p, e, request, key, now, lost);
    }
  }

  lemma KeysPointAtEvents(cfg: Config, w: World)
    requires Inv(cfg, w) && KeysOk(cfg, w)
    ensures forall k :: k in w.db.keys ==> w.db.keys[k] in w.db.events
  {
    forall k | k in w.db.keys ensures w.db.keys[k] in w.db.events { assert KeyOk(cfg, w, k); }
  }

  // ---------------------------------------------------------------- keys

  predicate KeyOk(cfg: Config, w: World, k: string) {
    k in w.db.keys && w.db.keys[k] in w.accepted && w.db.keys[k] !in w.keyless
  }

  ghost predicate KeysOk(cfg: Config, w: World) {
    && w.keyless <= w.accepted.Keys && |w.accepted| == |w.db.keys| + |w.keyless|
    && (forall k {:trigger KeyOk(cfg, w, k)} :: k in w.db.keys ==> KeyOk(cfg, w, k))
    && (forall k, l {:trigger w.db.keys[k], w.db.keys[l]} ::
          k in w.db.keys && l in w.db.keys && k != l ==> w.db.keys[k] != w.db.keys[l])
  }

  lemma AcceptKeeps(cfg: Config, w: World, p: nat, e: string, request: Request, key: Option<string>, now: int,
                    lost: bool)
    requires Inv(cfg, w) && KeysOk(cfg, w) && PcOf(w, p) == Idle && e !in w.db.events && request.payload != []
    ensures var w' := DoAccept(cfg, w, p, e, request, key, now, lost);
            Inv(cfg, w') && KeysOk(cfg, w') && (w' == w || Grows(w, w', None))
  {
    KeysPointAtEvents(cfg, w);
    var w' := DoAccept(cfg, w, p, e, request, key, now, lost);
    AcceptAddsOrLeaves(cfg, w, p, e, request, key, now, lost);
    var split := Split(request.payload, PAYLOAD_CHUNK_LIMIT_BYTES);
    if split.Some? && KeyFree(w.db, key) {
      hide DoAccept;
      AddsKeeps(cfg, w, w', e, request, split.value, key, now, p);
      AddsKeepsKeys(cfg, w, w', e, request, split.value, key, now);
    }
  }

  lemma AddsKeepsKeys(cfg: Config, w: World, w': World, e: string, request: Request, pieces: seq<Bytes>,
                      key: Option<string>, now: int)
    requires KeysOk(cfg, w) && Adds(cfg, w, w', e, request, pieces, key, now) && KeyFree(w.db, key)
    requires w'.keyless == (if key == None then w.keyless + {e} else w.keyless)
    ensures KeysOk(cfg, w')
  {
    assert w'.accepted == w.accepted[e := request] && e !in w.accepted;
    assert w'.db.keys == if key.Some? then w.db.keys[key.value := e] else w.db.keys;
    hide Adds;
    CountsGrow(w.accepted, e, request);
    if key.Some? { CountsGrow(w.db.keys, key.value, e); }
    KeepsKeyFacts(cfg, w, w', e, key);
  }

  lemma CountsGrow<K, V>(m: map<K, V>, k: K, v: V)
    requires k !in m
    ensures |m[k := v]| == |m| + 1
  {
    assert m[k := v].Keys == m.Keys + {k};
  }

  lemma KeepsKeyFacts(cfg: Config, w: World, w': World, e: string, key: Option<string>)
    requires KeysOk(cfg, w) && e in w'.accepted && e !in w.accepted && w.accepted.Keys <= w'.accepted.Keys
    requires w'.keyless == (if key == None then w.keyless + {e} else w.keyless)
    requires KeyFree(w.db, key) && w'.db.keys == if key.Some? then w.db.keys[key.value := e] else w.db.keys
    ensures forall k {:trigger KeyOk(cfg, w', k)} :: k in w'.db.keys ==> KeyOk(cfg, w', k)
    ensures forall k, l {:trigger w'.db.keys[k], w'.db.keys[l]} ::
              k in w'.db.keys && l in w'.db.keys && k != l ==> w'.db.keys[k] != w'.db.keys[l]
  {
    forall k | k in w.db.keys ensures KeyOk(cfg, w', k) && w.db.keys[k] != e { assert KeyOk(cfg, w, k); }
    forall k | k in w'.db.keys ensures KeyOk(cfg, w', k) {
      assert k in w.db.keys ==> KeyOk(cfg, w, k);
    }
  }

  /** No step but an acceptance touches keys or acceptance history. */
  ghost predicate SameAcceptance(w: World, w': World) {
    w'.accepted == w.accepted && w'.keyless == w.keyless && w'.db.keys == w.db.keys && w'.db.chunks == w.db.chunks
  }

  predicate Dispatches(step: Step) {
    step.Send? || step.Mark? || step.StartTour? || step.TourSend? || step.TourMark? || step.TourFree? || step.EndTour?
  }

  lemma DispatchersAcceptNothing(cfg: Config, w: World, step: Step)
    requires Enabled(w, step) && Dispatches(step)
    ensures SameAcceptance(w, Apply(cfg, w, step))
  {
    hide Picks, Lists;
  }

  lemma StartersAcceptNothing(cfg: Config, w: World, step: Step)
    requires Enabled(w, step) && (step.Begin? || step.Snapshot? || step.Exhaust? || step.Recheck?)
    ensures SameAcceptance(w, Apply(cfg, w, step))
  {
    hide Startable, NextAttempt, AfterSnapshot, AfterRecheck, DoLoad, DoCall, DoConclude, DoReread, DoSettle;
  }

  lemma ConsumersAcceptNothing(cfg: Config, w: World, step: Step)
    requires Enabled(w, step) && !step.Accept? && !Dispatches(step)
    ensures SameAcceptance(w, Apply(cfg, w, step))
  {
    if step.Begin? || step.Snapshot? || step.Exhaust? || step.Recheck? {
      hide Apply, Enabled, SameAcceptance;
      StartersAcceptNothing(cfg, w, step);
    } else {
      hide LoadedPayload, Report, Outcome, DoBegin, DoSnapshot, DoExhaust, DoRecheck;
    }
  }

  lemma OthersAcceptNothing(cfg: Config, w: World, step: Step)
    requires Enabled(w, step) && !step.Accept?
    ensures SameAcceptance(w, Apply(cfg, w, step))
  {
    hide Apply, Enabled, SameAcceptance;
    if Dispatches(step) { DispatchersAcceptNothing(cfg, w, step); } else { ConsumersAcceptNothing(cfg, w, step); }
  }

  lemma SameKeepsKeys(cfg: Config, w: World, w': World)
    requires KeysOk(cfg, w) && SameAcceptance(w, w')
    ensures KeysOk(cfg, w')
  {
    forall k | k in w'.db.keys ensures KeyOk(cfg, w', k) { assert KeyOk(cfg, w, k); }
  }

  // ---------------------------------------------------------------- every step, every run

  lemma QuietKeeps(cfg: Config, w: World, step: Step)
    requires Inv(cfg, w) && Enabled(w, step) && !step.Accept?
    ensures Inv(cfg, Apply(cfg, w, step)) && Grows(w, Apply(cfg, w, step), Own(PcOf(w, step.p)))
  {
    hide Inv, Grows, Picks, Lists, DoSend, DoMark, DoStartTour, DoTourSend, DoTourMark, DoTourFree, DoEndTour, DoBegin,
         DoSnapshot, DoExhaust, DoRecheck, DoLoad, DoCall, DoConclude, DoReread, DoSettle;
    match step
    case Crash(p) => PcIsOk(cfg, w, p); RestKeeps(cfg, w, p, Idle);
    case Send(p, posted, failed) => SendKeeps(cfg, w, p, posted, failed);
    case Mark(p, now, ran, lost) => MarkKeeps(cfg, w, p, now, ran, lost);
    case StartTour(p, picked, order, limit, now, lost) => StartTourKeeps(cfg, w, p, picked, order, limit, now, lost);
    case TourSend(p, posted, failed) => TourSendKeeps(cfg, w, p, posted, failed);
    case TourMark(p, now, ran, lost) => TourMarkKeeps(cfg, w, p, now, ran, lost);
    case TourFree(p, now, ran) => TourFreeKeeps(cfg, w, p, now, ran);
    case EndTour(p) => EndTourKeeps(cfg, w, p);
    case Consume(p, m) => RestKeeps(cfg, w, p, Took(m));
    case Begin(p, now, ran, lost) => BeginKeeps(cfg, w, p, now, ran, lost);
    case Snapshot(p, lost) => SnapshotKeeps(cfg, w, p, lost);
    case Exhaust(p, ran, lost) => ExhaustKeeps(cfg, w, p, ran, lost);
    case Recheck(p, lost) => RecheckKeeps(cfg, w, p, lost);
    case Load(p, lost) => LoadKeeps(cfg, w, p, lost);
    case CallSink(p, response) => CallKeeps(cfg, w, p, response);
    case Conclude(p, ran, lost) => ConcludeKeeps(cfg, w, p, ran, lost);
    case Reread(p, lost) => RereadKeeps(cfg, w, p, lost);
    case Settle(p) => SettleKeeps(cfg, w, p);
  }

  lemma StepKeeps(cfg: Config, w: World, step: Step)
    requires Inv(cfg, w) && KeysOk(cfg, w) && Enabled(w, step)
    ensures Inv(cfg, Apply(cfg, w, step)) && KeysOk(cfg, Apply(cfg, w, step))
    ensures Apply(cfg, w, step) == w || Grows(w, Apply(cfg, w, step), Own(PcOf(w, step.p)))
  {
    if step.Accept? {
      hide Inv, KeysOk, Grows, DoAccept;
      AcceptKeeps(cfg, w, step.p, step.e, step.request, step.key, step.now, step.lost);
    } else {
      hide Inv, KeysOk, Grows, SameAcceptance, Apply;
      QuietKeeps(cfg, w, step);
      OthersAcceptNothing(cfg, w, step);
      SameKeepsKeys(cfg, w, Apply(cfg, w, step));
    }
  }

  lemma {:induction false} RunKeeps(cfg: Config, ws: seq<World>, steps: seq<Step>, i: nat)
    requires IsRun(cfg, ws, steps) && i < |ws|
    ensures Inv(cfg, ws[i]) && KeysOk(cfg, ws[i])
  {
    if i > 0 {
      hide Inv, KeysOk, Apply, Enabled, IsRun;
      RunKeeps(cfg, ws, steps, i - 1);
      RunStep(cfg, ws, steps, i - 1);
      StepKeeps(cfg, ws[i - 1], steps[i - 1]);
    }
  }
}
