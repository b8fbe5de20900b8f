/**
 What every run of the Cloudflare backend keeps, however accepts, repairs, consumers, crashes, failed sends and
 lost replies interleave and whatever the clocks read.
 */
module D1Safety {
  import opened Options
  import opened DeliveryPolicy
  import opened Chunker
  import opened D1Store
  import opened D1World

  // ---------------------------------------------------------------- vocabulary

  predicate Done(w: World, e: string) { e in w.db.events && Terminal(w.db.events[e].status) }

  /** Message `m` refers to `e` and has not been acknowledged; the provider's dead-letter queue counts as such. */
  predicate Unacked(w: World, m: nat, e: string) { m < |w.messages| && w.messages[m] == e && m !in w.acked }

  ghost predicate Covered(w: World, e: string) { Done(w, e) || exists m: nat :: Unacked(w, m, e) }

  // ---------------------------------------------------------------- the invariant

  /** The chunk rows of `e` join to the accepted payload. */
  ghost predicate PayloadOk(w: World, e: string) {
    && e in w.accepted && e in w.db.events && ChunkRows(w.db, e) != map[]
    && LoadPayload(w.db, e, []) == Some(w.accepted[e].payload)
  }

  predicate RowOk(cfg: Config, w: World, e: string) {
    && e in w.accepted && e in w.db.events
    && var row := w.db.events[e];
    && row.eventType == w.accepted[e].eventType && row.fingerprint == cfg.digest(w.accepted[e])
    && (row.status == Delivering <==> row.token.Some?) && (row.status == Delivering ==> row.lease.Some?)
    && (row.token.Some? ==> e in w.latest && w.latest[e] == row.token.value)
    && (e in w.latest ==> w.latest[e] < w.tokens)
    && (row.status == Delivered ==> e in w.taken)
  }

  ghost predicate BoxOk(w: World, e: string) {
    && e in w.db.outbox
    && var box := w.db.outbox[e];
    && box.sends == (if box.sent then 1 else 0)
    && (box.claim.Some? ==> box.lease.Some?)
    && (box.sent ==> Covered(w, e))
  }

  predicate MessageOk(w: World, m: nat) {
    m < |w.messages| && w.messages[m] in w.accepted && (m in w.acked ==> Done(w, w.messages[m]))
  }

  /** While a token is its event's latest, the row carries it, with the attempt number its holder was given. */
  predicate AttemptOk(w: World, a: Attempt) {
    && a.m < |w.messages| && w.messages[a.m] in w.accepted && a.token < w.tokens
    && var e := w.messages[a.m];
    && e in w.db.events && e in w.latest && a.token <= w.latest[e] && a.eventType == w.accepted[e].eventType
    && (w.latest[e] == a.token ==> w.db.events[e].token == Some(a.token) && w.db.events[e].attempts == a.number)
  }

  ghost predicate TourOk(w: World, pc: Pc)
    requires Tours(pc)
  {
    && (forall e :: e in pc.tour.todo ==> e in w.accepted)
    && pc.tour.repaired + pc.tour.deferred + |pc.tour.todo| == pc.tour.claimed
    && (!pc.Touring? ==> pc.tour.todo != [])
    && (pc.TourMarking? ==> Covered(w, Head(pc.tour)))
  }

  predicate HasMessage(pc: Pc) {
    pc.Took? || pc.Missed? || pc.Spent? || pc.Rechecking? || pc.Stale? || pc.Answer?
  }

  ghost predicate PcOk(w: World, pc: Pc) {
    && (pc.Sending? || pc.Marking? ==> pc.e in w.accepted)
    && (pc.Marking? ==> Covered(w, pc.e))
    && (Tours(pc) ==> TourOk(w, pc))
    && (HasMessage(pc) ==> pc.m < |w.messages|)
    && (Holds(pc) ==> AttemptOk(w, pc.a))
    && (pc.Loaded? ==> pc.payload == w.accepted[w.messages[pc.a.m]].payload)
    && (pc.Concluding? ==>
          && pc.outcome in {Delivered, RetryScheduled, DeadLetter}
          && (pc.outcome == Delivered ==> w.messages[pc.a.m] in w.taken))
    && (pc.Spent? ==> w.messages[pc.m] in w.db.events && pc.seen <= w.db.events[w.messages[pc.m]].attempts)
    && (pc.Answer? ==>
          && (pc.ack <==> Terminal(pc.status))
          && (pc.ack ==> Done(w, w.messages[pc.m]) && w.db.events[w.messages[pc.m]].status == pc.status))
  }

  predicate CallOk(w: World, call: SinkCall) {
    call.e in w.accepted && w.accepted[call.e] == Request(call.eventType, call.payload)
  }

  predicate DispatchedOk(w: World, e: string) { e in w.db.outbox && w.db.outbox[e].sent }

  predicate TourReportOk(r: TourReport) { r.repaired + r.deferred == r.claimed }

  ghost predicate Rows(cfg: Config, w: World) {
    && w.db.events.Keys == w.accepted.Keys && w.db.outbox.Keys == w.accepted.Keys
    && w.db.chunks.Keys == w.accepted.Keys && w.latest.Keys <= w.accepted.Keys
    && (forall e {:trigger RowOk(cfg, w, e)} :: e in w.accepted ==> RowOk(cfg, w, e))
    && (forall e {:trigger PayloadOk(w, e)} :: e in w.accepted ==> PayloadOk(w, e))
  }

  ghost predicate Boxes(w: World) {
    forall e {:trigger BoxOk(w, e)} :: e in w.accepted ==> BoxOk(w, e)
  }

  ghost predicate Messages(w: World) {
    && (forall m: nat {:trigger MessageOk(w, m)} :: m < |w.messages| ==> MessageOk(w, m))
    && (forall m: nat {:trigger m in w.acked} :: m in w.acked ==> m < |w.messages|)
  }

  ghost predicate Processes(w: World) {
    && (forall p {:trigger w.pcs[p]} :: p in w.pcs ==> PcOk(w, w.pcs[p]))
    && (forall p, q {:trigger w.pcs[p], w.pcs[q]} ::
          p in w.pcs && q in w.pcs && p != q && Holds(w.pcs[p]) && Holds(w.pcs[q]) ==>
            w.pcs[p].a.token != w.pcs[q].a.token)
  }

  ghost predicate History(w: World) {
    && (forall i {:trigger w.calls[i]} :: 0 <= i < |w.calls| ==> CallOk(w, w.calls[i]))
    && (forall i {:trigger w.dispatched[i]} :: 0 <= i < |w.dispatched| ==> DispatchedOk(w, w.dispatched[i]))
    && (forall i, j {:trigger w.dispatched[i], w.dispatched[j]} ::
          0 <= i < j < |w.dispatched| ==> w.dispatched[i] != w.dispatched[j])
    && (forall i {:trigger w.tours[i]} :: 0 <= i < |w.tours| ==> TourReportOk(w.tours[i]))
  }

  ghost predicate Inv(cfg: Config, w: World) {
    Rows(cfg, w) && Boxes(w) && Messages(w) && Processes(w) && History(w)
  }

  // ---------------------------------------------------------------- how one event's rows may move

  /** The token of the attempt a process holds. */
  function Own(pc: Pc): Option<nat> { if Holds(pc) then Some(pc.a.token) else None }

  /**
   A row keeps what was accepted; a terminal row keeps status and attempts; attempts never fall; a sent outbox
   row stays. The token stays with its attempts unless a new claim draws a fresh one, or the process whose own
   token it is concludes.
   */
  predicate Evolves(w: World, w': World, e: string, own: Option<nat>) {
    && e in w.db.events && e in w'.db.events && e in w.db.outbox && e in w'.db.outbox
    && var row, row' := w.db.events[e], w'.db.events[e];
    && (Terminal(row.status) ==> row'.status == row.status && row'.attempts == row.attempts)
    && row.attempts <= row'.attempts
    && (w.db.outbox[e].sent ==> w'.db.outbox[e] == w.db.outbox[e])
    && ChunkRows(w'.db, e) == ChunkRows(w.db, e)
    && (|| (e in w'.latest && w'.latest[e] == w.tokens < w'.tokens)
        || (&& (e in w.latest <==> e in w'.latest) && (e in w.latest ==> w'.latest[e] == w.latest[e])
            && (|| (row'.token == row.token && row'.attempts == row.attempts)
                || (row.token.Some? && row.token == own))))
  }

  ghost predicate Grows(w: World, w': World, own: Option<nat>) {
    && w.tokens <= w'.tokens && w.messages <= w'.messages && w.taken <= w'.taken
    && (forall e {:trigger e in w'.accepted} {:trigger Evolves(w, w', e, own)} ::
          e in w.accepted ==> e in w'.accepted && w'.accepted[e] == w.accepted[e] && Evolves(w, w', e, own))
    && (forall m: nat {:trigger m in w'.acked} :: m in w'.acked ==>
          m in w.acked || (m < |w.messages| && Done(w, w.messages[m])))
  }

  lemma CoverStays(cfg: Config, w: World, w': World, own: Option<nat>, e: string)
    requires Inv(cfg, w) && Grows(w, w', own) && e in w.accepted && Covered(w, e)
    ensures Covered(w', e)
  {
    assert Evolves(w, w', e, own);
    if !Done(w, e) {
      var m: nat :| Unacked(w, m, e);
      assert w'.messages[m] == w.messages[m];
      assert Unacked(w', m, e);
    }
  }

  lemma AttemptStays(w: World, w': World, own: Option<nat>, a: Attempt)
    requires Grows(w, w', own) && AttemptOk(w, a) && own != Some(a.token)
    ensures AttemptOk(w', a)
  {
    var e := w.messages[a.m];
    assert w'.messages[a.m] == e;
    assert Evolves(w, w', e, own);
  }

  lemma PcStays(cfg: Config, w: World, w': World, own: Option<nat>, pc: Pc)
    requires Inv(cfg, w) && Grows(w, w', own) && PcOk(w, pc) && (Holds(pc) ==> own != Some(pc.a.token))
    ensures PcOk(w', pc)
  {
    if pc.Marking? { CoverStays(cfg, w, w', own, pc.e); }
    if pc.TourMarking? { CoverStays(cfg, w, w', own, Head(pc.tour)); }
    if Holds(pc) {
      AttemptStays(w, w', own, pc.a);
      assert w'.messages[pc.a.m] == w.messages[pc.a.m];
    }
    if HasMessage(pc) {
      var e := w.messages[pc.m];
      assert w'.messages[pc.m] == e;
      assert MessageOk(w, pc.m) && Evolves(w, w', e, own);
    }
  }

  /** The mover's new position is sound, and a token it holds is its own old one or freshly drawn. */
  ghost predicate Moved(w: World, w': World, p: nat) {
    && w'.pcs == w.pcs[p := PcOf(w', p)] && p in w'.pcs
    && PcOk(w', PcOf(w', p))
    && (Holds(PcOf(w', p)) ==> PcOf(w', p).a.token == w.tokens || Own(PcOf(w', p)) == Own(PcOf(w, p)))
  }

  lemma ProcessesStay(cfg: Config, w: World, w': World, p: nat)
    requires Inv(cfg, w) && Grows(w, w', Own(PcOf(w, p))) && Moved(w, w', p)
    ensures Processes(w')
  {
    var own := Own(PcOf(w, p));
    forall q | q in w'.pcs ensures PcOk(w', w'.pcs[q]) {
      if q != p {
        assert w'.pcs[q] == w.pcs[q];
        PcStays(cfg, w, w', own, w.pcs[q]);
      }
    }
    forall q | q in w.pcs && Holds(w.pcs[q]) ensures w.pcs[q].a.token < w.tokens {
      assert PcOk(w, w.pcs[q]);
    }
  }

  lemma MessagesStay(cfg: Config, w: World, w': World, own: Option<nat>)
    requires Inv(cfg, w) && Grows(w, w', own)
    requires |w'.messages| > |w.messages| ==>
               |w'.messages| == |w.messages| + 1 && w'.messages[|w.messages|] in w.accepted
    ensures Messages(w')
  {
    forall m: nat | m < |w'.messages| ensures MessageOk(w', m) {
      if m < |w.messages| {
        assert w'.messages[m] == w.messages[m];
        assert MessageOk(w, m) && Evolves(w, w', w.messages[m], own);
      } else {
        assert m !in w.acked;
      }
    }
  }

  lemma HistoryStays(cfg: Config, w: World, w': World, own: Option<nat>)
    requires Inv(cfg, w) && Grows(w, w', own)
    requires w'.calls == w.calls && w'.dispatched == w.dispatched && w'.tours == w.tours
    ensures History(w')
  {
    forall i | 0 <= i < |w.calls| ensures CallOk(w', w'.calls[i]) { assert CallOk(w, w.calls[i]); }
    forall i | 0 <= i < |w.dispatched| ensures DispatchedOk(w', w'.dispatched[i]) {
      assert DispatchedOk(w, w.dispatched[i]);
      assert Evolves(w, w', w.dispatched[i], own);
    }
  }

  lemma BoxesStay(cfg: Config, w: World, w': World, own: Option<nat>)
    requires Inv(cfg, w) && Grows(w, w', own) && w'.accepted == w.accepted && w'.db.outbox == w.db.outbox
    ensures Boxes(w')
  {
    hide Evolves, Covered;
    forall e | e in w'.accepted ensures BoxOk(w', e) {
      assert BoxOk(w, e);
      if w.db.outbox[e].sent { CoverStays(cfg, w, w', own, e); }
    }
  }

  // ---------------------------------------------------------------- steps that leave the tables alone

  /** Database and acceptance stay; a message may be posted, or one of a finished event acknowledged. */
  ghost predicate Leaves(w: World, w': World) {
    && w'.db == w.db && w'.accepted == w.accepted && w'.latest == w.latest && w'.keyless == w.keyless
    && w.tokens <= w'.tokens && w.messages <= w'.messages && w.taken <= w'.taken
    && (|w'.messages| > |w.messages| ==>
          |w'.messages| == |w.messages| + 1 && w'.messages[|w.messages|] in w.accepted)
    && (forall m: nat {:trigger m in w'.acked} :: m in w'.acked ==>
          m in w.acked || (m < |w.messages| && Done(w, w.messages[m])))
  }

  lemma LeavesGrows(cfg: Config, w: World, w': World, own: Option<nat>)
    requires Inv(cfg, w) && Leaves(w, w')
    ensures Grows(w, w', own) && Rows(cfg, w') && Boxes(w')
  {
    forall e | e in w.accepted ensures Evolves(w, w', e, own) && RowOk(cfg, w', e) && PayloadOk(w', e) {
      assert RowOk(cfg, w, e) && PayloadOk(w, e) && BoxOk(w, e);
    }
    BoxesStay(cfg, w, w', own);
  }

  lemma LeavesKeeps(cfg: Config, w: World, w': World, p: nat)
    requires Inv(cfg, w) && Leaves(w, w') && Moved(w, w', p)
    requires w'.calls == w.calls && w'.dispatched == w.dispatched && w'.tours == w.tours
    ensures Inv(cfg, w') && Grows(w, w', Own(PcOf(w, p)))
  {
    var own := Own(PcOf(w, p));
    LeavesGrows(cfg, w, w', own);
    ProcessesStay(cfg, w, w', p);
    MessagesStay(cfg, w, w', own);
    HistoryStays(cfg, w, w', own);
  }

  // ---------------------------------------------------------------- steps on the outbox

  /** Only outbox rows change; a sent one does not, and one that becomes sent is covered. */
  ghost predicate Boxed(w: World, w': World) {
    && w' == w.(db := w.db.(outbox := w'.db.outbox), pcs := w'.pcs, tokens := w'.tokens, dispatched := w'.dispatched)
    && w.tokens <= w'.tokens
    && w'.db.outbox.Keys == w.db.outbox.Keys
    && forall e {:trigger w'.db.outbox[e]} :: e in w.db.outbox ==>
         var box, box' := w.db.outbox[e], w'.db.outbox[e];
         && (box.sent ==> box' == box)
         && (box'.claim.Some? ==> box'.lease.Some?)
         && box'.sends - box.sends == (if box'.sent && !box.sent then 1 else 0)
         && (box'.sent ==> Covered(w, e))
  }

  lemma BoxedGrows(cfg: Config, w: World, w': World, own: Option<nat>)
    requires Inv(cfg, w) && Boxed(w, w')
    ensures Grows(w, w', own) && Rows(cfg, w') && Boxes(w')
  {
    forall e | e in w.accepted ensures Evolves(w, w', e, own) && RowOk(cfg, w', e) && PayloadOk(w', e) {
      assert RowOk(cfg, w, e) && PayloadOk(w, e) && BoxOk(w, e);
    }
    forall e | e in w'.accepted ensures BoxOk(w', e) {
      assert BoxOk(w, e);
      if w'.db.outbox[e].sent { CoverStays(cfg, w, w', own, e); }
    }
  }

  /** A success report comes with the row's own change from pending to sent, so it is the row's first. */
  lemma BoxedKeepsHistory(cfg: Config, w: World, w': World)
    requires Inv(cfg, w) && Boxed(w, w')
    requires || w'.dispatched == w.dispatched
             || exists e :: e in w.db.outbox && !w.db.outbox[e].sent && w'.db.outbox[e].sent
                            && w'.dispatched == w.dispatched + [e]
    ensures History(w')
  {
    forall i | 0 <= i < |w.calls| ensures CallOk(w', w'.calls[i]) { assert CallOk(w, w.calls[i]); }
    forall i | 0 <= i < |w.dispatched| ensures DispatchedOk(w, w.dispatched[i]) && DispatchedOk(w', w.dispatched[i]) {
      assert DispatchedOk(w, w.dispatched[i]);
    }
  }

  lemma BoxedKeeps(cfg: Config, w: World, w': World, p: nat)
    requires Inv(cfg, w) && Boxed(w, w') && Moved(w, w', p)
    requires || w'.dispatched == w.dispatched
             || exists e :: e in w.db.outbox && !w.db.outbox[e].sent && w'.db.outbox[e].sent
                            && w'.dispatched == w.dispatched + [e]
    ensures Inv(cfg, w') && Grows(w, w', Own(PcOf(w, p)))
  {
    var own := Own(PcOf(w, p));
    BoxedGrows(cfg, w, w', own);
    ProcessesStay(cfg, w, w', p);
    MessagesStay(cfg, w, w', own);
    BoxedKeepsHistory(cfg, w, w');
  }

  // ---------------------------------------------------------------- steps on an event row

  /** One event's row changes, as `Evolves` allows, and is sound again. */
  ghost predicate Rowed(cfg: Config, w: World, w': World, e: string, own: Option<nat>) {
    && w' == w.(db := w.db.(events := w'.db.events), pcs := w'.pcs, tokens := w'.tokens, latest := w'.latest)
    && w.tokens <= w'.tokens
    && e in w.db.events && e in w'.db.events && w'.db.events == w.db.events[e := w'.db.events[e]]
    && w'.latest.Keys <= w.accepted.Keys
    && (forall d {:trigger w'.latest[d]} {:trigger d in w'.latest} :: d != e ==>
          (d in w'.latest <==> d in w.latest) && (d in w.latest ==> w'.latest[d] == w.latest[d]))
    && Evolves(w, w', e, own) && RowOk(cfg, w', e)
  }

  lemma RowedKeepsRow(cfg: Config, w: World, w': World, e: string, own: Option<nat>, d: string)
    requires Inv(cfg, w) && Rowed(cfg, w, w', e, own) && d in w.accepted
    ensures Evolves(w, w', d, own) && RowOk(cfg, w', d) && PayloadOk(w', d)
  {
    hide Boxes, Messages, Processes, History;
    assert RowOk(cfg, w, d) && PayloadOk(w, d);
  }

  lemma RowedGrows(cfg: Config, w: World, w': World, e: string, own: Option<nat>)
    requires Inv(cfg, w) && Rowed(cfg, w, w', e, own)
    ensures Grows(w, w', own) && Rows(cfg, w')
  {
    hide Evolves, RowOk, PayloadOk, Boxes, Messages, Processes, History;
    assert w'.accepted == w.accepted && w'.messages == w.messages && w'.acked == w.acked;
    assert w'.db.events.Keys == w.db.events.Keys;
    forall d | d in w.accepted ensures Evolves(w, w', d, own) && RowOk(cfg, w', d) && PayloadOk(w', d) {
      RowedKeepsRow(cfg, w, w', e, own, d);
    }
  }

  lemma RowedKeeps(cfg: Config, w: World, w': World, p: nat, e: string)
    requires Inv(cfg, w) && Rowed(cfg, w, w', e, Own(PcOf(w, p))) && Moved(w, w', p)
    ensures Inv(cfg, w') && Grows(w, w', Own(PcOf(w, p)))
  {
    var own := Own(PcOf(w, p));
    RowedGrows(cfg, w, w', e, own);
    BoxesStay(cfg, w, w', own);
    ProcessesStay(cfg, w, w', p);
    MessagesStay(cfg, w, w', own);
    HistoryStays(cfg, w, w', own);
  }
}
