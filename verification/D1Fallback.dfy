/**
 The maximum-attempts fallback of `mark_delivery_started`: exactly which consumers can reach it, and exactly
 under which configurations every ACK reports the row's own attempt count.
 */
module D1Fallback {
  import opened Options
  import opened DeliveryPolicy
  import opened Chunker
  import opened D1Store
  import opened D1Batch
  import opened D1World
  import opened D1Safety
  import opened D1Preservation
  import opened D1Guarantees
  import opened D1Attempts

  // ---------------------------------------------------------------- exact answers

  /** The attempt count an ACK reports is the row's. */
  predicate ExactAnswer(w: World, pc: Pc) {
    pc.Answer? && pc.ack ==>
      EventOf(w, pc.m) in w.db.events && w.db.events[EventOf(w, pc.m)].attempts == pc.attempts
  }

  ghost predicate Exact(w: World) { forall p {:trigger w.pcs[p]} :: p in w.pcs ==> ExactAnswer(w, w.pcs[p]) }

  /** No two maxima differ by more than one. */
  ghost predicate Narrow(cfg: Config) {
    forall p, q {:trigger cfg.maximum(p), cfg.maximum(q)} :: cfg.maximum(q) <= cfg.maximum(p) + 1
  }

  /** All maxima are `high` or one less. */
  ghost predicate Within(cfg: Config, high: int) {
    forall p {:trigger cfg.maximum(p)} :: high - 1 <= cfg.maximum(p) <= high
  }

  lemma NarrowIsWithin(cfg: Config) returns (high: int)
    requires Narrow(cfg)
    ensures Within(cfg, high)
  {
    if exists p :: cfg.maximum(p) > cfg.maximum(0) {
      var p :| cfg.maximum(p) > cfg.maximum(0);
      high := cfg.maximum(p);
    } else {
      high := cfg.maximum(0);
    }
  }

  lemma OthersStayExact(cfg: Config, w: World, w': World, own: Option<nat>, pc: Pc)
    requires Inv(cfg, w) && Grows(w, w', own) && PcOk(w, pc) && ExactAnswer(w, pc)
    ensures ExactAnswer(w', pc)
  {
    if pc.Answer? && pc.ack {
      var e := w.messages[pc.m];
      assert w'.messages[pc.m] == e && MessageOk(w, pc.m) && Evolves(w, w', e, own);
    }
  }

  /** The fallback's own answer is exact when the snapshot it relies on cannot have been overtaken. */
  lemma BurialIsExact(cfg: Config, w: World, p: nat, ran: bool, lost: bool, high: int)
    requires Inv(cfg, w) && Limited(cfg, w, high) && Within(cfg, high) && PcOf(w, p).Spent?
    ensures ExactAnswer(DoExhaust(cfg, w, p, ran, lost), PcOf(DoExhaust(cfg, w, p, ran, lost), p))
  {
    PcIsOk(cfg, w, p);
    var e := EventOf(w, PcOf(w, p).m);
    assert MessageOk(w, PcOf(w, p).m) && RowLimited(w, e, high);
    assert PcLimited(cfg, p, PcOf(w, p), high);
    assert cfg.maximum(p) >= high - 1;
  }

  lemma ConclusionIsExact(cfg: Config, w: World, p: nat, ran: bool, lost: bool)
    requires Inv(cfg, w) && PcOf(w, p).Concluding?
    ensures ExactAnswer(DoConclude(w, p, ran, lost), PcOf(DoConclude(w, p, ran, lost), p))
  {
    PcIsOk(cfg, w, p);
    var e := EventOf(w, PcOf(w, p).a.m);
    assert RowOk(cfg, w, e);
  }

  predicate Answers(step: Step) { step.Snapshot? || step.Exhaust? || step.Recheck? || step.Conclude? || step.Reread? }

  /** Every other path to an answer reads the row it reports. */
  lemma ReadsAreExact(cfg: Config, w: World, step: Step)
    requires Inv(cfg, w) && Enabled(w, step) && (step.Snapshot? || step.Recheck? || step.Reread?)
    ensures ExactAnswer(Apply(cfg, w, step), PcOf(Apply(cfg, w, step), step.p))
  {
    PcIsOk(cfg, w, step.p);
    hide Inv, LoadedPayload;
  }

  lemma OthersDoNotAnswer(cfg: Config, w: World, step: Step)
    requires Enabled(w, step) && !step.Accept? && !Answers(step)
    ensures !PcOf(Apply(cfg, w, step), step.p).Answer?
  {
    hide LoadedPayload, Picks, Lists, ClaimAttempt, Dispatch, ReleaseClaim, ClaimOutbox;
  }

  lemma MoverStaysExact(cfg: Config, w: World, step: Step, high: int)
    requires Inv(cfg, w) && Limited(cfg, w, high) && Within(cfg, high) && Enabled(w, step) && !step.Accept?
    ensures ExactAnswer(Apply(cfg, w, step), PcOf(Apply(cfg, w, step), step.p))
  {
    hide Inv, Limited, Within, ExactAnswer;
    if step.Exhaust? {
      BurialIsExact(cfg, w, step.p, step.ran, step.lost, high);
    } else if step.Conclude? {
      ConclusionIsExact(cfg, w, step.p, step.ran, step.lost);
    } else {
      hide Apply, Enabled;
      if Answers(step) {
        ReadsAreExact(cfg, w, step);
      } else {
        OthersDoNotAnswer(cfg, w, step);
        NoAnswerIsExact(Apply(cfg, w, step), PcOf(Apply(cfg, w, step), step.p));
      }
    }
  }

  lemma NoAnswerIsExact(w: World, pc: Pc)
    requires !pc.Answer?
    ensures ExactAnswer(w, pc)
  {
  }

  lemma StepStaysExact(cfg: Config, w: World, step: Step, high: int)
    requires Inv(cfg, w) && KeysOk(cfg, w) && Limited(cfg, w, high) && Within(cfg, high) && Enabled(w, step) && Exact(w)
    ensures Exact(Apply(cfg, w, step))
  {
    var w' := Apply(cfg, w, step);
    assert forall p :: p in w.pcs ==> PcOk(w, w.pcs[p]);
    hide Inv, KeysOk, Limited, Within, Apply, Enabled, ExactAnswer, Grows, PcOk;
    StepKeeps(cfg, w, step);
    MovesAlone(cfg, w, step);
    forall p | p in w'.pcs ensures ExactAnswer(w', w'.pcs[p]) {
      if p in w.pcs && w'.pcs[p] == w.pcs[p] {
        if w' != w { OthersStayExact(cfg, w, w', Own(PcOf(w, step.p)), w.pcs[p]); }
      } else if step.Accept? {
        NoAnswerIsExact(w', w'.pcs[p]);
      } else {
        MoverStaysExact(cfg, w, step, high);
      }
    }
  }

  lemma MovesAlone(cfg: Config, w: World, step: Step)
    requires Inv(cfg, w) && KeysOk(cfg, w) && Enabled(w, step)
    ensures forall p :: p in Apply(cfg, w, step).pcs && p != step.p ==>
              p in w.pcs && Apply(cfg, w, step).pcs[p] == w.pcs[p]
    ensures step.p in Apply(cfg, w, step).pcs ==> PcOf(Apply(cfg, w, step), step.p) == Apply(cfg, w, step).pcs[step.p]
    ensures step.Accept? && step.p in Apply(cfg, w, step).pcs ==> !Apply(cfg, w, step).pcs[step.p].Answer?
  {
    if step.Accept? {
      hide Inv, KeysOk, DoAccept;
      AcceptMovesAtMostOne(cfg, w, step.p, step.e, step.request, step.key, step.now, step.lost);
    } else {
      hide Inv, KeysOk, Apply, Enabled;
      OneMoves(cfg, w, step);
    }
  }

  lemma {:induction false} RunStaysExact(cfg: Config, ws: seq<World>, steps: seq<Step>, i: nat, high: int)
    requires IsRun(cfg, ws, steps) && i < |ws| && Within(cfg, high)
    ensures Exact(ws[i])
  {
    if i > 0 {
      hide Inv, KeysOk, Limited, Apply, Enabled, Exact, IsRun;
      RunStaysExact(cfg, ws, steps, i - 1, high);
      RunStep(cfg, ws, steps, i - 1);
      RunStaysLimited(cfg, ws, steps, i - 1, high);
      RunKeeps(cfg, ws, steps, i - 1);
      StepStaysExact(cfg, ws[i - 1], steps[i - 1], high);
    }
  }

  // ---------------------------------------------------------------- building runs

  lemma Extend(cfg: Config, ws: seq<World>, steps: seq<Step>, step: Step) returns (ws': seq<World>, steps': seq<Step>)
    requires IsRun(cfg, ws, steps) && Enabled(ws[|steps|], step)
    ensures IsRun(cfg, ws', steps') && |steps'| == |steps| + 1 && |ws'| == |ws| + 1 == |steps'| + 1
    ensures ws'[|steps|] == ws[|steps|] && ws'[|steps'|] == Apply(cfg, ws[|steps|], step)
  {
    hide Enabled, Apply, Proper;
    ws', steps' := ws + [Apply(cfg, ws[|steps|], step)], steps + [step];
    forall i | 0 <= i < |steps'|
      ensures Enabled(ws'[i], steps'[i]) && ws'[i + 1] == Apply(cfg, ws'[i], steps'[i])
    {
      if i < |steps| {
        assert Enabled(ws[i], steps[i]) && ws[i + 1] == Apply(cfg, ws[i], steps[i]);
      }
    }
  }

  const EVENT := "e"

  const REQUEST := Request("t", [0x7B, 0x7D])

  /** Message 0 refers to the event, whose row waits after `n` attempts. */
  predicate Waits(w: World, n: nat) {
    && |w.messages| > 0 && w.messages[0] == EVENT && EVENT in w.accepted && EVENT in w.db.events
    && Waiting(w.db.events[EVENT]) && w.db.events[EVENT].attempts == n
  }

  lemma BracesSplit()
    ensures Split(REQUEST.payload, PAYLOAD_CHUNK_LIMIT_BYTES).Some?
  {
    var s := REQUEST.payload;
    assert CharLength(s) == 1 && CharLength(s[1..]) == 1 && s[1..][1..] == [];
    assert Valid(s[1..]);
    RoundTrip(s, PAYLOAD_CHUNK_LIMIT_BYTES);
  }

  lemma StartRun(cfg: Config) returns (ws: seq<World>, steps: seq<Step>)
    requires Proper(cfg)
    ensures IsRun(cfg, ws, steps) && |ws| == |steps| + 1 && ws[|steps|] == START
  {
    ws, steps := [START], [];
  }

  /** Process `q` has stored the event and is about to send its message. */
  lemma StoredRun(cfg: Config, q: nat) returns (ws: seq<World>, steps: seq<Step>)
    requires Proper(cfg)
    ensures IsRun(cfg, ws, steps) && |ws| == |steps| + 1
    ensures var w := ws[|steps|];
            && w.messages == [] && w.pcs == map[q := Sending(EVENT)] && EVENT in w.accepted
            && EVENT in w.db.events && w.db.events[EVENT].status == Queued && w.db.events[EVENT].attempts == 0
  {
    hide IsRun;
    ws, steps := StartRun(cfg);
    BracesSplit();
    RunKeeps(cfg, ws, steps, 0);
    AcceptAddsOrLeaves(cfg, START, q, EVENT, REQUEST, None, 0, false);
    hide Inv, DoAccept, PayloadOk, Split;
    ws, steps := Extend(cfg, ws, steps, Accept(q, EVENT, REQUEST, None, 0, false));
  }

  lemma AcceptedRun(cfg: Config, q: nat) returns (ws: seq<World>, steps: seq<Step>)
    requires Proper(cfg)
    ensures IsRun(cfg, ws, steps) && |ws| == |steps| + 1
    ensures Waits(ws[|steps|], 0) && PcOf(ws[|steps|], q) == Idle && ws[|steps|].pcs.Keys == {q}
  {
    hide IsRun;
    ws, steps := StoredRun(cfg, q);
    ws, steps := Extend(cfg, ws, steps, Send(q, true, true));
  }

  /** What one consumer's attempt leaves untouched. */
  predicate OnlyMoves(w: World, w': World, q: nat) {
    w'.messages == w.messages && w'.pcs == w.pcs[q := Idle] && w'.accepted == w.accepted
  }

  /** Attempt `a` on message 0 has been started, as the row says too. */
  predicate Started(w: World, w': World, a: Attempt, n: nat) {
    && w'.messages == w.messages && w'.accepted == w.accepted && a.m == 0 && a.number == n + 1
    && EVENT in w'.db.events && w'.db.events[EVENT].token == Some(a.token)
    && w'.db.events[EVENT].status == Delivering && w'.db.events[EVENT].attempts == n + 1
  }

  lemma BegunRun(cfg: Config, ws0: seq<World>, steps0: seq<Step>, q: nat, n: nat)
    returns (ws: seq<World>, steps: seq<Step>, a: Attempt)
    requires IsRun(cfg, ws0, steps0) && Waits(ws0[|steps0|], n) && PcOf(ws0[|steps0|], q) == Idle && n < cfg.maximum(q)
    ensures IsRun(cfg, ws, steps) && |ws| == |steps| + 1
    ensures Started(ws0[|steps0|], ws[|steps|], a, n) && ws[|steps|].pcs == ws0[|steps0|].pcs[q := Begun(a)]
  {
    ghost var w := ws0[|steps0|];
    hide IsRun;
    ws, steps := Extend(cfg, ws0, steps0, Consume(q, 0));
    ws, steps := Extend(cfg, ws, steps, Begin(q, 0, true, false));
    a := Attempt(0, w.tokens, n + 1, w.db.events[EVENT].eventType);
  }

  /** Consumer `q` calls the sink on message 0, and times out. */
  lemma CalledRun(cfg: Config, ws0: seq<World>, steps0: seq<Step>, q: nat, n: nat)
    returns (ws: seq<World>, steps: seq<Step>, a: Attempt)
    requires IsRun(cfg, ws0, steps0) && Waits(ws0[|steps0|], n) && PcOf(ws0[|steps0|], q) == Idle
    requires n + 1 < cfg.maximum(q)
    ensures IsRun(cfg, ws, steps) && |ws| == |steps| + 1
    ensures Started(ws0[|steps0|], ws[|steps|], a, n)
    ensures ws[|steps|].pcs == ws0[|steps0|].pcs[q := Concluding(a, RetryScheduled)]
  {
    hide IsRun, LoadedPayload;
    ws, steps, a := BegunRun(cfg, ws0, steps0, q, n);
    PayloadIsThere(cfg, ws, steps, |steps|);
    ws, steps := Extend(cfg, ws, steps, Load(q, false));
    ws, steps := Extend(cfg, ws, steps, CallSink(q, TimedOut));
  }

  lemma PayloadIsThere(cfg: Config, ws: seq<World>, steps: seq<Step>, i: nat)
    requires IsRun(cfg, ws, steps) && i < |ws| && EVENT in ws[i].accepted
    ensures LoadedPayload(ws[i], EVENT).Some?
  {
    RunKeeps(cfg, ws, steps, i);
    assert PayloadOk(ws[i], EVENT);
  }

  /** Consumer `q` fails one attempt that may be retried. */
  lemma AttemptedRun(cfg: Config, ws0: seq<World>, steps0: seq<Step>, q: nat, n: nat)
    returns (ws: seq<World>, steps: seq<Step>)
    requires IsRun(cfg, ws0, steps0) && Waits(ws0[|steps0|], n) && PcOf(ws0[|steps0|], q) == Idle
    requires n + 1 < cfg.maximum(q)
    ensures IsRun(cfg, ws, steps) && |ws| == |steps| + 1
    ensures Waits(ws[|steps|], n + 1) && OnlyMoves(ws0[|steps0|], ws[|steps|], q)
  {
    hide IsRun;
    var a;
    ws, steps, a := CalledRun(cfg, ws0, steps0, q, n);
    ws, steps := Extend(cfg, ws, steps, Conclude(q, true, false));
    ws, steps := Extend(cfg, ws, steps, Settle(q));
  }

  lemma {:induction false} WaitingRun(cfg: Config, q: nat, n: nat) returns (ws: seq<World>, steps: seq<Step>)
    requires Proper(cfg) && n < cfg.maximum(q)
    ensures IsRun(cfg, ws, steps) && |ws| == |steps| + 1
    ensures Waits(ws[|steps|], n) && PcOf(ws[|steps|], q) == Idle && ws[|steps|].pcs.Keys == {q}
  {
    if n == 0 {
      ws, steps := AcceptedRun(cfg, q);
    } else {
      hide IsRun, Waits;
      ws, steps := WaitingRun(cfg, q, n - 1);
      ws, steps := AttemptedRun(cfg, ws, steps, q, n - 1);
    }
  }

  /** A consumer whose maximum another one exceeds comes to the fallback. */
  lemma SpentRun(cfg: Config, p: nat, q: nat) returns (ws: seq<World>, steps: seq<Step>)
    requires Proper(cfg) && cfg.maximum(q) > cfg.maximum(p)
    ensures IsRun(cfg, ws, steps) && |ws| == |steps| + 1
    ensures var w, n := ws[|steps|], cfg.maximum(p);
            n >= 1 && Waits(w, n) && PcOf(w, q) == Idle && PcOf(w, p) == Spent(0, n)
  {
    assert cfg.maximum(p) >= 1;
    hide IsRun, Proper;
    ws, steps := WaitingRun(cfg, q, cfg.maximum(p));
    ws, steps := Extend(cfg, ws, steps, Consume(p, 0));
    ws, steps := Extend(cfg, ws, steps, Begin(p, 0, true, false));
    ws, steps := Extend(cfg, ws, steps, Snapshot(p, false));
  }

  /** When the other maximum exceeds it by two, the fallback can report a stale attempt count. */
  lemma InexactRun(cfg: Config, p: nat, q: nat) returns (ws: seq<World>, steps: seq<Step>)
    requires Proper(cfg) && cfg.maximum(q) > cfg.maximum(p) + 1
    ensures IsRun(cfg, ws, steps) && |ws| == |steps| + 1
    ensures var w, pc := ws[|steps|], PcOf(ws[|steps|], p);
            && pc.Answer? && pc.ack && !ExactAnswer(w, pc) && p in w.pcs
            && EVENT in w.db.events && w.db.events[EVENT].attempts == pc.attempts + 1
  {
    hide IsRun, Proper;
    ws, steps := SpentRun(cfg, p, q);
    ws, steps := AttemptedRun(cfg, ws, steps, q, cfg.maximum(p));
    ws, steps := Extend(cfg, ws, steps, Exhaust(p, true, false));
  }

  // ---------------------------------------------------------------- the exact conditions

  lemma LargestNeverSpent(cfg: Config, ws: seq<World>, steps: seq<Step>, i: nat, p: nat)
    requires IsRun(cfg, ws, steps) && i < |ws| && Bounded(cfg, cfg.maximum(p))
    ensures !PcOf(ws[i], p).Spent?
  {
    RunStaysLimited(cfg, ws, steps, i, cfg.maximum(p));
    assert p in ws[i].pcs ==> PcLimited(cfg, p, ws[i].pcs[p], cfg.maximum(p));
  }

  ghost predicate Reaches(cfg: Config, ws: seq<World>, steps: seq<Step>, i: nat, p: nat) {
    IsRun(cfg, ws, steps) && i < |ws| && PcOf(ws[i], p).Spent?
  }

  /** A consumer can reach the fallback if and only if some other consumer's maximum is larger than its own. */
  lemma FallbackReachedIffExceeded(cfg: Config, p: nat)
    requires Proper(cfg)
    ensures (exists ws: seq<World>, steps: seq<Step>, i: nat :: Reaches(cfg, ws, steps, i, p))
            <==> exists q :: cfg.maximum(q) > cfg.maximum(p)
  {
    if exists q :: cfg.maximum(q) > cfg.maximum(p) {
      var q :| cfg.maximum(q) > cfg.maximum(p);
      var ws, steps := SpentRun(cfg, p, q);
      assert Reaches(cfg, ws, steps, |steps|, p);
    } else {
      forall ws: seq<World>, steps: seq<Step>, i: nat ensures !Reaches(cfg, ws, steps, i, p) {
        if IsRun(cfg, ws, steps) && i < |ws| { LargestNeverSpent(cfg, ws, steps, i, p); }
      }
    }
  }

  ghost predicate ExactThere(cfg: Config, ws: seq<World>, steps: seq<Step>, i: nat) {
    IsRun(cfg, ws, steps) && i < |ws| ==> Exact(ws[i])
  }

  /** Every ACK in every run reports the row's attempt count if and only if no two maxima differ by more than one. */
  lemma AcksExactIffNarrow(cfg: Config)
    requires Proper(cfg)
    ensures (forall ws: seq<World>, steps: seq<Step>, i: nat :: ExactThere(cfg, ws, steps, i)) <==> Narrow(cfg)
  {
    if Narrow(cfg) {
      var high := NarrowIsWithin(cfg);
      forall ws: seq<World>, steps: seq<Step>, i: nat ensures ExactThere(cfg, ws, steps, i) {
        if IsRun(cfg, ws, steps) && i < |ws| { RunStaysExact(cfg, ws, steps, i, high); }
      }
    } else {
      var p, q :| cfg.maximum(q) > cfg.maximum(p) + 1;
      var ws, steps := InexactRun(cfg, p, q);
      assert !ExactAnswer(ws[|steps|], ws[|steps|].pcs[p]);
      assert !ExactThere(cfg, ws, steps, |steps|);
    }
  }
}
