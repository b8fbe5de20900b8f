/**
 The dead-letter and quarantine streams as accounts of how messages ended: one record for each message that ended
 that way, and no other record.
 */
module RedisRecords {
  import opened Options
  import opened DeliveryPolicy
  import opened RedisStore
  import opened RedisWorld
  import opened RedisSafety
  import opened RedisGuarantees

  predicate HasBurial(s: Store, id: StreamId) {
    exists i :: 0 <= i < |s.deadLetters| && s.deadLetters[i].source == id
  }

  predicate HasIsolation(s: Store, id: StreamId) {
    exists i :: 0 <= i < |s.quarantined| && s.quarantined[i].source == id
  }

  predicate Ended(w: World, id: StreamId, fate: Fate) { id in w.fates && w.fates[id] == fate }

  /** Each such fate has its record; each quarantine record has its fate, and is the only one for it. */
  ghost predicate Recorded(w: World) {
    && (forall id {:trigger HasBurial(w.store, id)} :: Ended(w, id, DeadLettered) ==> HasBurial(w.store, id))
    && (forall id {:trigger HasIsolation(w.store, id)} :: Ended(w, id, Quarantined) ==> HasIsolation(w.store, id))
    && (forall i {:trigger w.store.quarantined[i]} :: 0 <= i < |w.store.quarantined| ==>
          Ended(w, w.store.quarantined[i].source, Quarantined))
    && (forall i, j {:trigger w.store.quarantined[i], w.store.quarantined[j]} ::
          0 <= i < j < |w.store.quarantined| ==> w.store.quarantined[i].source != w.store.quarantined[j].source)
  }

  // ---------------------------------------------------------------- what a step may do to the accounts

  predicate Unbooked(w: World, w': World) {
    && w'.store.deadLetters == w.store.deadLetters && w'.store.quarantined == w.store.quarantined
  }

  /** No record, and no fate of either kind. */
  ghost predicate Silent(w: World, w': World) {
    && Unbooked(w, w')
    && (forall id {:trigger id in w'.fates} :: id in w.fates ==> id in w'.fates && w'.fates[id] == w.fates[id])
    && (forall id {:trigger w'.fates[id]} :: id in w'.fates && id !in w.fates ==>
          w'.fates[id] != DeadLettered && w'.fates[id] != Quarantined)
  }

  ghost predicate AddsBurial(w: World, w': World, id: StreamId) {
    && id !in w.fates && w'.fates == w.fates[id := DeadLettered]
    && w'.store.quarantined == w.store.quarantined
    && |w'.store.deadLetters| == |w.store.deadLetters| + 1
    && w'.store.deadLetters[..|w.store.deadLetters|] == w.store.deadLetters
    && w'.store.deadLetters[|w.store.deadLetters|].source == id
  }

  ghost predicate AddsIsolation(w: World, w': World, id: StreamId) {
    && id !in w.fates && w'.fates == w.fates[id := Quarantined]
    && w'.store.deadLetters == w.store.deadLetters
    && |w'.store.quarantined| == |w.store.quarantined| + 1
    && w'.store.quarantined[..|w.store.quarantined|] == w.store.quarantined
    && w'.store.quarantined[|w.store.quarantined|].source == id
  }

  lemma SilentKeeps(w: World, w': World)
    requires Recorded(w) && Silent(w, w')
    ensures Recorded(w')
  {
    forall id | Ended(w', id, DeadLettered) ensures HasBurial(w'.store, id) { assert HasBurial(w.store, id); }
    forall id | Ended(w', id, Quarantined) ensures HasIsolation(w'.store, id) { assert HasIsolation(w.store, id); }
  }

  lemma BurialKeeps(w: World, w': World, id: StreamId)
    requires Recorded(w) && AddsBurial(w, w', id)
    ensures Recorded(w')
  {
    var l, l' := w.store.deadLetters, w'.store.deadLetters;
    forall x | Ended(w', x, DeadLettered) ensures HasBurial(w'.store, x) {
      if x == id {
        assert l'[|l|].source == id;
      } else {
        assert HasBurial(w.store, x);
        var i :| 0 <= i < |l| && l[i].source == x;
        assert l'[..|l|][i] == l'[i];
      }
    }
    forall x | Ended(w', x, Quarantined) ensures HasIsolation(w'.store, x) { assert HasIsolation(w.store, x); }
  }

  lemma IsolationKeeps(w: World, w': World, id: StreamId)
    requires Recorded(w) && AddsIsolation(w, w', id)
    ensures Recorded(w')
  {
    var l, l' := w.store.quarantined, w'.store.quarantined;
    forall i | 0 <= i < |l| ensures l'[i] == l[i] { assert l'[..|l|][i] == l'[i]; }
    forall x | Ended(w', x, DeadLettered) ensures HasBurial(w'.store, x) { assert HasBurial(w.store, x); }
    forall x | Ended(w', x, Quarantined) ensures HasIsolation(w'.store, x) {
      if x == id {
        assert l'[|l|].source == id;
      } else {
        assert HasIsolation(w.store, x);
        var i :| 0 <= i < |l| && l[i].source == x;
        assert l'[i].source == x;
      }
    }
  }

  // ---------------------------------------------------------------- step by step

  lemma AcceptIsSilent(cfg: Config, w: World, step: Step)
    requires Enabled(w, step) && (step.Accept? || step.AcceptKeyed?)
    ensures Silent(w, Apply(cfg, w, step))
  {
  }

  lemma ReleaseBooksNothing(s: Store, first: Option<string>, clock: nat)
    ensures var (s', reply) := ReleaseDueRetry(s, first, clock);
            && s'.deadLetters == s.deadLetters && s'.quarantined == s.quarantined
            && (reply == Ok(1) ==> first.Some? && Agrees(s, first.value))
  {
  }

  lemma ReleaseIsSilent(w: World, p: nat, first: Option<string>, clock: nat, lost: bool)
    requires Inv(w)
    ensures Silent(w, DoRelease(w, p, first, clock, lost))
  {
    ReleaseBooksNothing(w.store, first, clock);
    if ReleaseDueRetry(w.store, first, clock).1 == Ok(1) {
      var id := w.store.statuses[first.value].streamId.id;
      assert id in w.fates ==> FateOk(w, id);
    }
    hide Inv, ReleaseDueRetry;
  }

  lemma FinishIsSilent(w: World, p: nat)
    requires PcOf(w, p).Taken? && PendingIsOpen(w, PcOf(w, p).m.id)
    ensures Silent(w, DoFinish(w, p))
  {
  }

  lemma IsolateBooks(w: World, p: nat, lost: bool)
    requires PcOf(w, p).Unfit? && PendingIsOpen(w, PcOf(w, p).id)
    ensures Silent(w, DoIsolate(w, p, lost)) || AddsIsolation(w, DoIsolate(w, p, lost), PcOf(w, p).id)
  {
  }

  lemma BurialBooks(s: Store, e: string, id: StreamId, error: string)
    ensures var (s', reply) := MoveToDeadLetter(s, e, id, error);
            && s'.quarantined == s.quarantined
            && (reply.Err? ==> s' == s)
            && (reply.Ok? ==>
                  && id in s.pending && |s'.deadLetters| == |s.deadLetters| + 1
                  && s'.deadLetters[..|s.deadLetters|] == s.deadLetters
                  && s'.deadLetters[|s.deadLetters|].source == id)
  {
  }

  lemma GiveUpBooks(cfg: Config, w: World, p: nat, due: int)
    requires PcOf(w, p).Refused? && PendingIsOpen(w, PcOf(w, p).m.id)
    ensures Silent(w, DoGiveUp(cfg, w, p, due)) || AddsBurial(w, DoGiveUp(cfg, w, p, due), PcOf(w, p).m.id)
  {
    var pc := PcOf(w, p);
    BurialBooks(w.store, pc.m.e, pc.m.id, ErrorName(pc.error));
    hide MoveToDeadLetter;
  }

  lemma StepKeepsRecords(cfg: Config, w: World, step: Step)
    requires Inv(w) && Recorded(w) && Enabled(w, step)
    ensures Recorded(Apply(cfg, w, step))
  {
    hide Inv, Recorded, Silent, DoRelease, DoFinish, DoIsolate, DoGiveUp;
    match step
    case Release(p, now, first, clock, lost) =>
      ReleaseIsSilent(w, p, first, clock, lost);
      SilentKeeps(w, DoRelease(w, p, first, clock, lost));
    case Isolate(p, lost) =>
      HeldIsOpen(w, p);
      IsolateBooks(w, p, lost);
      if Silent(w, DoIsolate(w, p, lost)) {
        SilentKeeps(w, DoIsolate(w, p, lost));
      } else {
        IsolationKeeps(w, DoIsolate(w, p, lost), PcOf(w, p).id);
      }
    case Finish(p) =>
      HeldIsOpen(w, p);
      FinishIsSilent(w, p);
      SilentKeeps(w, DoFinish(w, p));
    case GiveUp(p, due) =>
      HeldIsOpen(w, p);
      GiveUpBooks(cfg, w, p, due);
      if Silent(w, DoGiveUp(cfg, w, p, due)) {
        SilentKeeps(w, DoGiveUp(cfg, w, p, due));
      } else {
        BurialKeeps(w, DoGiveUp(cfg, w, p, due), PcOf(w, p).m.id);
      }
    case _ =>
      OtherStepsAreSilent(cfg, w, step);
      SilentKeeps(w, Apply(cfg, w, step));
  }

  lemma OtherStepsAreSilent(cfg: Config, w: World, step: Step)
    requires Enabled(w, step) && !step.Release? && !step.Isolate? && !step.Finish? && !step.GiveUp?
    ensures Silent(w, Apply(cfg, w, step))
  {
    hide Apply, Enabled;
    if Quiet(step) {
      QuietStep(cfg, w, step);
    } else {
      AcceptIsSilent(cfg, w, step);
    }
  }

  lemma {:induction false} RunKeepsRecords(cfg: Config, ws: seq<World>, steps: seq<Step>, i: nat)
    requires IsRun(cfg, ws, steps) && i < |ws|
    ensures Inv(ws[i]) && Recorded(ws[i])
  {
    hide Inv, Recorded, Apply, Enabled;
    RunKeeps(cfg, ws, steps, i);
    if i == 0 {
      NothingRecorded();
    } else {
      RunKeepsRecords(cfg, ws, steps, i - 1);
      StepKeepsRecords(cfg, ws[i - 1], steps[i - 1]);
    }
  }

  lemma NothingRecorded()
    ensures Recorded(START)
  {
  }

  // ---------------------------------------------------------------- one record for each ending

  /** The positions of the event's records in the quarantine stream. */
  ghost function Isolations(w: World, e: string): set<nat> {
    set i: nat | i < |w.store.quarantined|
              && w.store.quarantined[i].source in w.owner && w.owner[w.store.quarantined[i].source] == e
  }

  /** The event's current message ended in this way. */
  predicate EndedAs(w: World, e: string, fate: Fate) { Ended(w, Current(w.store, e), fate) }

  lemma BuriedIsRecorded(w: World, e: string)
    requires Inv(w) && Recorded(w) && e in w.accepted
    ensures |Burials(w, e)| == if EndedAs(w, e, DeadLettered) then 1 else 0
  {
    var l := w.store.deadLetters;
    assert HashOk(w, e);
    forall i | i in Burials(w, e) ensures l[i].source == Current(w.store, e) && EndedAs(w, e, DeadLettered) {
      assert RecordOk(w, l[i]);
      assert FateOk(w, l[i].source);
    }
    if EndedAs(w, e, DeadLettered) {
      assert HasBurial(w.store, Current(w.store, e));
      var k: nat :| k < |l| && l[k].source == Current(w.store, e);
      assert Burials(w, e) == {k};
    } else {
      assert Burials(w, e) == {};
    }
  }

  lemma IsolatedIsRecorded(w: World, e: string)
    requires Inv(w) && Recorded(w) && e in w.accepted
    ensures |Isolations(w, e)| == if EndedAs(w, e, Quarantined) then 1 else 0
  {
    var l := w.store.quarantined;
    assert HashOk(w, e);
    forall i | i in Isolations(w, e) ensures l[i].source == Current(w.store, e) && EndedAs(w, e, Quarantined) {
      assert Ended(w, l[i].source, Quarantined);
      assert FateOk(w, l[i].source);
    }
    if EndedAs(w, e, Quarantined) {
      assert HasIsolation(w.store, Current(w.store, e));
      var k: nat :| k < |l| && l[k].source == Current(w.store, e);
      assert Isolations(w, e) == {k};
    } else {
      assert Isolations(w, e) == {};
    }
  }

  /**
   In every run the dead-letter stream holds exactly one record of an event that ended by dead-letter and none of any
   other, and the quarantine stream likewise.
   */
  lemma OneRecordForEachEnding(cfg: Config, ws: seq<World>, steps: seq<Step>, i: nat, e: string)
    requires IsRun(cfg, ws, steps) && i < |ws| && e in ws[i].accepted
    ensures |Burials(ws[i], e)| == if EndedAs(ws[i], e, DeadLettered) then 1 else 0
    ensures |Isolations(ws[i], e)| == if EndedAs(ws[i], e, Quarantined) then 1 else 0
  {
    RunKeepsRecords(cfg, ws, steps, i);
    BuriedIsRecorded(ws[i], e);
    IsolatedIsRecorded(ws[i], e);
  }
}
