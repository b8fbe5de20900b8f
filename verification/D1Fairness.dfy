/**
 Repairs take the least recently updated rows first. So while every clock reads later than a waiting row was last
 touched, no repair can pass it over more often than the rows before it allow.
 */
module D1Fairness {
  import opened Options
  import opened DeliveryPolicy
  import opened Chunker
  import opened D1Store
  import opened D1World
  import opened D1Safety
  import opened D1Preservation
  import opened D1Guarantees
  import opened D1Leases

  /** The pending rows other than `e` that were last touched at `t` or before. */
  function Older(d: D1, e: string, t: int): set<string> {
    set f | f in d.outbox && f != e && !d.outbox[f].sent && d.outbox[f].updated <= t
  }

  /** A repair that could have claimed `e` and did not has claimed as many rows as it may, all of them older. */
  lemma PassedOverForOlder(d: D1, now: int, limit: nat, picked: set<string>, e: string)
    requires Picks(d, now, limit, picked) && Claimable(d, now, e) && e !in picked
    ensures |picked| == limit && picked <= Older(d, e, d.outbox[e].updated)
  {
    forall f | f in picked ensures f in Older(d, e, d.outbox[e].updated) {
      assert Claimable(d, now, f);
    }
  }

  /** The clock a step reads, if it is one that writes to the outbox. */
  function Clock(step: Step): Option<int> {
    match step
    case Accept(_, _, _, _, now, _) => Some(now)
    case Mark(_, now, _, _) => Some(now)
    case StartTour(_, _, _, _, now, _) => Some(now)
    case TourMark(_, now, _, _) => Some(now)
    case TourFree(_, now, _) => Some(now)
    case _ => None
  }

  /** No clock of this step reads `t` or earlier. */
  predicate After(step: Step, t: int) { Clock(step).Some? ==> Clock(step).value > t }

  /** Every row that a step touches is stamped with the step's clock. */
  ghost predicate Stamps(w: World, w': World, t: int) {
    forall f :: f in w'.db.outbox ==>
      (f in w.db.outbox && w'.db.outbox[f] == w.db.outbox[f]) || w'.db.outbox[f].updated > t
  }

  lemma StepStamps(cfg: Config, w: World, step: Step, t: int)
    requires Inv(cfg, w) && KeysOk(cfg, w) && Enabled(w, step) && After(step, t)
    ensures Stamps(w, Apply(cfg, w, step), t)
  {
    if step.Accept? {
      AcceptStamps(cfg, w, step, t);
    } else if step.StartTour? {
      hide Inv, KeysOk, Picks, Lists;
    } else if Clock(step).Some? {
      hide Inv, KeysOk;
      MarkStamps(cfg, w, step, t);
    } else {
      hide Inv, KeysOk, Apply, Enabled;
      OutboxStays(cfg, w, step);
    }
  }

  lemma MarkStamps(cfg: Config, w: World, step: Step, t: int)
    requires Enabled(w, step) && After(step, t) && (step.Mark? || step.TourMark? || step.TourFree?)
    ensures Stamps(w, Apply(cfg, w, step), t)
  {
  }

  lemma AcceptStamps(cfg: Config, w: World, step: Step, t: int)
    requires Inv(cfg, w) && KeysOk(cfg, w) && Enabled(w, step) && step.Accept? && After(step, t)
    ensures Stamps(w, Apply(cfg, w, step), t)
  {
    KeysPointAtEvents(cfg, w);
    hide Inv, KeysOk;
    AcceptAddsOrLeaves(cfg, w, step.p, step.e, step.request, step.key, step.now, step.lost);
    hide DoAccept;
  }

  /** This step is a repair that could have claimed the row of `e` and claimed others, at least `least` if there are. */
  ghost predicate PassesOver(w: World, step: Step, e: string, least: nat) {
    step.StartTour? && step.limit >= least && Claimable(w.db, step.now, e) && e !in step.picked
  }

  lemma OlderShrinks(cfg: Config, w: World, step: Step, e: string, least: nat)
    requires Inv(cfg, w) && KeysOk(cfg, w) && Enabled(w, step)
    requires e in w.db.outbox && After(step, w.db.outbox[e].updated)
    ensures var t := w.db.outbox[e].updated;
            |Older(Apply(cfg, w, step).db, e, t)| + (if PassesOver(w, step, e, least) then least else 0)
              <= |Older(w.db, e, t)|
  {
    var t, w' := w.db.outbox[e].updated, Apply(cfg, w, step);
    hide Inv, KeysOk, Apply, Enabled, Picks, Older, Stamps;
    StepStamps(cfg, w, step, t);
    StampedAreOlder(w, w', e, t);
    if PassesOver(w, step, e, least) {
      TourTouches(cfg, w, step);
      PassedOverForOlder(w.db, step.now, step.limit, step.picked, e);
      TouchedAreNotOlder(w', e, t, step.picked, step.now);
      assert Older(w'.db, e, t) <= Older(w.db, e, t) - step.picked;
      SubsetIsSmaller(Older(w'.db, e, t), Older(w.db, e, t) - step.picked);
    } else {
      SubsetIsSmaller(Older(w'.db, e, t), Older(w.db, e, t));
    }
  }

  lemma StampedAreOlder(w: World, w': World, e: string, t: int)
    requires Stamps(w, w', t)
    ensures Older(w'.db, e, t) <= Older(w.db, e, t)
  {
  }

  lemma TouchedAreNotOlder(w: World, e: string, t: int, picked: set<string>, now: int)
    requires now > t && forall f :: f in picked && f in w.db.outbox ==> w.db.outbox[f].updated == now
    ensures Older(w.db, e, t) !! picked
  {
  }

  lemma TourTouches(cfg: Config, w: World, step: Step)
    requires Enabled(w, step) && step.StartTour?
    ensures Picks(w.db, step.now, step.limit, step.picked)
    ensures forall f :: f in step.picked && f in Apply(cfg, w, step).db.outbox ==>
              Apply(cfg, w, step).db.outbox[f].updated == step.now
  {
    hide Picks, Lists;
  }

  lemma SubsetIsSmaller(a: set<string>, b: set<string>)
    requires a <= b
    ensures |a| <= |b|
  {
    assert b == a + (b - a);
  }

  /** How often repairs with room for `least` rows pass over `e` from step `i` up to step `j`. */
  ghost function PassedOver(ws: seq<World>, steps: seq<Step>, i: nat, j: nat, e: string, least: nat): nat
    requires i <= j <= |steps| <= |ws|
  {
    if i == j then 0
    else PassedOver(ws, steps, i, j - 1, e, least) + (if PassesOver(ws[j - 1], steps[j - 1], e, least) then 1 else 0)
  }

  /**
   While the row of `e` is left as it is, and every clock reads later than it was last touched, the repairs that could
   have claimed it and did not, each with room for `least` rows, cannot together outnumber the rows before it.
   */
  lemma {:induction false} RepairIsFair(cfg: Config, ws: seq<World>, steps: seq<Step>, i: nat, j: nat, e: string,
                                        least: nat)
    requires IsRun(cfg, ws, steps) && i <= j <= |steps| && e in ws[i].db.outbox
    requires forall k :: i <= k <= j ==> e in ws[k].db.outbox && ws[k].db.outbox[e] == ws[i].db.outbox[e]
    requires forall k :: i <= k < j ==> After(steps[k], ws[i].db.outbox[e].updated)
    ensures var t := ws[i].db.outbox[e].updated;
            |Older(ws[j].db, e, t)| + least * PassedOver(ws, steps, i, j, e, least) <= |Older(ws[i].db, e, t)|
  {
    hide Inv, KeysOk, Apply, Enabled, Older, PassesOver, After;
    if i < j {
      RepairIsFair(cfg, ws, steps, i, j - 1, e, least);
      RunKeeps(cfg, ws, steps, j - 1);
      OlderShrinks(cfg, ws[j - 1], steps[j - 1], e, least);
      Distributes(least, PassedOver(ws, steps, i, j - 1, e, least));
    }
  }

  lemma Distributes(least: nat, n: nat)
    ensures least * (n + 1) == least * n + least
  {
  }
}
