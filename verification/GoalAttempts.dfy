/**
 The attempt limit of the goal loop, for agents that edit nothing but the feature they are given: exactly which
 feature documents guarantee it.
 */
module GoalAttempts {
  import opened Options
  import opened GoalLoop

  // ---------------------------------------------------------------- namesakes

  /** The first feature with the id of feature `k`; the runner reads the state of `k` there. */
  function First(doc: Document, k: nat): (n: nat)
    requires k < |doc|
    ensures n <= k && doc[n].id == doc[k].id && forall j :: 0 <= j < n ==> doc[j].id != doc[k].id
    ensures NamedFrom(doc, doc[k].id, 0) == Some(n)
  {
    NamedFrom(doc, doc[k].id, 0).value
  }

  predicate Shadowed(doc: Document, k: nat)
    requires k < |doc|
  {
    First(doc, k) != k
  }

  predicate Stuck(f: Feature) { f.blocked && !f.passes }

  /** The first pending feature whose id an earlier one has. */
  ghost predicate FirstShadowed(doc: Document, k: nat) {
    && k < |doc| && Pending(doc[k]) && Shadowed(doc, k)
    && forall j: nat {:trigger Shadowed(doc, j)} :: j < k && Pending(doc[j]) ==> !Shadowed(doc, j)
  }

  /** There is such a feature, and its earlier namesake is not blocked. */
  ghost predicate Overruns(doc: Document) {
    exists k: nat :: FirstShadowed(doc, k) && !Stuck(doc[First(doc, k)])
  }

  lemma DistinctNeverOverruns(doc: Document)
    requires forall i, j :: 0 <= i < j < |doc| ==> doc[i].id != doc[j].id
    ensures !Overruns(doc)
  {
  }

  lemma SameIdsSameFirst(doc: Document, doc': Document, k: nat)
    requires |doc'| == |doc| && k < |doc| && forall j :: 0 <= j < |doc| ==> doc'[j].id == doc[j].id
    ensures First(doc', k) == First(doc, k)
  {
    var n, n' := First(doc, k), First(doc', k);
    assert doc'[n].id == doc'[k].id && doc[n'].id == doc[k].id;
  }

  // ---------------------------------------------------------------- the limit holds

  ghost predicate Within(picks: seq<Pick>, limit: int) { forall a :: 0 <= a < |picks| ==> picks[a].attempt <= limit }

  /** Pending features that are their id's first have attempts left; the first shadowed one is cut off and untried. */
  ghost predicate Guarded(doc: Document, attempts: map<string, nat>, limit: int) {
    && (forall k: nat {:trigger Shadowed(doc, k)} ::
          k < |doc| && Pending(doc[k]) && !Shadowed(doc, k) ==> Count(attempts, doc[k].id) < limit)
    && (forall k: nat {:trigger FirstShadowed(doc, k)} ::
          FirstShadowed(doc, k) ==> Stuck(doc[First(doc, k)]) && Count(attempts, doc[k].id) == 0)
  }

  lemma GuardedPick(doc: Document, attempts: map<string, nat>, limit: int, i: nat)
    requires Guarded(doc, attempts, limit) && limit >= 1 && PendingFrom(doc, 0) == Some(i)
    ensures Count(attempts, doc[i].id) + 1 <= limit
    ensures Shadowed(doc, i) ==> Stuck(doc[First(doc, i)])
  {
    assert Shadowed(doc, i) ==> FirstShadowed(doc, i);
  }

  /** What a turn that lets the loop go on does to a guarded document. */
  lemma EditStaysGuarded(doc: Document, doc': Document, attempts: map<string, nat>, limit: int, i: nat)
    requires Guarded(doc, attempts, limit) && PendingFrom(doc, 0) == Some(i) && EditsOnly(doc, doc', i)
    requires !Shadowed(doc, i) && (Pending(doc'[i]) ==> Count(attempts, doc[i].id) + 1 < limit)
    ensures Guarded(doc', attempts[doc[i].id := Count(attempts, doc[i].id) + 1], limit)
  {
    var attempts' := attempts[doc[i].id := Count(attempts, doc[i].id) + 1];
    forall k: nat | k < |doc| ensures First(doc', k) == First(doc, k) && (Shadowed(doc', k) <==> Shadowed(doc, k)) {
      SameIdsSameFirst(doc, doc', k);
    }
    forall k: nat | k < |doc'| && Pending(doc'[k]) && !Shadowed(doc', k) ensures Count(attempts', doc'[k].id) < limit {
      assert !Shadowed(doc, k);
    }
    forall k: nat | FirstShadowed(doc', k)
      ensures Stuck(doc'[First(doc', k)]) && Count(attempts', doc'[k].id) == 0
    {
      assert FirstShadowed(doc, k) by {
        forall j: nat | j < k && Pending(doc[j]) ensures !Shadowed(doc, j) {
          if j != i { assert !Shadowed(doc', j); }
        }
      }
    }
  }

  lemma {:induction false} GuardedRunStaysWithin(cfg: Config, agent: Agent, weather: Weather, received: Option<nat>,
                                                 doc: Document, attempts: map<string, nat>, iteration: nat)
    requires 1 <= iteration <= cfg.maxIterations && cfg.maxAttempts >= 1 && Keeps(agent)
    requires Guarded(doc, attempts, cfg.maxAttempts)
    ensures Within(RunFrom(cfg, agent, weather, received, doc, attempts, iteration).picks, cfg.maxAttempts)
    decreases cfg.maxIterations - iteration
  {
    hide RunFrom, IterateOn, Keeps, Guarded, EditsOnly, NonePending, Shadowed;
    if PendingFrom(doc, 0) == None {
      NothingToRun(cfg, agent, weather, received, doc, attempts, iteration);
    } else {
      var turn, rest := Onward(cfg, agent, weather, received, doc, attempts, iteration);
      KeptTurn(cfg, agent, weather, received, doc, attempts, iteration);
      GuardedPick(doc, attempts, cfg.maxAttempts, turn.pick.position);
      if turn.exit == None {
        TurnStaysGuarded(cfg, agent, weather, received, doc, attempts, iteration);
        GuardedRunStaysWithin(cfg, agent, weather, turn.received, turn.doc, turn.attempts, iteration + 1);
      }
    }
  }

  lemma TurnStaysGuarded(cfg: Config, agent: Agent, weather: Weather, received: Option<nat>, doc: Document,
                         attempts: map<string, nat>, iteration: nat)
    requires PendingFrom(doc, 0).Some? && Keeps(agent)
    requires Guarded(doc, attempts, cfg.maxAttempts) && cfg.maxAttempts >= 1
    requires IterateOn(cfg, agent, weather, received, doc, attempts, iteration).exit == None
    ensures var turn := IterateOn(cfg, agent, weather, received, doc, attempts, iteration);
            Guarded(turn.doc, turn.attempts, cfg.maxAttempts)
  {
    var turn := IterateOn(cfg, agent, weather, received, doc, attempts, iteration);
    var i := PendingFrom(doc, 0).value;
    KeptTurn(cfg, agent, weather, received, doc, attempts, iteration);
    TurnGoesOn(cfg, agent, weather, received, doc, attempts, iteration);
    hide IterateOn, Keeps, Guarded;
    GuardedPick(doc, attempts, cfg.maxAttempts, i);
    SameIdsSameFirst(doc, turn.doc, i);
    EditStaysGuarded(doc, turn.doc, attempts, cfg.maxAttempts, i);
  }

  // ---------------------------------------------------------------- the limit is overrun

  /** It makes every feature it is given pass, but leaves feature `j` alone. */
  function Neglectful(j: nat): Agent {
    (iteration, doc) => AgentRun(false, Some(0), Some(false), Some(Neglect(doc, j)))
  }

  function Neglect(doc: Document, j: nat): Document {
    var i := PendingFrom(doc, 0);
    if i == None || i.value == j then doc else doc[i.value := doc[i.value].(passes := true)]
  }

  function Quiet(): Weather { iteration => ((k, p) => []) }

  lemma NeglectfulKeeps(j: nat)
    ensures Keeps(Neglectful(j))
  {
  }

  /** No signal, and the feature that the runner looks up passes while another does not: the loop goes on. */
  lemma PassingGoesOn(cfg: Config, doc: Document, j: nat, attempts: map<string, nat>, iteration: nat)
    requires PendingFrom(doc, 0).Some? && iteration < cfg.maxIterations
    requires var i := PendingFrom(doc, 0).value;
             && j < |doc| && !Neglect(doc, j)[j].passes
             && Neglect(doc, j)[First(doc, i)].passes
    ensures var turn := IterateOn(cfg, Neglectful(j), Quiet(), None, doc, attempts, iteration);
            turn.exit == None && turn.received == None && turn.doc == Neglect(doc, j)
  {
    var i := PendingFrom(doc, 0).value;
    var after := Neglect(doc, j);
    assert forall k :: 0 <= k < |doc| ==> after[k].id == doc[k].id;
    SameIdsSameFirst(doc, after, i);
    assert after[j] in after && !AllPass(after);
    assert Quiet()(iteration)(0, 0) == [];
  }

  ghost predicate Baited(doc: Document, j: nat) { FirstShadowed(doc, j) && !Stuck(doc[First(doc, j)]) }

  /** Working towards feature `j` keeps the bait. */
  lemma NeglectKeepsBait(doc: Document, j: nat)
    requires Baited(doc, j)
    ensures PendingFrom(doc, 0).Some? && PendingFrom(doc, 0).value <= j
    ensures var i := PendingFrom(doc, 0).value;
            var doc' := Neglect(doc, j);
            && Baited(doc', j) && doc'[First(doc, i)].passes && doc'[j].id == doc[j].id
            && (i < j ==> PendingFrom(doc', 0).Some? && PendingFrom(doc', 0).value > i)
  {
    var i := PendingFrom(doc, 0).value;
    var doc' := Neglect(doc, j);
    forall k: nat | k < |doc| ensures First(doc', k) == First(doc, k) && (Shadowed(doc', k) <==> Shadowed(doc, k)) {
      SameIdsSameFirst(doc, doc', k);
    }
    assert doc'[j] == doc[j];
    assert FirstShadowed(doc', j) by {
      forall k: nat | k < j && Pending(doc'[k]) ensures !Shadowed(doc', k) { assert !Shadowed(doc, k); }
    }
    if i < j {
      assert !Shadowed(doc, i);
      assert forall k :: 0 <= k < i ==> doc'[k] == doc[k];
    }
  }

  lemma OverrunMore(pick: Pick, rest: seq<Pick>, limit: int)
    ensures pick.attempt > limit || !Within(rest, limit) ==> !Within([pick] + rest, limit)
  {
    var picks := [pick] + rest;
    if pick.attempt > limit {
      assert picks[0].attempt > limit;
    } else if !Within(rest, limit) {
      var a :| 0 <= a < |rest| && rest[a].attempt > limit;
      assert picks[a + 1].attempt > limit;
    }
  }

  /** The iterations still needed: one for each position before `j`, and one more if `j` has not been tried. */
  function Needed(doc: Document, j: nat, attempts: map<string, nat>): int
    requires PendingFrom(doc, 0).Some? && j < |doc|
  {
    j - PendingFrom(doc, 0).value + (if Count(attempts, doc[j].id) == 0 then 1 else 0)
  }

  /** A turn on a baited document goes on, unless it is the turn too many. */
  lemma BaitedTurn(cfg: Config, doc: Document, j: nat, attempts: map<string, nat>, iteration: nat, turn: Turn)
    requires Baited(doc, j) && PendingFrom(doc, 0).Some? && cfg.maxIterations - iteration >= Needed(doc, j, attempts)
    requires turn == IterateOn(cfg, Neglectful(j), Quiet(), None, doc, attempts, iteration)
    ensures turn.pick.attempt > 1 ||
            (&& turn.exit == None && turn.received == None && Baited(turn.doc, j) && PendingFrom(turn.doc, 0).Some?
             && Needed(turn.doc, j, turn.attempts) < Needed(doc, j, attempts))
  {
    var i := PendingFrom(doc, 0).value;
    NeglectfulKeeps(j);
    NeglectKeepsBait(doc, j);
    KeptTurn(cfg, Neglectful(j), Quiet(), None, doc, attempts, iteration);
    if i != j || Count(attempts, doc[j].id) == 0 {
      PassingGoesOn(cfg, doc, j, attempts, iteration);
    }
  }

  lemma {:induction false} BaitOverruns(cfg: Config, doc: Document, j: nat, attempts: map<string, nat>, iteration: nat)
    requires 1 <= iteration <= cfg.maxIterations && Baited(doc, j) && PendingFrom(doc, 0).Some?
    requires cfg.maxIterations - iteration >= Needed(doc, j, attempts)
    ensures !Within(RunFrom(cfg, Neglectful(j), Quiet(), None, doc, attempts, iteration).picks, 1)
    decreases cfg.maxIterations - iteration
  {
    hide RunFrom, IterateOn, Neglectful, Quiet, Within, Needed, Baited;
    var turn, rest := Onward(cfg, Neglectful(j), Quiet(), None, doc, attempts, iteration);
    OverrunMore(turn.pick, rest.picks, 1);
    BaitedTurn(cfg, doc, j, attempts, iteration, turn);
    if turn.pick.attempt <= 1 {
      BaitOverruns(cfg, turn.doc, j, turn.attempts, iteration + 1);
    }
  }

  // ---------------------------------------------------------------- the exact condition

  ghost predicate Held(cfg: Config, agent: Agent, weather: Weather, doc: Document) {
    cfg.maxIterations >= 1 && cfg.maxAttempts >= 1 && Keeps(agent) ==>
      Within(RunFrom(cfg, agent, weather, None, doc, map[], 1).picks, cfg.maxAttempts)
  }

  /**
   For every limit, every agent that keeps to its feature and every moment a signal may come, no feature is tried more
   often than the limit, if and only if the first pending feature that an earlier one shares its id with, if there is
   one, has its earlier namesake blocked. Distinct ids are enough.
   */
  lemma LimitHoldsIff(doc: Document)
    ensures (forall cfg: Config, agent: Agent, weather: Weather :: Held(cfg, agent, weather, doc)) <==> !Overruns(doc)
  {
    if Overruns(doc) {
      var j: nat :| FirstShadowed(doc, j) && !Stuck(doc[First(doc, j)]);
      var cfg := Config(j + 2, 1, false);
      assert Baited(doc, j);
      NeglectKeepsBait(doc, j);
      NeglectfulKeeps(j);
      BaitOverruns(cfg, doc, j, map[], 1);
      assert !Held(cfg, Neglectful(j), Quiet(), doc);
    } else {
      forall cfg: Config, agent: Agent, weather: Weather ensures Held(cfg, agent, weather, doc) {
        if cfg.maxIterations >= 1 && cfg.maxAttempts >= 1 && Keeps(agent) {
          GuardedRunStaysWithin(cfg, agent, weather, None, doc, map[], 1);
        }
      }
    }
  }

  // ---------------------------------------------------------------- what the counter counts

  /** How often this id has been picked so far. */
  function Picked(picks: seq<Pick>, id: string): nat {
    if picks == [] then 0 else Picked(picks[..|picks| - 1], id) + (if picks[|picks| - 1].id == id then 1 else 0)
  }

  lemma {:induction false} PickedAfter(pick: Pick, rest: seq<Pick>, id: string)
    ensures Picked([pick] + rest, id) == (if pick.id == id then 1 else 0) + Picked(rest, id)
  {
    if rest == [] {
      assert [pick] + rest == [pick] && [pick][..0] == [];
    } else {
      var n := |rest| - 1;
      PickedAfter(pick, rest[..n], id);
      assert ([pick] + rest)[..n + 1] == [pick] + rest[..n];
    }
  }

  /** The attempt number of every pick is the number of times its id has been picked, this time included. */
  lemma {:induction false} AttemptsAreCounted(cfg: Config, agent: Agent, weather: Weather, received: Option<nat>,
                                              doc: Document, attempts: map<string, nat>, iteration: nat, a: nat)
    requires 1 <= iteration <= cfg.maxIterations
    requires a < |RunFrom(cfg, agent, weather, received, doc, attempts, iteration).picks|
    ensures var picks := RunFrom(cfg, agent, weather, received, doc, attempts, iteration).picks;
            picks[a].attempt == Count(attempts, picks[a].id) + Picked(picks[..a], picks[a].id) + 1
    decreases cfg.maxIterations - iteration
  {
    hide RunFrom, EndingOf, PendingFrom, FinalizeFrom, FactsOf, DocumentAfter;
    if PendingFrom(doc, 0) == None {
      NothingToRun(cfg, agent, weather, received, doc, attempts, iteration);
    } else {
      var turn, rest := Onward(cfg, agent, weather, received, doc, attempts, iteration);
      var picks := [turn.pick] + rest.picks;
      if a == 0 {
        assert picks[..0] == [];
      } else {
        AttemptsAreCounted(cfg, agent, weather, turn.received, turn.doc, turn.attempts, iteration + 1, a - 1);
        PickedAfter(turn.pick, rest.picks[..a - 1], rest.picks[a - 1].id);
        assert picks[..a] == [turn.pick] + rest.picks[..a - 1];
      }
    }
  }
}
