/**
 The bounded goal-loop runner: selection of features, the outcome of an iteration, its finalisation under a signal
 handler that may run at any moment, and the loop around them. The agent is an arbitrary environment.
 */
module GoalLoop {
  import opened Options

  // ---------------------------------------------------------------- features

  /** `passes` and `blocked` say whether the document has exactly true there. */
  datatype Feature = Feature(id: string, passes: bool, blocked: bool, verified: bool)

  type Document = seq<Feature>

  predicate Pending(f: Feature) { !f.passes && !f.blocked }

  /** The first pending feature from position `i` on. */
  function PendingFrom(doc: Document, i: nat): (found: Option<nat>)
    requires i <= |doc|
    ensures found == None ==> forall j :: i <= j < |doc| ==> !Pending(doc[j])
    ensures found.Some? ==> i <= found.value < |doc| && Pending(doc[found.value])
    ensures found.Some? ==> forall j :: i <= j < found.value ==> !Pending(doc[j])
    decreases |doc| - i
  {
    if i == |doc| then None else if Pending(doc[i]) then Some(i) else PendingFrom(doc, i + 1)
  }

  /** The first feature with this id from position `i` on. */
  function NamedFrom(doc: Document, id: string, i: nat): (found: Option<nat>)
    requires i <= |doc|
    ensures found == None ==> forall j :: i <= j < |doc| ==> doc[j].id != id
    ensures found.Some? ==> i <= found.value < |doc| && doc[found.value].id == id
    ensures found.Some? ==> forall j :: i <= j < found.value ==> doc[j].id != id
    decreases |doc| - i
  {
    if i == |doc| then None else if doc[i].id == id then Some(i) else NamedFrom(doc, id, i + 1)
  }

  method PendingFeature(doc: Document) returns (found: Option<nat>)
    ensures found == PendingFrom(doc, 0)
  {
    for i := 0 to |doc|
      invariant PendingFrom(doc, 0) == PendingFrom(doc, i)
    {
      if !doc[i].passes && !doc[i].blocked {
        return Some(i);
      }
    }
    found := None;
  }

  method FeatureById(doc: Document, id: string) returns (found: Option<nat>)
    ensures found == NamedFrom(doc, id, 0)
  {
    for i := 0 to |doc|
      invariant NamedFrom(doc, id, 0) == NamedFrom(doc, id, i)
    {
      if doc[i].id == id {
        return Some(i);
      }
    }
    found := None;
  }

  predicate AllPass(doc: Document) { doc != [] && forall f :: f in doc ==> f.passes }

  predicate AllRemainingBlocked(doc: Document) {
    (exists f :: f in doc && !f.passes) && forall f :: f in doc && !f.passes ==> f.blocked
  }

  /** `keep_timed_out_feature_pending` as an edit of the document. */
  function KeepPending(doc: Document, id: string): Document {
    var i := NamedFrom(doc, id, 0);
    if i.Some? && (doc[i.value].passes || doc[i.value].verified)
    then doc[i.value := doc[i.value].(passes := false, verified := false)]
    else doc
  }

  /** A feature that timed out is not left passing, whatever the agent wrote; no other feature is touched. */
  lemma TimedOutIsNotPassing(doc: Document, id: string, k: nat)
    requires k < |doc|
    ensures var doc' := KeepPending(doc, id);
            && |doc'| == |doc| && doc'[k].id == doc[k].id && doc'[k].blocked == doc[k].blocked
            && NamedFrom(doc', id, 0) == NamedFrom(doc, id, 0)
            && (NamedFrom(doc, id, 0) == Some(k) ==> !doc'[k].passes && !doc'[k].verified)
            && (NamedFrom(doc, id, 0) != Some(k) ==> doc'[k] == doc[k])
  {
    var doc' := KeepPending(doc, id);
    var i, i' := NamedFrom(doc, id, 0), NamedFrom(doc', id, 0);
    assert forall j :: 0 <= j < |doc| ==> doc'[j].id == doc[j].id;
    if i.Some? {
      assert doc'[i.value].id == id;
      assert doc[i'.value].id == id;
    }
  }

  // ---------------------------------------------------------------- outcomes

  datatype State =
    Interrupted | TimedOut | Failed | Complete | FeatureComplete | Blocked | ManualReview | Incomplete

  /** `exit` is the runner's exit code; None means that the loop goes on. */
  datatype Outcome = Outcome(state: State, exit: Option<int>, signal: Option<nat>, retryable: bool)

  datatype Config = Config(maxIterations: nat, maxAttempts: nat, strict: bool)

  /** What an iteration knows when it is finalised. */
  datatype Facts = Facts(
    timedOut: bool,
    artifactError: bool,
    exitCode: Option<int>,
    passes: bool,
    blocked: bool,
    promisedBlocked: bool,
    allPass: bool,
    attempt: nat,
    final: bool)

  const TIMEOUT_EXIT_CODE := 124

  function Determine(cfg: Config, f: Facts, received: Option<nat>): Outcome {
    if received.Some? then Outcome(Interrupted, Some(128 + received.value), received, true)
    else if f.timedOut then Outcome(TimedOut, Some(TIMEOUT_EXIT_CODE), None, true)
    else if f.artifactError then Outcome(Failed, Some(3), None, false)
    else if f.exitCode != Some(0) then Outcome(Failed, Some(3), None, true)
    else if f.passes then
      if f.allPass then Outcome(Complete, Some(0), None, false)
      else Outcome(FeatureComplete, if f.final then Some(0) else None, None, false)
    else if f.blocked || f.promisedBlocked then Outcome(Blocked, Some(2), None, false)
    else if f.attempt >= cfg.maxAttempts then Outcome(ManualReview, Some(2), None, true)
    else if f.final then Outcome(Incomplete, Some(if cfg.strict then 1 else 0), None, true)
    else Outcome(Incomplete, None, None, true)
  }

  /** The loop goes on exactly after a clean, unfinished, non-final iteration with attempts left. */
  lemma GoesOnIff(cfg: Config, f: Facts, received: Option<nat>)
    ensures Determine(cfg, f, received).exit == None <==>
            && received == None && !f.timedOut && !f.artifactError && f.exitCode == Some(0) && !f.final
            && if f.passes then !f.allPass else !f.blocked && !f.promisedBlocked && f.attempt < cfg.maxAttempts
  {
  }

  /** What the recorded state says, and that only artifact errors, completion and blocking are not worth a retry. */
  lemma StateNamesOutcome(cfg: Config, f: Facts, received: Option<nat>)
    ensures var o := Determine(cfg, f, received);
            var sound := received == None && !f.timedOut && !f.artifactError && f.exitCode == Some(0);
            && (o.state == Interrupted <==> received.Some?) && o.signal == received
            && (o.state == TimedOut <==> received == None && f.timedOut)
            && (o.state == Failed <==> received == None && !f.timedOut && (f.artifactError || f.exitCode != Some(0)))
            && (o.state == Complete <==> sound && f.passes && f.allPass)
            && (o.state == FeatureComplete <==> sound && f.passes && !f.allPass)
            && (o.state == Blocked <==> sound && !f.passes && (f.blocked || f.promisedBlocked))
            && (o.state == ManualReview <==>
                  sound && !f.passes && !f.blocked && !f.promisedBlocked && f.attempt >= cfg.maxAttempts)
            && (!o.retryable <==>
                  || o.state in {Complete, FeatureComplete, Blocked}
                  || (o.state == Failed && f.artifactError))
  {
  }

  // ---------------------------------------------------------------- finalisation

  /** The signals delivered just before read point `point` of pass `pass`. */
  type Signals = (nat, nat) -> seq<nat>

  /** `handle_signal` for each of them: only the first signal ever is recorded. */
  function Received(received: Option<nat>, signals: seq<nat>): Option<nat> {
    if received.Some? || signals == [] then received else Some(signals[0])
  }

  datatype Final = Final(received: Option<nat>, outcome: Outcome, passes: nat)

  /** What finalisation comes to, from pass `k` on. */
  function FinalizeFrom(cfg: Config, f: Facts, received: Option<nat>, signals: Signals, k: nat): Final
    decreases if received.None? then 1 else 0
  {
    var before := Received(received, signals(k, 0));
    var seen := Received(before, signals(k, 1));
    var outcome := Determine(cfg, f, seen);
    var written := Received(seen, signals(k, 2));
    var printed := if outcome.exit.Some? then Received(written, signals(k, 3)) else written;
    if written != before then FinalizeFrom(cfg, f, written, signals, k + 1)
    else if printed != before then FinalizeFrom(cfg, f, printed, signals, k + 1)
    else Final(printed, outcome, k + 1)
  }

  /**
   However the handler interleaves, finalisation repeats at most once, and only because a signal came, which the
   outcome then reports. The outcome always is that of the signal recorded at the end.
   */
  lemma RepeatsAtMostOnce(cfg: Config, f: Facts, received: Option<nat>, signals: Signals)
    ensures var end := FinalizeFrom(cfg, f, received, signals, 0);
            && 1 <= end.passes <= 2
            && end.outcome == Determine(cfg, f, end.received)
            && (end.passes == 2 ==> Received(received, signals(0, 0)) == None && end.received.Some?)
            && (received.Some? ==> end.received == received && end.passes == 1)
            && (end.outcome.exit == None ==> end.received == None && received == None)
  {
    SecondPassIsLast(cfg, f, received, signals, 0);
    var before := Received(received, signals(0, 0));
    var seen := Received(before, signals(0, 1));
    var written := Received(seen, signals(0, 2));
    if written.Some? {
      SecondPassIsLast(cfg, f, written, signals, 1);
    } else {
      SecondPassIsLast(cfg, f, Received(written, signals(0, 3)), signals, 1);
    }
  }

  /** The signals delivered by the last check of an undisturbed pass. */
  function Delivered(cfg: Config, f: Facts, signals: Signals): seq<nat> {
    signals(0, 0) + signals(0, 1) + signals(0, 2)
    + (if Determine(cfg, f, None).exit.Some? then signals(0, 3) else [])
  }

  /** The first signal ever is the one recorded and reported: the one known before, or the first delivered in time. */
  lemma FirstSignalIsReported(cfg: Config, f: Facts, received: Option<nat>, signals: Signals)
    ensures var end := FinalizeFrom(cfg, f, received, signals, 0);
            var first := if received.Some? then received
                         else if Delivered(cfg, f, signals) == [] then None else Some(Delivered(cfg, f, signals)[0]);
            && end.received == first
            && (end.outcome.state == Interrupted <==> first.Some?)
            && (first.Some? ==> end.outcome.signal == first && end.outcome.exit == Some(128 + first.value))
  {
    RepeatsAtMostOnce(cfg, f, received, signals);
    var a, b, c := signals(0, 0), signals(0, 1), signals(0, 2);
    if received == None && a == [] && b == [] && c == [] {
      SecondPassIsLast(cfg, f, Received(None, signals(0, 3)), signals, 1);
    } else if received == None {
      var written := Received(Received(Received(None, a), b), c);
      SecondPassIsLast(cfg, f, written, signals, 0);
      SecondPassIsLast(cfg, f, written, signals, 1);
    }
  }

  lemma SecondPassIsLast(cfg: Config, f: Facts, received: Option<nat>, signals: Signals, k: nat)
    ensures received.Some? ==>
              FinalizeFrom(cfg, f, received, signals, k) == Final(received, Determine(cfg, f, received), k + 1)
  {
  }

  /** The runner's global and the two metadata files; `passes` counts the passes of the last finalisation. */
  class Runner {
    var received: Option<nat>
    var iterationMetadata: Option<Outcome>
    var runMetadata: Option<Outcome>
    var passes: nat

    constructor ()
      ensures received == None && iterationMetadata == None && runMetadata == None
    {
      received, iterationMetadata, runMetadata, passes := None, None, None, 0;
    }

    method HandleSignals(signals: seq<nat>)
      modifies this`received
      ensures received == Received(old(received), signals)
    {
      for i := 0 to |signals|
        invariant received == Received(old(received), signals[..i])
      {
        if received.None? {
          received := Some(signals[i]);
        }
      }
      assert signals[..|signals|] == signals;
    }

    /**
     `finalize_iteration`. The exit code it returns is the one in the metadata it wrote last; when it returns one, the
     run metadata hold the same outcome, and when the loop goes on, the run metadata are as they were.
     */
    method FinalizeIteration(cfg: Config, f: Facts, signals: Signals) returns (exit: Option<int>)
      modifies this
      ensures iterationMetadata == Some(Determine(cfg, f, received)) && exit == iterationMetadata.value.exit
      ensures Final(received, iterationMetadata.value, passes) == FinalizeFrom(cfg, f, old(received), signals, 0)
      ensures runMetadata == if exit.Some? then iterationMetadata else old(runMetadata)
      ensures 1 <= passes <= 2
    {
      RepeatsAtMostOnce(cfg, f, received, signals);
      passes := 0;
      ghost var start := FinalizeFrom(cfg, f, received, signals, 0);
      while true
        invariant FinalizeFrom(cfg, f, received, signals, passes) == start
        invariant runMetadata == old(runMetadata) || received.Some?
        decreases if received.None? then 1 else 0
      {
        HandleSignals(signals(passes, 0));
        var before := received;
        HandleSignals(signals(passes, 1));
        var outcome := Determine(cfg, f, received);
        iterationMetadata := Some(outcome);
        if outcome.exit.Some? {
          runMetadata := Some(outcome);
        }
        HandleSignals(signals(passes, 2));
        passes := passes + 1;
        if received != before {
          continue;
        }
        if outcome.exit.Some? {
          HandleSignals(signals(passes - 1, 3));
          if received != before {
            continue;
          }
        }
        return outcome.exit;
      }
    }
  }

  // ---------------------------------------------------------------- the loop

  /**
   What one agent process leaves behind. `message` is None when `final.md` cannot be read, and else says whether it
   holds the blocked promise; `document` is None when the feature document cannot be loaded afterwards.
   */
  datatype AgentRun = AgentRun(timedOut: bool, exitCode: Option<int>, message: Option<bool>, document: Option<Document>)

  type Agent = (nat, Document) -> AgentRun

  /** The signals of each iteration, those during the agent's run included. */
  type Weather = nat -> Signals

  function DocumentAfter(doc: Document, run: AgentRun, id: string): Document {
    var read := if run.document.Some? then run.document.value else doc;
    if run.timedOut && run.message.Some? && run.document.Some? then KeepPending(read, id) else read
  }

  function FactsOf(doc: Document, run: AgentRun, id: string, attempt: nat, final: bool): Facts {
    var after := DocumentAfter(doc, run, id);
    var selected := NamedFrom(after, id, 0);
    Facts(run.timedOut, run.message == None || run.document == None, run.exitCode,
          selected.Some? && after[selected.value].passes, selected.Some? && after[selected.value].blocked,
          run.message == Some(true), AllPass(after), attempt, final)
  }

  /** An iteration's selection. */
  datatype Pick = Pick(position: nat, id: string, attempt: nat)

  /** A whole run. */
  datatype Trip = Trip(exit: int, picks: seq<Pick>)

  function Count(attempts: map<string, nat>, id: string): nat { if id in attempts then attempts[id] else 0 }

  function NothingPending(doc: Document): int {
    if AllPass(doc) then 0 else if AllRemainingBlocked(doc) then 2 else 0
  }

  /** One iteration on a document with a pending feature; `doc` is what the next one would load. */
  datatype Turn = Turn(
    pick: Pick,
    facts: Facts,
    received: Option<nat>,
    exit: Option<int>,
    doc: Document,
    attempts: map<string, nat>)

  function IterateOn(cfg: Config, agent: Agent, weather: Weather, received: Option<nat>, doc: Document,
                     attempts: map<string, nat>, iteration: nat): Turn
    requires PendingFrom(doc, 0).Some?
  {
    var i := PendingFrom(doc, 0).value;
    var id := doc[i].id;
    var attempt := Count(attempts, id) + 1;
    var run := agent(iteration, doc);
    var facts := FactsOf(doc, run, id, attempt, iteration == cfg.maxIterations);
    var end := FinalizeFrom(cfg, facts, received, weather(iteration), 0);
    Turn(Pick(i, id, attempt), facts, end.received, end.outcome.exit,
         DocumentAfter(doc, run, id), attempts[id := attempt])
  }

  /** When an iteration lets the loop go on, the agent ran clean and its feature passes or has attempts left. */
  lemma TurnGoesOn(cfg: Config, agent: Agent, weather: Weather, received: Option<nat>, doc: Document,
                   attempts: map<string, nat>, iteration: nat)
    requires PendingFrom(doc, 0).Some?
    ensures var turn := IterateOn(cfg, agent, weather, received, doc, attempts, iteration);
            turn.exit == None ==>
              && turn.received == None && iteration != cfg.maxIterations
              && agent(iteration, doc).document == Some(turn.doc)
              && var selected := NamedFrom(turn.doc, turn.pick.id, 0);
                 if selected.Some? && turn.doc[selected.value].passes then !AllPass(turn.doc)
                 else !(selected.Some? && turn.doc[selected.value].blocked) && turn.pick.attempt < cfg.maxAttempts
  {
    var i := PendingFrom(doc, 0).value;
    var attempt := Count(attempts, doc[i].id) + 1;
    var facts := FactsOf(doc, agent(iteration, doc), doc[i].id, attempt, iteration == cfg.maxIterations);
    RepeatsAtMostOnce(cfg, facts, received, weather(iteration));
    GoesOnIff(cfg, facts, FinalizeFrom(cfg, facts, received, weather(iteration), 0).received);
  }

  /** The loop from iteration `iteration` on. */
  function RunFrom(cfg: Config, agent: Agent, weather: Weather, received: Option<nat>, doc: Document,
                   attempts: map<string, nat>, iteration: nat): Trip
    requires 1 <= iteration <= cfg.maxIterations
    decreases cfg.maxIterations - iteration
  {
    if PendingFrom(doc, 0) == None then Trip(NothingPending(doc), [])
    else
      TurnGoesOn(cfg, agent, weather, received, doc, attempts, iteration);
      var turn := IterateOn(cfg, agent, weather, received, doc, attempts, iteration);
      if turn.exit.Some? then Trip(turn.exit.value, [turn.pick])
      else
        var rest := RunFrom(cfg, agent, weather, turn.received, turn.doc, turn.attempts, iteration + 1);
        Trip(rest.exit, [turn.pick] + rest.picks)
  }

  /** A run ends at a loop head, where nothing is pending, or with the exit code of an iteration. */
  datatype Ending =
    | NothingLeft(doc: Document)
    | Stopped(iteration: nat, doc: Document, pick: Pick, received: Option<nat>)

  function EndingOf(cfg: Config, agent: Agent, weather: Weather, received: Option<nat>, doc: Document,
                    attempts: map<string, nat>, iteration: nat): Ending
    requires 1 <= iteration <= cfg.maxIterations
    decreases cfg.maxIterations - iteration
  {
    if PendingFrom(doc, 0) == None then NothingLeft(doc)
    else
      TurnGoesOn(cfg, agent, weather, received, doc, attempts, iteration);
      var turn := IterateOn(cfg, agent, weather, received, doc, attempts, iteration);
      if turn.exit.Some? then Stopped(iteration, doc, turn.pick, turn.received)
      else EndingOf(cfg, agent, weather, turn.received, turn.doc, turn.attempts, iteration + 1)
  }

  /**
   One iteration of `run_loop`, after a feature has been found: attempts, agent, evidence and finalisation. The exit
   code it returns is the one in the metadata written last.
   */
  method Iterate(cfg: Config, runner: Runner, doc: Document, position: nat, attempts: map<string, nat>, iteration: nat,
                 agent: Agent, weather: Weather)
    returns (turn: Turn)
    requires PendingFrom(doc, 0) == Some(position)
    modifies runner
    ensures turn == IterateOn(cfg, agent, weather, old(runner.received), doc, attempts, iteration)
    ensures runner.received == turn.received
    ensures runner.iterationMetadata.Some? && runner.iterationMetadata.value.exit == turn.exit
    ensures runner.runMetadata == if turn.exit.Some? then runner.iterationMetadata else old(runner.runMetadata)
  {
    var id := doc[position].id;
    var attempt := Count(attempts, id) + 1;
    var run := agent(iteration, doc);
    var facts := FactsOf(doc, run, id, attempt, iteration == cfg.maxIterations);
    var code := runner.FinalizeIteration(cfg, facts, weather(iteration));
    turn := Turn(Pick(position, id, attempt), facts, runner.received, code,
                 DocumentAfter(doc, run, id), attempts[id := attempt]);
  }

  /** The run unrolled once: this turn, and unless it ends the run, the rest. */
  lemma Onward(cfg: Config, agent: Agent, weather: Weather, received: Option<nat>, doc: Document,
               attempts: map<string, nat>, iteration: nat)
    returns (turn: Turn, rest: Trip)
    requires 1 <= iteration <= cfg.maxIterations && PendingFrom(doc, 0).Some?
    ensures turn == IterateOn(cfg, agent, weather, received, doc, attempts, iteration)
    ensures RunFrom(cfg, agent, weather, received, doc, attempts, iteration) ==
            Trip(rest.exit, [turn.pick] + rest.picks)
    ensures turn.exit.Some? ==> rest == Trip(turn.exit.value, [])
    ensures turn.exit == None ==> iteration < cfg.maxIterations
    ensures turn.exit == None ==>
              rest == RunFrom(cfg, agent, weather, turn.received, turn.doc, turn.attempts, iteration + 1)
    ensures EndingOf(cfg, agent, weather, received, doc, attempts, iteration) ==
              if turn.exit.Some? then Stopped(iteration, doc, turn.pick, turn.received)
              else EndingOf(cfg, agent, weather, turn.received, turn.doc, turn.attempts, iteration + 1)
  {
    TurnGoesOn(cfg, agent, weather, received, doc, attempts, iteration);
    turn := IterateOn(cfg, agent, weather, received, doc, attempts, iteration);
    rest := if turn.exit.Some? then Trip(turn.exit.value, [])
            else RunFrom(cfg, agent, weather, turn.received, turn.doc, turn.attempts, iteration + 1);
  }

  lemma Regroup(a: seq<Pick>, b: Pick, c: seq<Pick>)
    ensures a + ([b] + c) == a + [b] + c
  {
  }

  /** The runner's run metadata hold this exit code. */
  predicate HoldsCode(runMetadata: Option<Outcome>, exit: int) {
    runMetadata.Some? && runMetadata.value.exit == Some(exit)
  }

  /**
   `run_loop` on the feature document, with the agent and the signals as its environment. The return after the loop
   is out of reach. When an iteration stopped the run, its outcome with the exit code is in both metadata files. When
   the run ended at a loop head, the run metadata were never written, and the last iteration's hold no code. So for a
   runner that starts without run metadata they hold the exit code exactly when the run did not end at a loop head.
   */
  method RunLoop(cfg: Config, runner: Runner, features: Document, agent: Agent, weather: Weather)
    returns (exit: int, picks: seq<Pick>)
    requires cfg.maxIterations >= 1
    modifies runner
    ensures Trip(exit, picks) == RunFrom(cfg, agent, weather, old(runner.received), features, map[], 1)
    ensures var ending := EndingOf(cfg, agent, weather, old(runner.received), features, map[], 1);
            && (ending.Stopped? ==>
                  HoldsCode(runner.runMetadata, exit) && runner.iterationMetadata == runner.runMetadata)
            && (ending.NothingLeft? ==> runner.runMetadata == old(runner.runMetadata))
            && (ending.NothingLeft? && picks != [] ==>
                  runner.iterationMetadata.Some? && runner.iterationMetadata.value.exit == None)
            && (old(runner.runMetadata) == None ==> (HoldsCode(runner.runMetadata, exit) <==> ending.Stopped?))
  {
    hide RunFrom, EndingOf, IterateOn, PendingFrom;
    var doc, attempts: map<string, nat> := features, map[];
    picks := [];
    ghost var trip := RunFrom(cfg, agent, weather, runner.received, features, map[], 1);
    ghost var ending := EndingOf(cfg, agent, weather, runner.received, features, map[], 1);
    for iteration := 1 to cfg.maxIterations + 1
      invariant iteration <= cfg.maxIterations
      invariant trip.exit == RunFrom(cfg, agent, weather, runner.received, doc, attempts, iteration).exit
      invariant trip.picks == picks + RunFrom(cfg, agent, weather, runner.received, doc, attempts, iteration).picks
      invariant ending == EndingOf(cfg, agent, weather, runner.received, doc, attempts, iteration)
      invariant runner.runMetadata == old(runner.runMetadata)
      invariant picks != [] ==> runner.iterationMetadata.Some? && runner.iterationMetadata.value.exit == None
    {
      var found := PendingFeature(doc);
      if found.None? {
        NothingToRun(cfg, agent, weather, runner.received, doc, attempts, iteration);
        return NothingPending(doc), picks;
      }
      ghost var ahead, rest := Onward(cfg, agent, weather, runner.received, doc, attempts, iteration);
      var turn := Iterate(cfg, runner, doc, found.value, attempts, iteration, agent, weather);
      Regroup(picks, turn.pick, rest.picks);
      picks := picks + [turn.pick];
      if turn.exit.Some? {
        return turn.exit.value, picks;
      }
      doc, attempts := turn.doc, turn.attempts;
    }
    assert false;
    exit := 0;
  }

  /**
   A document that ends a run without a code: the agent makes the one pending feature pass, the other is blocked. The
   iteration goes on, and the next loop head returns 2.
   */
  lemma CompleteThenBlocked(a: string, b: string, strict: bool)
    requires a != b
    ensures var cfg := Config(2, 1, strict);
            var features := [Feature(a, false, false, false), Feature(b, false, true, false)];
            var after := [Feature(a, true, false, true), Feature(b, false, true, false)];
            var agent: Agent := (iteration, doc) => AgentRun(false, Some(0), Some(false), Some(after));
            var weather: Weather := iteration => ((k, p) => []);
            && EndingOf(cfg, agent, weather, None, features, map[], 1) == NothingLeft(after)
            && RunFrom(cfg, agent, weather, None, features, map[], 1) == Trip(2, [Pick(0, a, 1)])
  {
    var cfg := Config(2, 1, strict);
    var features := [Feature(a, false, false, false), Feature(b, false, true, false)];
    var after := [Feature(a, true, false, true), Feature(b, false, true, false)];
    var agent: Agent := (iteration, doc) => AgentRun(false, Some(0), Some(false), Some(after));
    var weather: Weather := iteration => ((k, p) => []);
    assert PendingFrom(features, 0) == Some(0) && PendingFrom(after, 0) == None;
    assert NamedFrom(after, a, 0) == Some(0);
    assert after[1] in after && !AllPass(after) && AllRemainingBlocked(after);
    assert weather(1)(0, 0) == [];
    var turn := IterateOn(cfg, agent, weather, None, features, map[], 1);
    assert turn.exit == None && turn.doc == after && turn.pick == Pick(0, a, 1);
  }

  lemma NothingToRun(cfg: Config, agent: Agent, weather: Weather, received: Option<nat>, doc: Document,
                     attempts: map<string, nat>, iteration: nat)
    requires 1 <= iteration <= cfg.maxIterations && PendingFrom(doc, 0) == None
    ensures RunFrom(cfg, agent, weather, received, doc, attempts, iteration) == Trip(NothingPending(doc), [])
    ensures EndingOf(cfg, agent, weather, received, doc, attempts, iteration) == NothingLeft(doc)
  {
  }

  // ---------------------------------------------------------------- exit codes

  /** The agent's artifacts could not all be read. */
  predicate Broken(run: AgentRun) { run.message == None || run.document == None }

  /** The agent ran to its end, all artifacts could be read, and no signal came. */
  predicate Clean(run: AgentRun, received: Option<nat>) {
    received == None && !run.timedOut && !Broken(run) && run.exitCode == Some(0)
  }

  predicate Passing(doc: Document, id: string) {
    var i := NamedFrom(doc, id, 0);
    i.Some? && doc[i.value].passes
  }

  predicate MarkedBlocked(doc: Document, id: string) {
    var i := NamedFrom(doc, id, 0);
    i.Some? && doc[i.value].blocked
  }

  /** The agent says that it is blocked, or the attempts are used up. */
  predicate GivesUp(cfg: Config, run: AgentRun, pick: Pick) {
    || (run.document.Some? && MarkedBlocked(run.document.value, pick.id))
    || run.message == Some(true)
    || pick.attempt >= cfg.maxAttempts
  }

  /** What each exit code says about the agent's own run in the iteration that stopped the loop. */
  predicate Names(cfg: Config, run: AgentRun, pick: Pick, final: bool, received: Option<nat>, exit: int) {
    var passes := run.document.Some? && Passing(run.document.value, pick.id);
    && (exit >= 128 <==> received.Some?) && (received.Some? ==> exit == 128 + received.value)
    && (exit == 124 <==> received == None && run.timedOut)
    && (exit == 3 <==> received == None && !run.timedOut && (Broken(run) || run.exitCode != Some(0)))
    && (exit == 2 <==> Clean(run, received) && !passes && GivesUp(cfg, run, pick))
    && (exit == 1 <==> Clean(run, received) && !passes && !GivesUp(cfg, run, pick) && final && cfg.strict)
    && (exit == 0 <==>
          && Clean(run, received)
          && if passes then final || (forall f :: f in run.document.value ==> f.passes)
             else !GivesUp(cfg, run, pick) && final && !cfg.strict)
  }

  /** What the exit code says about the ending. */
  ghost predicate NamesEnding(cfg: Config, agent: Agent, ending: Ending, exit: int) {
    match ending
    case NothingLeft(doc) =>
      && (forall f :: f in doc ==> f.passes || f.blocked)
      && exit == (if exists f :: f in doc && !f.passes then 2 else 0)
    case Stopped(iteration, doc, pick, received) =>
      && PendingFrom(doc, 0) == Some(pick.position) && pick.id == doc[pick.position].id
      && Names(cfg, agent(iteration, doc), pick, iteration == cfg.maxIterations, received, exit)
  }

  lemma NothingLeftIsNamed(cfg: Config, agent: Agent, doc: Document)
    requires PendingFrom(doc, 0) == None
    ensures NamesEnding(cfg, agent, NothingLeft(doc), NothingPending(doc))
  {
  }

  /** What `Determine` is told of a run that reaches its tests on the feature. */
  lemma FactsOfCleanRun(doc: Document, run: AgentRun, pick: Pick, final: bool)
    requires !run.timedOut && !Broken(run)
    ensures var f := FactsOf(doc, run, pick.id, pick.attempt, final);
            && f.passes == Passing(run.document.value, pick.id)
            && f.blocked == MarkedBlocked(run.document.value, pick.id)
            && (f.passes ==> f.allPass == forall g :: g in run.document.value ==> g.passes)
  {
  }

  lemma TurnIsNamed(cfg: Config, agent: Agent, weather: Weather, received: Option<nat>, doc: Document,
                    attempts: map<string, nat>, iteration: nat)
    requires PendingFrom(doc, 0).Some?
    ensures var turn := IterateOn(cfg, agent, weather, received, doc, attempts, iteration);
            turn.exit.Some? ==>
              NamesEnding(cfg, agent, Stopped(iteration, doc, turn.pick, turn.received), turn.exit.value)
  {
    var turn := IterateOn(cfg, agent, weather, received, doc, attempts, iteration);
    var run := agent(iteration, doc);
    RepeatsAtMostOnce(cfg, turn.facts, received, weather(iteration));
    if !run.timedOut && !Broken(run) {
      FactsOfCleanRun(doc, run, turn.pick, iteration == cfg.maxIterations);
    }
    hide FinalizeFrom, DocumentAfter, Passing, MarkedBlocked;
    assert turn.exit == Determine(cfg, turn.facts, turn.received).exit;
  }

  /** A turn that lets the loop go on had an agent run to its end, and without a blocked promise unless it passed. */
  lemma GoingOnWasClean(cfg: Config, agent: Agent, weather: Weather, received: Option<nat>, doc: Document,
                        attempts: map<string, nat>, iteration: nat)
    requires PendingFrom(doc, 0).Some?
    requires IterateOn(cfg, agent, weather, received, doc, attempts, iteration).exit == None
    ensures var turn := IterateOn(cfg, agent, weather, received, doc, attempts, iteration);
            var run, pick := agent(iteration, doc), turn.pick;
            && Clean(run, received) && iteration != cfg.maxIterations
            && if Passing(run.document.value, pick.id) then exists f :: f in run.document.value && !f.passes
               else !GivesUp(cfg, run, pick)
  {
    var turn := IterateOn(cfg, agent, weather, received, doc, attempts, iteration);
    var run := agent(iteration, doc);
    RepeatsAtMostOnce(cfg, turn.facts, received, weather(iteration));
    GoesOnIff(cfg, turn.facts, turn.received);
    FactsOfCleanRun(doc, run, turn.pick, iteration == cfg.maxIterations);
    hide FinalizeFrom, DocumentAfter, Passing, MarkedBlocked;
  }

  /**
   After a timeout with readable artifacts the selected feature is not passing in what the next loop would read. In all
   other cases that is what the agent left, or what was there before if that cannot be read.
   */
  lemma TimeoutLeavesPending(cfg: Config, agent: Agent, weather: Weather, received: Option<nat>, doc: Document,
                             attempts: map<string, nat>, iteration: nat)
    requires PendingFrom(doc, 0).Some?
    ensures var turn, run := IterateOn(cfg, agent, weather, received, doc, attempts, iteration), agent(iteration, doc);
            && (run.timedOut && !Broken(run) ==>
                  && !Passing(turn.doc, turn.pick.id) && |turn.doc| == |run.document.value|
                  && forall k :: 0 <= k < |turn.doc| && NamedFrom(turn.doc, turn.pick.id, 0) != Some(k) ==>
                       turn.doc[k] == run.document.value[k])
            && (!run.timedOut || Broken(run) ==>
                  turn.doc == if run.document.Some? then run.document.value else doc)
  {
    var turn, run := IterateOn(cfg, agent, weather, received, doc, attempts, iteration), agent(iteration, doc);
    if run.timedOut && !Broken(run) {
      forall k: nat | k < |run.document.value|
        ensures NamedFrom(turn.doc, turn.pick.id, 0) == Some(k) ==> !turn.doc[k].passes
        ensures NamedFrom(turn.doc, turn.pick.id, 0) != Some(k) ==> turn.doc[k] == run.document.value[k]
      {
        TimedOutIsNotPassing(run.document.value, turn.pick.id, k);
      }
    }
  }

  /** Every run ends within the iterations allowed, and its exit code names the way it ended. */
  lemma {:induction false} ExitNamesEnding(cfg: Config, agent: Agent, weather: Weather, received: Option<nat>,
                                           doc: Document, attempts: map<string, nat>, iteration: nat)
    requires 1 <= iteration <= cfg.maxIterations
    ensures |RunFrom(cfg, agent, weather, received, doc, attempts, iteration).picks|
            <= cfg.maxIterations - iteration + 1
    ensures NamesEnding(cfg, agent, EndingOf(cfg, agent, weather, received, doc, attempts, iteration),
                        RunFrom(cfg, agent, weather, received, doc, attempts, iteration).exit)
    decreases cfg.maxIterations - iteration
  {
    hide RunFrom, IterateOn, NamesEnding, PendingFrom, EndingOf;
    if PendingFrom(doc, 0) == None {
      NothingToRun(cfg, agent, weather, received, doc, attempts, iteration);
      NothingLeftIsNamed(cfg, agent, doc);
    } else {
      var turn, rest := Onward(cfg, agent, weather, received, doc, attempts, iteration);
      TurnIsNamed(cfg, agent, weather, received, doc, attempts, iteration);
      if turn.exit == None {
        ExitNamesEnding(cfg, agent, weather, turn.received, turn.doc, turn.attempts, iteration + 1);
      }
    }
  }

  // ---------------------------------------------------------------- agents that keep to their feature

  ghost predicate EditsOnly(doc: Document, doc': Document, i: nat)
    requires i < |doc|
  {
    && |doc'| == |doc| && doc'[i].id == doc[i].id
    && forall j :: 0 <= j < |doc| && j != i ==> doc'[j] == doc[j]
  }

  /** The agent changes nothing but the feature it was given, and not that one's id. */
  ghost predicate Keeps(agent: Agent) {
    forall iteration: nat, doc: Document {:trigger agent(iteration, doc)} ::
      PendingFrom(doc, 0).Some? && agent(iteration, doc).document.Some? ==>
        EditsOnly(doc, agent(iteration, doc).document.value, PendingFrom(doc, 0).value)
  }

  /** Positions below `size`, none below `low`, none below an earlier one. */
  ghost predicate Ordered(picks: seq<Pick>, low: nat, size: nat) {
    && (forall a :: 0 <= a < |picks| ==> low <= picks[a].position < size)
    && (forall a, b :: 0 <= a < b < |picks| ==> picks[a].position <= picks[b].position)
  }

  lemma EmptyIsOrdered(low: nat, size: nat)
    ensures Ordered([], low, size)
  {
  }

  lemma OrderedMore(pick: Pick, rest: seq<Pick>, low: nat, size: nat)
    requires low <= pick.position < size && Ordered(rest, pick.position, size)
    ensures Ordered([pick] + rest, low, size)
  {
  }

  ghost predicate NonePending(doc: Document, low: nat) { low <= |doc| && forall j :: 0 <= j < low ==> !Pending(doc[j]) }

  lemma PendingIsNotBelow(doc: Document, low: nat)
    requires NonePending(doc, low)
    ensures PendingFrom(doc, 0).Some? ==> PendingFrom(doc, 0).value >= low
  {
  }

  /** After a kept turn, nothing before its feature is pending. */
  lemma KeptTurn(cfg: Config, agent: Agent, weather: Weather, received: Option<nat>, doc: Document,
                 attempts: map<string, nat>, iteration: nat)
    requires PendingFrom(doc, 0).Some? && Keeps(agent)
    ensures var turn := IterateOn(cfg, agent, weather, received, doc, attempts, iteration);
            var i := PendingFrom(doc, 0).value;
            && turn.pick == Pick(i, doc[i].id, Count(attempts, doc[i].id) + 1)
            && turn.attempts == attempts[doc[i].id := turn.pick.attempt]
            && (turn.exit == None ==>
                  EditsOnly(doc, turn.doc, i) && |turn.doc| == |doc| && NonePending(turn.doc, i))
  {
    TurnGoesOn(cfg, agent, weather, received, doc, attempts, iteration);
    hide FinalizeFrom, FactsOf, DocumentAfter;
  }

  /** Features are worked on in document order. */
  lemma {:induction false} InDocumentOrder(cfg: Config, agent: Agent, weather: Weather, received: Option<nat>,
                                           doc: Document, attempts: map<string, nat>, iteration: nat, low: nat)
    requires 1 <= iteration <= cfg.maxIterations && Keeps(agent) && NonePending(doc, low)
    ensures Ordered(RunFrom(cfg, agent, weather, received, doc, attempts, iteration).picks, low, |doc|)
    decreases cfg.maxIterations - iteration
  {
    hide RunFrom, IterateOn, Keeps, NonePending, Ordered;
    if PendingFrom(doc, 0) == None {
      NothingToRun(cfg, agent, weather, received, doc, attempts, iteration);
      EmptyIsOrdered(low, |doc|);
    } else {
      var turn, rest := Onward(cfg, agent, weather, received, doc, attempts, iteration);
      KeptTurn(cfg, agent, weather, received, doc, attempts, iteration);
      PendingIsNotBelow(doc, low);
      if turn.exit == None {
        InDocumentOrder(cfg, agent, weather, turn.received, turn.doc, turn.attempts, iteration + 1, turn.pick.position);
      } else {
        EmptyIsOrdered(turn.pick.position, |doc|);
      }
      OrderedMore(turn.pick, rest.picks, low, |doc|);
    }
  }
}
