/**
 Startup, readiness, in-flight work and drain of one process: the health object, the worker runtime that brackets
 its runs with it, and every interleaving of health updates with balanced brackets.
 */
module Runtime {
  import opened Options

  // ---------------------------------------------------------------- the state, as a value

  datatype Health = Health(started: bool, dependencyReady: bool, shuttingDown: bool, inFlight: int, drained: bool)

  function Initial(started: bool, dependencyReady: bool): Health { Health(started, dependencyReady, false, 0, true) }

  predicate Ready(h: Health) { h.started && h.dependencyReady && !h.shuttingDown }

  function Begin(h: Health): (Health, bool) {
    if Ready(h) then (h.(inFlight := h.inFlight + 1, drained := false), true) else (h, false)
  }

  /** None stands for the RuntimeError. */
  function Finish(h: Health): Option<Health> {
    if h.inFlight < 1 then None
    else Some(h.(inFlight := h.inFlight - 1, drained := h.drained || h.inFlight == 1))
  }

  // ---------------------------------------------------------------- the object

  class ServiceHealth {
    var started: bool
    var dependencyReady: bool
    var shuttingDown: bool
    var inFlight: int
    var drained: bool

    function View(): Health
      reads this
    {
      Health(started, dependencyReady, shuttingDown, inFlight, drained)
    }

    constructor (started: bool, dependencyReady: bool)
      ensures View() == Initial(started, dependencyReady)
    {
      this.started, this.dependencyReady := started, dependencyReady;
      shuttingDown, inFlight, drained := false, 0, true;
    }

    method MarkStarted(ready: bool)
      modifies this
      ensures View() == old(View()).(started := true, dependencyReady := ready)
    {
      started, dependencyReady := true, ready;
    }

    method SetDependencyReady(ready: bool)
      modifies this
      ensures View() == old(View()).(dependencyReady := ready)
    {
      dependencyReady := ready;
    }

    method BeginWork() returns (begun: bool)
      modifies this
      ensures (View(), begun) == Begin(old(View()))
    {
      if !(started && dependencyReady && !shuttingDown) {
        return false;
      }
      inFlight := inFlight + 1;
      drained := false;
      begun := true;
    }

    method FinishWork() returns (raised: bool)
      modifies this
      ensures raised <==> Finish(old(View())) == None
      ensures Some(View()) == if raised then Some(old(View())) else Finish(old(View()))
    {
      if inFlight < 1 {
        return true;
      }
      inFlight := inFlight - 1;
      if inFlight == 0 {
        drained := true;
      }
      raised := false;
    }

    method BeginShutdown()
      modifies this
      ensures View() == old(View()).(shuttingDown := true)
    {
      shuttingDown := true;
    }
  }

  /** How a bracketed run ended. */
  datatype RunResult<T> = NotRun | Returned(value: T) | Raised

  class WorkerRuntime {
    const health: ServiceHealth

    constructor (health: ServiceHealth)
      ensures this.health == health
    {
      this.health := health;
    }

    /** `groupMade` says whether `ensure_consumer_group` went through. */
    method Startup(groupMade: bool) returns (ok: bool)
      modifies health
      ensures ok == groupMade && health.View() == old(health.View()).(started := true, dependencyReady := groupMade)
    {
      health.MarkStarted(groupMade);
      ok := groupMade;
    }

    /**
     `run_once`; `work` is what the worker's own run comes to, None for an exception. Undisturbed, the bracket leaves
     the health as it found it, exception or not, and `finish_work` does not raise inside it.
     */
    method RunOnce<T>(work: Option<T>) returns (result: RunResult<T>)
      requires Sound(health.View())
      modifies health
      ensures health.View() == old(health.View())
      ensures result.NotRun? <==> !Ready(old(health.View()))
      ensures Ready(old(health.View())) ==> result == (if work.Some? then Returned(work.value) else Raised)
    {
      var begun := health.BeginWork();
      if !begun {
        return NotRun;
      }
      result := if work.Some? then Returned(work.value) else Raised;
      var raised := health.FinishWork();
      assert !raised;
    }
  }

  // ---------------------------------------------------------------- interleavings

  /** The drained flag is set exactly when nothing is in flight. */
  predicate Sound(h: Health) { h.inFlight >= 0 && (h.drained <==> h.inFlight == 0) }

  /** The health, and who has begun work and not finished it. */
  datatype World = World(health: Health, open: set<nat>)

  datatype Step =
    | MarkStarted(ready: bool)
    | SetReady(ready: bool)
    | BeginTask(task: nat)
    | FinishTask(task: nat)
    | Shutdown

  /** Brackets are balanced: a task that is not working begins, one that has begun finishes. */
  predicate Enabled(w: World, step: Step) {
    match step
    case BeginTask(task) => task !in w.open
    case FinishTask(task) => task in w.open
    case _ => true
  }

  function Apply(w: World, step: Step): World {
    match step
    case MarkStarted(ready) => w.(health := w.health.(started := true, dependencyReady := ready))
    case SetReady(ready) => w.(health := w.health.(dependencyReady := ready))
    case BeginTask(task) =>
      var (h, begun) := Begin(w.health);
      World(h, if begun then w.open + {task} else w.open)
    case FinishTask(task) =>
      (match Finish(w.health)
       case None => w
       case Some(h) => World(h, w.open - {task}))
    case Shutdown => w.(health := w.health.(shuttingDown := true))
  }

  ghost predicate IsRun(ws: seq<World>, steps: seq<Step>) {
    && |ws| == |steps| + 1
    && (exists s, d :: ws[0] == World(Initial(s, d), {}))
    && forall i :: 0 <= i < |steps| ==> Enabled(ws[i], steps[i]) && ws[i + 1] == Apply(ws[i], steps[i])
  }

  /** The counter counts the open brackets, so `finish_work` never raises, and the flag says whether it is zero. */
  lemma {:induction false} BracketsAreCounted(ws: seq<World>, steps: seq<Step>, i: nat)
    requires IsRun(ws, steps) && i < |ws|
    ensures ws[i].health.inFlight == |ws[i].open| && Sound(ws[i].health)
    ensures forall task :: task in ws[i].open ==> Finish(ws[i].health).Some?
  {
    if i > 0 {
      BracketsAreCounted(ws, steps, i - 1);
      var step := steps[i - 1];
      assert Enabled(ws[i - 1], step) && ws[i] == Apply(ws[i - 1], step);
      if step.FinishTask? {
        assert ws[i - 1].open == ws[i].open + {step.task};
      }
    }
    if task :| task in ws[i].open {
      assert ws[i].open == {task} + (ws[i].open - {task});
    }
  }

  /**
   After shutdown has begun the process is never ready again and takes up no work; so the number in flight only
   falls, and a drain once reached is there for good.
   */
  lemma {:induction false} DrainLasts(ws: seq<World>, steps: seq<Step>, i: nat, j: nat)
    requires IsRun(ws, steps) && i <= j < |ws| && ws[i].health.shuttingDown
    ensures ws[j].health.shuttingDown && !Ready(ws[j].health)
    ensures ws[j].open <= ws[i].open && ws[j].health.inFlight <= ws[i].health.inFlight
    ensures ws[i].health.drained ==> ws[j].health.drained && ws[j].open == {}
  {
    hide IsRun, Apply, Enabled;
    BracketsAreCounted(ws, steps, i);
    if i < j {
      DrainLasts(ws, steps, i, j - 1);
      BracketsAreCounted(ws, steps, j - 1);
      StepOf(ws, steps, j - 1);
      StepDrains(ws[j - 1], steps[j - 1]);
    }
  }

  lemma StepOf(ws: seq<World>, steps: seq<Step>, k: nat)
    requires IsRun(ws, steps) && k + 1 < |ws|
    ensures |ws| == |steps| + 1 && Enabled(ws[k], steps[k]) && ws[k + 1] == Apply(ws[k], steps[k])
  {
  }

  lemma StepDrains(w: World, step: Step)
    requires w.health.shuttingDown && Sound(w.health) && Enabled(w, step)
    ensures var w' := Apply(w, step);
            && w'.health.shuttingDown && w'.open <= w.open && w'.health.inFlight <= w.health.inFlight
            && (w.health.drained && w.open == {} ==> w'.health.drained && w'.open == {})
            && !Ready(w'.health)
  {
  }

  /**
   Before shutdown a drain need not last: a step can take up work again exactly when the process is ready.
   */
  lemma WorkResumesIffReady(ws: seq<World>, steps: seq<Step>, i: nat, task: nat)
    requires IsRun(ws, steps) && i < |ws| && ws[i].health.drained
    ensures Enabled(ws[i], BeginTask(task))
    ensures !Apply(ws[i], BeginTask(task)).health.drained <==> Ready(ws[i].health)
  {
    BracketsAreCounted(ws, steps, i);
  }

  /** Readiness as the steps taken so far report it: the last report counts, `d` before any. */
  function LastReport(steps: seq<Step>, d: bool): bool {
    if steps == [] then d
    else
      match steps[|steps| - 1]
      case MarkStarted(ready) => ready
      case SetReady(ready) => ready
      case _ => LastReport(steps[..|steps| - 1], d)
  }

  /**
   A process is ready exactly when it has been started, shutdown has not begun, and the last report on its dependency
   was good; and it takes up work exactly then.
   */
  lemma {:induction false} ReadyIffReported(ws: seq<World>, steps: seq<Step>, i: nat, s: bool, d: bool, task: nat)
    requires IsRun(ws, steps) && i < |ws| && ws[0] == World(Initial(s, d), {})
    ensures var past := steps[..i];
            && (ws[i].health.started <==> s || exists k :: 0 <= k < i && past[k].MarkStarted?)
            && (ws[i].health.shuttingDown <==> Shutdown in past)
            && (ws[i].health.dependencyReady <==> LastReport(past, d))
    ensures var past := steps[..i];
            var started := s || exists k :: 0 <= k < i && past[k].MarkStarted?;
            var ready := started && LastReport(past, d) && Shutdown !in past;
            task !in ws[i].open ==> (task in Apply(ws[i], BeginTask(task)).open <==> ready)
  {
    hide IsRun;
    if i == 0 {
      assert steps[..0] == [];
    } else {
      ReadyIffReported(ws, steps, i - 1, s, d, task);
      StepOf(ws, steps, i - 1);
      assert steps[..i] == steps[..i - 1] + [steps[i - 1]];
      assert steps[..i][..i - 1] == steps[..i - 1];
      assert steps[i - 1].MarkStarted? ==> steps[..i][i - 1].MarkStarted?;
      assert forall k :: 0 <= k < i - 1 ==> steps[..i][k] == steps[..i - 1][k];
    }
  }
}
