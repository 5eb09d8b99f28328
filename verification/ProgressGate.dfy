/** The lock-free gate that retires an index-build progress callback (src/index_segment.rs): a
    counter and a flag, each accessed by sequentially consistent atomic steps of any number of
    workers and of the thread that retires the gate. */
module ProgressGate {

  type ThreadId = nat

  /** A worker inside `enter` ... `exit`: after the increment, after it saw the flag, or
      admitted and free to run the callback until its decrement. */
  datatype Pc = Outside | Counted | BackingOut | Admitted

  datatype Retirer = NotStarted | Draining | Returned

  /** The counter is an integer so that an underflow would show. */
  datatype Gate = Gate(retired: bool, inFlight: int, workers: map<ThreadId, Pc>, retirer: Retirer)

  const FRESH_GATE: Gate := Gate(false, 0, map[], NotStarted)

  datatype Action =
    | Join(t: ThreadId)
    | Increment(t: ThreadId)
    | Check(t: ThreadId)
    | BackOut(t: ThreadId)
    | Exit(t: ThreadId)
    | StoreRetired
    | PollCounter

  predicate Enabled(g: Gate, a: Action) {
    match a
    case Join(t) => t !in g.workers
    case Increment(t) => t in g.workers && g.workers[t] == Outside
    case Check(t) => t in g.workers && g.workers[t] == Counted
    case BackOut(t) => t in g.workers && g.workers[t] == BackingOut
    case Exit(t) => t in g.workers && g.workers[t] == Admitted
    case StoreRetired => g.retirer == NotStarted
    case PollCounter => g.retirer == Draining
  }

  function Step(g: Gate, a: Action): Gate
    requires Enabled(g, a)
  {
    match a
    case Join(t) => g.(workers := g.workers[t := Outside])
    case Increment(t) => g.(inFlight := g.inFlight + 1, workers := g.workers[t := Counted])
    case Check(t) => g.(workers := g.workers[t := if g.retired then BackingOut else Admitted])
    case BackOut(t) => g.(inFlight := g.inFlight - 1, workers := g.workers[t := Outside])
    case Exit(t) => g.(inFlight := g.inFlight - 1, workers := g.workers[t := Outside])
    case StoreRetired => g.(retired := true, retirer := Draining)
    case PollCounter => if g.inFlight == 0 then g.(retirer := Returned) else g
  }

  /** The workers between their increment and their decrement. */
  function Inside(workers: map<ThreadId, Pc>): set<ThreadId> {
    set t | t in workers && workers[t] != Outside
  }

  predicate Running(g: Gate) {
    exists t | t in g.workers :: g.workers[t] == Admitted
  }

  ghost predicate Inv(g: Gate) {
    && g.inFlight == |Inside(g.workers)|
    && (g.retired <==> g.retirer != NotStarted)
    && (g.retirer == Returned ==> !Running(g))
  }

  lemma StepKeeps(g: Gate, a: Action)
    requires Inv(g) && Enabled(g, a)
    ensures Inv(Step(g, a))
  {
    var after := Step(g, a);
    match a
    case Join(t) => assert Inside(after.workers) == Inside(g.workers);
    case Increment(t) => assert Inside(after.workers) == Inside(g.workers) + {t};
    case Check(t) => assert Inside(after.workers) == Inside(g.workers);
    case BackOut(t) => assert Inside(after.workers) == Inside(g.workers) - {t};
    case Exit(t) => assert Inside(after.workers) == Inside(g.workers) - {t};
    case StoreRetired =>
    case PollCounter =>
      if g.inFlight == 0 {
        assert Inside(g.workers) == {};
        assert forall t | t in g.workers :: t !in Inside(g.workers);
      }
  }

  predicate IsRun(g: Gate, run: seq<Action>)
    decreases |run|
  {
    run == [] || (Enabled(g, run[0]) && IsRun(Step(g, run[0]), run[1..]))
  }

  function End(g: Gate, run: seq<Action>): Gate
    requires IsRun(g, run)
    decreases |run|
  {
    if run == [] then g else End(Step(g, run[0]), run[1..])
  }

  lemma {:induction false} RunKeeps(g: Gate, run: seq<Action>)
    requires Inv(g) && IsRun(g, run)
    ensures Inv(End(g, run))
    ensures g.retirer == Returned ==> End(g, run).retirer == Returned
    decreases |run|
  {
    if run != [] {
      StepKeeps(g, run[0]);
      RunKeeps(Step(g, run[0]), run[1..]);
    }
  }

  /** In every interleaving the counter is the number of workers inside, so it never
      underflows. */
  lemma CounterIsExact(run: seq<Action>)
    requires IsRun(FRESH_GATE, run)
    ensures var g := End(FRESH_GATE, run); g.inFlight == |Inside(g.workers)| >= 0
  {
    assert Inside(FRESH_GATE.workers) == {};
    RunKeeps(FRESH_GATE, run);
  }

  /** Once `retire` has returned, no worker is admitted and none ever becomes admitted. */
  lemma RetireIsTheBoundary(before: seq<Action>, after: seq<Action>)
    requires IsRun(FRESH_GATE, before) && End(FRESH_GATE, before).retirer == Returned
    requires IsRun(End(FRESH_GATE, before), after)
    ensures !Running(End(FRESH_GATE, before)) && !Running(End(End(FRESH_GATE, before), after))
  {
    assert Inside(FRESH_GATE.workers) == {};
    RunKeeps(FRESH_GATE, before);
    RunKeeps(End(FRESH_GATE, before), after);
  }

  /** While the drain loop sees a positive counter, some worker inside can take a step. Each
      worker needs at most two steps to leave; that it takes them is the scheduler's business. */
  lemma DrainWaitsForAWorker(g: Gate)
    requires Inv(g) && g.retirer == Draining && g.inFlight != 0
    ensures exists t | t in Inside(g.workers) :: Enabled(g, Check(t)) || Enabled(g, BackOut(t)) || Enabled(g, Exit(t))
  {
    assert Inside(g.workers) != {};
    var t :| t in Inside(g.workers);
    assert Enabled(g, Check(t)) || Enabled(g, BackOut(t)) || Enabled(g, Exit(t));
  }

  /** An undisturbed `enter` admits the worker exactly when the gate is not retired, and whichever way
      the worker leaves, the gate is as it was. */
  lemma EnterAndLeaveAlone(g: Gate, t: ThreadId)
    requires Enabled(g, Increment(t))
    ensures var g1 := Step(g, Increment(t));
            && Enabled(g1, Check(t))
            && var g2 := Step(g1, Check(t));
               && g2.inFlight == g.inFlight + 1
               && (g2.workers[t] == Admitted <==> !g.retired)
               && (!g.retired ==> Enabled(g2, Exit(t)) && Step(g2, Exit(t)) == g)
               && (g.retired ==> Enabled(g2, BackOut(t)) && Step(g2, BackOut(t)) == g)
  {
    assert g.workers[t := Counted][t := Admitted][t := Outside] == g.workers;
    assert g.workers[t := Counted][t := BackingOut][t := Outside] == g.workers;
  }

  lemma {:induction false} OpenUntilRetire(g: Gate, run: seq<Action>)
    requires IsRun(g, run) && !g.retired && StoreRetired !in run
    ensures !End(g, run).retired
    decreases |run|
  {
    if run != [] {
      assert run[0] in run;
      OpenUntilRetire(Step(g, run[0]), run[1..]);
    }
  }

  /** No progress is lost before that: until retire is called, every worker that enters is admitted. */
  lemma AdmittedUntilRetire(run: seq<Action>, t: ThreadId)
    requires IsRun(FRESH_GATE, run) && StoreRetired !in run && Enabled(End(FRESH_GATE, run), Check(t))
    ensures Step(End(FRESH_GATE, run), Check(t)).workers[t] == Admitted
  {
    OpenUntilRetire(FRESH_GATE, run);
  }

  /** `retire` returns at the first look that finds no worker inside, and at no other. */
  lemma DrainReturnsWhenEmpty(g: Gate)
    requires Inv(g) && g.retirer == Draining
    ensures Step(g, PollCounter).retirer == Returned <==> Inside(g.workers) == {}
  {
  }
}
