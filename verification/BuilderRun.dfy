/** One index segment builder over its whole life (src/index_segment.rs): callbacks are set and
    replaced, the build runs once and ends in success, error or panic, and workers it has
    detached go on running afterwards. */
module BuilderRun {
  import opened Common
  import G = ProgressGate

  type GateId = nat
  type CallbackId = nat

  datatype Progress = Progress(callback: CallbackId, gate: GateId)

  /** The two builder fields that the protocol uses. */
  datatype Fields = Fields(executed: bool, progress: Option<Progress>)

  datatype Phase = Idle | Building | Unwinding | Finished

  /** `gates` are all gates ever made. The workers of a gate hold a clone of the progress
      handle it was made with, so `callbacks` is what they would invoke. */
  datatype State = State(
    fields: Fields, phase: Phase, gates: map<GateId, G.Gate>, callbacks: map<GateId, CallbackId>)

  const FRESH: State := State(Fields(false, None), Idle, map[], map[])

  // ---------------------------------------------------------------------------
  // The two entry points
  // ---------------------------------------------------------------------------

  datatype Rejection = NullCallback | AlreadyExecuted | NullOutput

  function SetProgress(f: Fields, callback: Option<CallbackId>, gate: GateId): Result<Fields, Rejection> {
    if callback.None? then Failure(NullCallback)
    else if f.executed then Failure(AlreadyExecuted)
    else Success(f.(progress := Some(Progress(callback.value, gate))))
  }

  class LanceIndexSegmentBuilder {
    var executed: bool
    var progress: Option<Progress>

    constructor ()
      ensures View() == FRESH.fields
    {
      executed, progress := false, None;
    }

    function View(): Fields
      reads this
    {
      Fields(executed, progress)
    }

    /** `gate` is a gate nobody has seen yet. */
    method SetProgressCallback(callback: Option<CallbackId>, gate: GateId) returns (r: Result<(), Rejection>)
      modifies this
      ensures match SetProgress(old(View()), callback, gate)
              case Success(fields) => r == Success(()) && View() == fields
              case Failure(e) => r == Failure(e) && View() == old(View())
      ensures callback.None? ==> r == Failure(NullCallback)
      ensures callback.Some? && old(executed) ==> r == Failure(AlreadyExecuted)
      ensures executed == old(executed)
      ensures progress ==
              if callback.Some? && !old(executed) then Some(Progress(callback.value, gate)) else old(progress)
    {
      if callback.None? { return Failure(NullCallback); }
      if executed { return Failure(AlreadyExecuted); }
      progress := Some(Progress(callback.value, gate));
      return Success(());
    }

    /** The part of `execute_uncommitted` before the build: on success the returned gate is
        the one that the guard retires on every exit. */
    method BeginExecute(outputsValid: bool) returns (r: Result<Option<GateId>, Rejection>)
      modifies this
      ensures progress == old(progress) && executed
      ensures old(executed) ==> r == Failure(AlreadyExecuted)
      ensures !old(executed) && !outputsValid ==> r == Failure(NullOutput)
      ensures !old(executed) && outputsValid ==>
                r == Success(if progress.Some? then Some(progress.value.gate) else None)
    {
      if executed { return Failure(AlreadyExecuted); }
      executed := true;
      if !outputsValid { return Failure(NullOutput); }
      return Success(if progress.Some? then Some(progress.value.gate) else None);
    }
  }

  // ---------------------------------------------------------------------------
  // Steps
  // ---------------------------------------------------------------------------

  datatype Outcome = Succeeded | Failed | Panicked

  datatype Action =
    | SetCallback(callback: Option<CallbackId>, gate: GateId)
    | Execute(outputsValid: bool)
    | Spawn(t: G.ThreadId)
    | Worker(gate: GateId, step: G.Action)
    | EndBuild(outcome: Outcome)
    | Retire
    | Drain
    | Return

  predicate IsWorkerStep(a: G.Action) {
    a.Increment? || a.Check? || a.BackOut? || a.Exit?
  }

  function CurrentGate(s: State): Option<GateId> {
    if s.fields.progress.Some? then Some(s.fields.progress.value.gate) else None
  }

  predicate HasGate(s: State) {
    CurrentGate(s).Some? && CurrentGate(s).value in s.gates
  }

  predicate Enabled(s: State, a: Action) {
    match a
    case SetCallback(_, gate) => gate !in s.gates
    case Execute(_) => true
    case Spawn(t) =>
      HasGate(s) && G.Enabled(s.gates[CurrentGate(s).value], G.Join(t))
      && (s.phase.Building? || s.gates[CurrentGate(s).value].workers != map[])
    case Worker(gate, step) => gate in s.gates && IsWorkerStep(step) && G.Enabled(s.gates[gate], step)
    case EndBuild(_) => s.phase.Building?
    case Retire => s.phase.Unwinding? && HasGate(s) && G.Enabled(s.gates[CurrentGate(s).value], G.StoreRetired)
    case Drain => s.phase.Unwinding? && HasGate(s) && G.Enabled(s.gates[CurrentGate(s).value], G.PollCounter)
    case Return =>
      s.phase.Unwinding? &&
      (CurrentGate(s).None? || (HasGate(s) && s.gates[CurrentGate(s).value].retirer == G.Returned))
  }

  function GateStep(s: State, gate: GateId, a: G.Action): State
    requires gate in s.gates && G.Enabled(s.gates[gate], a)
  {
    s.(gates := s.gates[gate := G.Step(s.gates[gate], a)])
  }

  function Step(s: State, a: Action): State
    requires Enabled(s, a)
  {
    match a
    case SetCallback(callback, gate) =>
      (match SetProgress(s.fields, callback, gate)
       case Failure(_) => s
       case Success(fields) =>
         s.(fields := fields, gates := s.gates[gate := G.FRESH_GATE], callbacks := s.callbacks[gate := callback.value]))
    case Execute(outputsValid) =>
      if s.fields.executed then s
      else s.(fields := s.fields.(executed := true), phase := if outputsValid then Building else Finished)
    case Spawn(t) => GateStep(s, CurrentGate(s).value, G.Join(t))
    case Worker(gate, step) => GateStep(s, gate, step)
    case EndBuild(_) => s.(phase := Unwinding)
    case Retire => GateStep(s, CurrentGate(s).value, G.StoreRetired)
    case Drain => GateStep(s, CurrentGate(s).value, G.PollCounter)
    case Return => s.(phase := Finished)
  }

  // ---------------------------------------------------------------------------
  // The invariant
  // ---------------------------------------------------------------------------

  ghost predicate Inv(s: State) {
    && (forall g | g in s.gates :: G.Inv(s.gates[g]) && g in s.callbacks)
    && (s.fields.progress.Some? ==>
          && HasGate(s)
          && s.callbacks[CurrentGate(s).value] == s.fields.progress.value.callback)
    && (forall g | g in s.gates && Some(g) != CurrentGate(s) :: s.gates[g].workers == map[])
    && (s.phase.Idle? ==> !s.fields.executed && forall g | g in s.gates :: s.gates[g].workers == map[])
    && (!s.phase.Idle? ==> s.fields.executed)
    && (s.phase.Idle? || s.phase.Building? ==> forall g | g in s.gates :: s.gates[g].retirer == G.NotStarted)
    && (s.phase.Finished? && HasGate(s) ==>
          || s.gates[CurrentGate(s).value].retirer == G.Returned
          || s.gates[CurrentGate(s).value].workers == map[])
  }

  lemma GateStepKeeps(s: State, a: Action)
    requires Inv(s) && Enabled(s, a) && (a.Spawn? || a.Worker? || a.Retire? || a.Drain?)
    ensures Inv(Step(s, a))
  {
    var gate := if a.Worker? then a.gate else CurrentGate(s).value;
    var step := match a case Spawn(t) => G.Join(t) case Worker(_, step) => step
                        case Retire => G.StoreRetired case _ => G.PollCounter;
    G.StepKeeps(s.gates[gate], step);
  }

  lemma StepKeeps(s: State, a: Action)
    requires Inv(s) && Enabled(s, a)
    ensures Inv(Step(s, a))
  {
    if a.Spawn? || a.Worker? || a.Retire? || a.Drain? {
      GateStepKeeps(s, a);
    } else {
      assert G.Inside(G.FRESH_GATE.workers) == {};
    }
  }

  predicate IsRun(s: State, run: seq<Action>)
    decreases |run|
  {
    run == [] || (Enabled(s, run[0]) && IsRun(Step(s, run[0]), run[1..]))
  }

  function End(s: State, run: seq<Action>): State
    requires IsRun(s, run)
    decreases |run|
  {
    if run == [] then s else End(Step(s, run[0]), run[1..])
  }

  lemma {:induction false} RunKeeps(s: State, run: seq<Action>)
    requires Inv(s) && IsRun(s, run)
    ensures Inv(End(s, run))
    decreases |run|
  {
    if run != [] {
      StepKeeps(s, run[0]);
      RunKeeps(Step(s, run[0]), run[1..]);
    }
  }

  // ---------------------------------------------------------------------------
  // What a caller may rely on
  // ---------------------------------------------------------------------------

  /** The callback a caller would say is installed: the last one set before the first call of
      `execute_uncommitted`, read off the calls alone. */
  function LastSet(run: seq<Action>, current: Option<CallbackId>): Option<CallbackId>
    decreases |run|
  {
    if run == [] || run[0].Execute? then current
    else
      LastSet(run[1..], if run[0].SetCallback? && run[0].callback.Some? then run[0].callback else current)
  }

  function Installed(s: State): Option<CallbackId> {
    if s.fields.progress.Some? then Some(s.fields.progress.value.callback) else None
  }

  lemma {:induction false} ExecutedFreezes(s: State, run: seq<Action>)
    requires IsRun(s, run) && s.fields.executed
    ensures End(s, run).fields == s.fields
    decreases |run|
  {
    if run != [] { ExecutedFreezes(Step(s, run[0]), run[1..]); }
  }

  lemma {:induction false} InstalledIsLastSet(s: State, run: seq<Action>)
    requires IsRun(s, run) && !s.fields.executed
    ensures Installed(End(s, run)) == LastSet(run, Installed(s))
    decreases |run|
  {
    if run != [] {
      if run[0].Execute? {
        ExecutedFreezes(Step(s, run[0]), run[1..]);
      } else {
        InstalledIsLastSet(Step(s, run[0]), run[1..]);
      }
    }
  }

  predicate InProgress(s: State) {
    s.phase.Building? || s.phase.Unwinding?
  }

  /** In every run a callback executes only while `execute_uncommitted` is in progress, on
      success, error and panic alike, and it is the one last set. */
  lemma CallbackOnlyDuringExecute(run: seq<Action>, g: GateId)
    requires IsRun(FRESH, run) && g in End(FRESH, run).gates && G.Running(End(FRESH, run).gates[g])
    ensures var s := End(FRESH, run);
            InProgress(s) && g in s.callbacks && Some(s.callbacks[g]) == LastSet(run, None)
  {
    RunKeeps(FRESH, run);
    InstalledIsLastSet(FRESH, run);
  }

  /** The builder is single-use: after one execute, however it ended, every later execute and
      every later set is rejected and changes nothing. */
  lemma SecondCallsAreRejected(run: seq<Action>, more: seq<Action>, a: Action)
    requires IsRun(FRESH, run) && IsRun(End(FRESH, run), more)
    requires End(FRESH, run).fields.executed
    requires Enabled(End(End(FRESH, run), more), a) && (a.SetCallback? || a.Execute?)
    ensures var s := End(End(FRESH, run), more);
            Step(s, a) == s && (a.SetCallback? ==> SetProgress(s.fields, a.callback, a.gate).Failure?)
  {
    ExecutedFreezes(End(FRESH, run), more);
  }

  /** While the build runs no progress is lost: a worker that enters the installed gate is admitted. */
  lemma ProgressIsDelivered(run: seq<Action>, t: G.ThreadId)
    requires IsRun(FRESH, run) && End(FRESH, run).phase.Building? && HasGate(End(FRESH, run))
    requires G.Enabled(End(FRESH, run).gates[CurrentGate(End(FRESH, run)).value], G.Check(t))
    ensures var g := End(FRESH, run).gates[CurrentGate(End(FRESH, run)).value];
            G.Step(g, G.Check(t)).workers[t] == G.Admitted
  {
    RunKeeps(FRESH, run);
  }

  /** After the build, `execute_uncommitted` always has its next step. */
  lemma ExecuteIsNeverStuck(s: State)
    requires Inv(s) && InProgress(s)
    ensures Enabled(s, EndBuild(Succeeded)) || Enabled(s, Retire) || Enabled(s, Drain) || Enabled(s, Return)
  {
  }
}
