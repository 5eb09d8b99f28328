/** Poll wakers and their retirement when a scanner is closed (src/scanner.rs): a state machine
    over any number of threads, waker contexts and waker handles. One step is one critical
    section, one reference-count update, or one entry to or return from the host's callback. */
module WakerRegistry {
  import opened Common

  type ThreadId = nat
  type ContextId = nat
  type HandleId = nat

  /** Who keeps a context alive: a waker handle, a thread inside `make_raw_waker` or
      `wake_once` (by value or through the handle it borrows), or the closing thread. */
  datatype Owner = Handle(id: HandleId) | Thread(t: ThreadId) | Closing

  /** The flags that a context guards by its mutex. */
  datatype Flags = Flags(fired: bool, cancelled: bool, active: bool)

  /** `owners` are the strong references. The rest is history: how often the callback was
      entered, which thread runs it, and whether a handle was handed out. */
  datatype Context = Context(
    flags: Flags, owners: set<Owner>, entries: nat, runner: Option<ThreadId>, exposed: bool)

  datatype Pc =
    | Idle
    | Registering(ctx: ContextId)
    | CancellingOwn(ctx: ContextId)
    | Waking(ctx: ContextId)
    | InCallback(ctx: ContextId)
    | Returning(ctx: ContextId)
    | Releasing(ctx: ContextId)

  /** The closing thread; it holds the lock of the registry while it is `Upgrading`. */
  datatype Closer =
    | Open
    | Upgrading(todo: seq<ContextId>, held: seq<ContextId>)
    | Cancelling(todo: seq<ContextId>, held: seq<ContextId>)
    | Waiting(todo: seq<ContextId>)
    | Closed

  /** What the registry holds behind its lock, over whatever stands for a context. */
  datatype Registry<C> = Registry(retired: bool, registrations: seq<C>)

  datatype State = State(
    contexts: map<ContextId, Context>,
    registry: Registry<ContextId>,
    threads: map<ThreadId, Pc>,
    closer: Closer)

  // ---------------------------------------------------------------------------
  // Critical sections
  // ---------------------------------------------------------------------------

  predicate Admits(f: Flags) {
    !f.cancelled && !f.fired
  }

  /** The first critical section of `wake_once`. */
  function BeginWakeFlags(f: Flags): Flags {
    if Admits(f) then f.(fired := true, active := true) else f
  }

  /** The second one, after the callback has returned. */
  function EndWakeFlags(f: Flags): Flags {
    f.(active := false)
  }

  function CancelFlags(f: Flags): Flags {
    f.(cancelled := true)
  }

  function TryFire(c: Context, t: ThreadId): Context {
    if Admits(c.flags) then c.(flags := BeginWakeFlags(c.flags), entries := c.entries + 1, runner := Some(t)) else c
  }

  function Quiesce(c: Context): Context {
    c.(flags := EndWakeFlags(c.flags), runner := None)
  }

  function Cancel(c: Context): Context {
    c.(flags := CancelFlags(c.flags))
  }

  predicate IsLive(s: State, c: ContextId) {
    c in s.contexts && s.contexts[c].owners != {}
  }

  function LiveContexts(s: State): set<ContextId> {
    set c | c in s.contexts && IsLive(s, c)
  }

  /** The registrations that still upgrade to a strong reference, in order. */
  function Live<C(==)>(registrations: seq<C>, live: set<C>): seq<C> {
    if registrations == [] then []
    else (if registrations[0] in live then [registrations[0]] else []) + Live(registrations[1..], live)
  }

  /** Dead entries go first; a retired registry takes no new one. */
  function RegisterIn<C(==)>(r: Registry<C>, c: C, live: set<C>): Registry<C> {
    Registry(r.retired, Live(r.registrations, live) + if r.retired then [] else [c])
  }

  function RetiredRegistry<C>(): Registry<C> {
    Registry(true, [])
  }

  // ---------------------------------------------------------------------------
  // Steps
  // ---------------------------------------------------------------------------

  datatype Action =
    | CreateWaker(t: ThreadId, c: ContextId)
    | Register(t: ThreadId, h: HandleId)
    | CancelOwn(t: ThreadId, h: HandleId)
    | CloneHandle(c: ContextId, h: HandleId, copy: HandleId)
    | DropHandle(c: ContextId, h: HandleId)
    | Wake(t: ThreadId, c: ContextId, h: HandleId)
    | WakeByRef(t: ThreadId, c: ContextId, h: HandleId)
    | Fire(t: ThreadId)
    | CallbackReturns(t: ThreadId)
    | Finish(t: ThreadId)
    | Release(t: ThreadId)
    | Retire
    | UpgradeNext
    | StartCancelling
    | CancelNext
    | StartWaiting
    | WaitNext
    | CloseReturns

  predicate At(s: State, t: ThreadId) {
    t in s.threads && s.threads[t] != Idle && s.threads[t].ctx in s.contexts
  }

  predicate IsHandle(s: State, c: ContextId, h: HandleId) {
    c in s.contexts && Handle(h) in s.contexts[c].owners
  }

  predicate Enabled(s: State, a: Action) {
    match a
    case CreateWaker(t, c) => t in s.threads && s.threads[t].Idle? && c !in s.contexts
    case Register(t, _) => At(s, t) && s.threads[t].Registering? && !s.closer.Upgrading?
    case CancelOwn(t, _) => At(s, t) && s.threads[t].CancellingOwn?
    case CloneHandle(c, h, copy) => IsHandle(s, c, h) && !IsHandle(s, c, copy)
    case DropHandle(c, h) => IsHandle(s, c, h)
    case Wake(t, c, h) => t in s.threads && s.threads[t].Idle? && IsHandle(s, c, h)
    case WakeByRef(t, c, h) => t in s.threads && s.threads[t].Idle? && IsHandle(s, c, h)
    case Fire(t) => At(s, t) && s.threads[t].Waking?
    case CallbackReturns(t) => At(s, t) && s.threads[t].InCallback?
    case Finish(t) => At(s, t) && s.threads[t].Returning?
    case Release(t) => At(s, t) && s.threads[t].Releasing?
    case Retire => s.closer.Open?
    case UpgradeNext => s.closer.Upgrading? && s.closer.todo != []
    case StartCancelling => s.closer.Upgrading? && s.closer.todo == []
    case CancelNext => s.closer.Cancelling? && s.closer.todo != [] && s.closer.todo[0] in s.contexts
    case StartWaiting => s.closer.Cancelling? && s.closer.todo == []
    case WaitNext =>
      s.closer.Waiting? && s.closer.todo != [] && s.closer.todo[0] in s.contexts
      && !s.contexts[s.closer.todo[0]].flags.active
    case CloseReturns => s.closer.Waiting? && s.closer.todo == []
  }

  function Put(s: State, c: ContextId, context: Context): State {
    s.(contexts := s.contexts[c := context])
  }

  function Goto(s: State, t: ThreadId, pc: Pc): State {
    s.(threads := s.threads[t := pc])
  }

  function Own(c: Context, owners: set<Owner>): Context {
    c.(owners := owners)
  }

  /** The waker's own reference becomes the handle that is returned. */
  function Expose(c: Context, t: ThreadId, h: HandleId): Context {
    c.(owners := c.owners - {Thread(t)} + {Handle(h)}, exposed := true)
  }

  function Step(s: State, a: Action): State
    requires Enabled(s, a)
  {
    match a
    case CreateWaker(t, c) =>
      Put(Goto(s, t, Registering(c)), c, Context(Flags(false, false, false), {Thread(t)}, 0, None, false))
    case Register(t, h) =>
      var c := s.threads[t].ctx;
      var entered := s.(registry := RegisterIn(s.registry, c, LiveContexts(s)));
      if s.registry.retired then Goto(entered, t, CancellingOwn(c))
      else Put(Goto(entered, t, Idle), c, Expose(s.contexts[c], t, h))
    case CancelOwn(t, h) =>
      var c := s.threads[t].ctx;
      Put(Goto(s, t, Idle), c, Cancel(Expose(s.contexts[c], t, h)))
    case CloneHandle(c, h, copy) => Put(s, c, Own(s.contexts[c], s.contexts[c].owners + {Handle(copy)}))
    case DropHandle(c, h) => Put(s, c, Own(s.contexts[c], s.contexts[c].owners - {Handle(h)}))
    case Wake(t, c, h) =>
      Put(Goto(s, t, Waking(c)), c, Own(s.contexts[c], s.contexts[c].owners - {Handle(h)} + {Thread(t)}))
    case WakeByRef(t, c, h) =>
      Put(Goto(s, t, Waking(c)), c, Own(s.contexts[c], s.contexts[c].owners + {Thread(t)}))
    case Fire(t) =>
      var c := s.threads[t].ctx;
      Put(Goto(s, t, if Admits(s.contexts[c].flags) then InCallback(c) else Releasing(c)), c, TryFire(s.contexts[c], t))
    case CallbackReturns(t) => Goto(s, t, Returning(s.threads[t].ctx))
    case Finish(t) =>
      var c := s.threads[t].ctx;
      Put(Goto(s, t, Releasing(c)), c, Quiesce(s.contexts[c]))
    case Release(t) =>
      var c := s.threads[t].ctx;
      Put(Goto(s, t, Idle), c, Own(s.contexts[c], s.contexts[c].owners - {Thread(t)}))
    case Retire => s.(registry := RetiredRegistry(), closer := Upgrading(s.registry.registrations, []))
    case UpgradeNext =>
      var c := s.closer.todo[0];
      if IsLive(s, c)
      then Put(s, c, Own(s.contexts[c], s.contexts[c].owners + {Closing})).(
             closer := Upgrading(s.closer.todo[1..], s.closer.held + [c]))
      else s.(closer := Upgrading(s.closer.todo[1..], s.closer.held))
    case StartCancelling => s.(closer := Cancelling(s.closer.held, s.closer.held))
    case CancelNext =>
      var c := s.closer.todo[0];
      Put(s, c, Cancel(s.contexts[c])).(closer := s.closer.(todo := s.closer.todo[1..]))
    case StartWaiting => s.(closer := Waiting(s.closer.held))
    case WaitNext =>
      var c := s.closer.todo[0];
      Put(s, c, Own(s.contexts[c], s.contexts[c].owners - {Closing})).(closer := Waiting(s.closer.todo[1..]))
    case CloseReturns => s.(closer := Closed)
  }

  // ---------------------------------------------------------------------------
  // The invariant
  // ---------------------------------------------------------------------------

  predicate InBody(pc: Pc) {
    pc.InCallback? || pc.Returning?
  }

  predicate IsUnexposed(pc: Pc) {
    pc.Registering? || pc.CancellingOwn?
  }

  /** What each context knows about itself and about the thread that runs its callback. */
  ghost predicate ContextHolds(s: State, c: ContextId)
    requires c in s.contexts
  {
    var x := s.contexts[c];
    && x.entries == (if x.flags.fired then 1 else 0)
    && (x.flags.active ==> x.flags.fired)
    && (x.flags.fired ==> x.exposed)
    && (x.flags.active <==> x.runner.Some?)
    && (x.runner.Some? ==>
          x.runner.value in s.threads && InBody(s.threads[x.runner.value]) && s.threads[x.runner.value].ctx == c)
    && (!x.exposed ==> forall h :: Handle(h) !in x.owners)
  }

  /** What each thread that is not idle knows about its context. */
  ghost predicate ThreadHolds(s: State, t: ThreadId)
    requires t in s.threads
  {
    var pc := s.threads[t];
    pc != Idle ==>
      && pc.ctx in s.contexts
      && Thread(t) in s.contexts[pc.ctx].owners
      && (InBody(pc) ==> s.contexts[pc.ctx].runner == Some(t))
      && (IsUnexposed(pc) <==> !s.contexts[pc.ctx].exposed)
      && (IsUnexposed(pc) ==> s.contexts[pc.ctx].owners == {Thread(t)})
      && (pc.CancellingOwn? ==> !s.closer.Open? && !s.closer.Upgrading?)
  }

  function Held(closer: Closer): seq<ContextId> {
    match closer
    case Open => []
    case Upgrading(_, held) => held
    case Cancelling(_, held) => held
    case Waiting(todo) => todo
    case Closed => []
  }

  /** Until the registry is retired every live context is registered; then it is about to be
      upgraded, or held; and once the registry is unlocked it is cancelled or about to be, and a
      running callback is about to be waited for. */
  ghost predicate RetirementHolds(s: State, c: ContextId)
    requires c in s.contexts
  {
    var x := s.contexts[c];
    if s.closer.Open? then !x.flags.cancelled && (x.exposed && x.owners != {} ==> c in s.registry.registrations)
    else if s.closer.Upgrading? then
      !x.flags.cancelled && (x.exposed && x.owners != {} ==> c in s.closer.todo || c in s.closer.held)
    else
      && (x.exposed && x.owners != {} ==> x.flags.cancelled || (s.closer.Cancelling? && c in s.closer.todo))
      && (x.flags.active ==> c in Held(s.closer))
  }

  ghost predicate CloserHolds(s: State) {
    && (s.registry.retired <==> !s.closer.Open?)
    && (forall c | c in s.registry.registrations :: c in s.contexts && s.contexts[c].exposed)
    && (forall c | c in Held(s.closer) :: c in s.contexts)
    && (s.closer.Upgrading? ==> forall c | c in s.closer.todo :: c in s.contexts && s.contexts[c].exposed)
    && (s.closer.Cancelling? ==> forall c | c in s.closer.todo :: c in s.closer.held)
  }

  ghost predicate Inv(s: State) {
    && CloserHolds(s)
    && (forall c | c in s.contexts :: ContextHolds(s, c) && RetirementHolds(s, c))
    && (forall t | t in s.threads :: ThreadHolds(s, t))
  }

  predicate IsInitial(s: State) {
    && s.contexts == map[] && s.registry == Registry(false, []) && s.closer == Open
    && forall t | t in s.threads :: s.threads[t] == Idle
  }

  // ---------------------------------------------------------------------------
  // Every step keeps the invariant
  // ---------------------------------------------------------------------------

  lemma {:induction false} LiveAre<C>(registrations: seq<C>, live: set<C>)
    ensures forall c :: c in Live(registrations, live) <==> c in registrations && c in live
  {
    if registrations != [] { LiveAre(registrations[1..], live); }
  }

  /** They stand where they stood, none is lost and none repeated. */
  lemma {:induction false} LivePicks<C>(registrations: seq<C>, live: set<C>) returns (at: seq<int>)
    ensures Picks(registrations, Live(registrations, live), at)
    ensures forall i | 0 <= i < |registrations| :: i in at <==> registrations[i] in live
  {
    if registrations == [] {
      at := [];
    } else {
      var x, rest := registrations[0], registrations[1..];
      var later := LivePicks(rest, live);
      at := PicksHead(x, rest, Live(rest, live), later, x in live);
      assert registrations == [x] + rest;
      forall i | 0 <= i < |registrations| ensures i in at <==> registrations[i] in live {
        if i > 0 { assert rest[i - 1] == registrations[i] && (i - 1 in later <==> i - 1 + 1 in at); }
      }
    }
  }

  lemma CreateWakerKeeps(s: State, a: Action)
    requires Inv(s) && Enabled(s, a) && a.CreateWaker?
    ensures Inv(Step(s, a))
  {
  }

  lemma LateRegisterKeeps(s: State, a: Action)
    requires Inv(s) && Enabled(s, a) && a.Register? && s.registry.retired
    ensures Inv(Step(s, a))
  {
    LiveAre(s.registry.registrations, LiveContexts(s));
  }

  lemma TimelyRegisterKeeps(s: State, a: Action)
    requires Inv(s) && Enabled(s, a) && a.Register? && !s.registry.retired
    ensures Inv(Step(s, a))
  {
    LiveAre(s.registry.registrations, LiveContexts(s));
  }

  lemma CancelOwnKeeps(s: State, a: Action)
    requires Inv(s) && Enabled(s, a) && a.CancelOwn?
    ensures Inv(Step(s, a))
  {
  }

  lemma CloneHandleKeeps(s: State, a: Action)
    requires Inv(s) && Enabled(s, a) && a.CloneHandle?
    ensures Inv(Step(s, a))
  {
  }

  lemma DropHandleKeeps(s: State, a: Action)
    requires Inv(s) && Enabled(s, a) && a.DropHandle?
    ensures Inv(Step(s, a))
  {
  }

  lemma WakeKeeps(s: State, a: Action)
    requires Inv(s) && Enabled(s, a) && a.Wake?
    ensures Inv(Step(s, a))
  {
  }

  lemma WakeByRefKeeps(s: State, a: Action)
    requires Inv(s) && Enabled(s, a) && a.WakeByRef?
    ensures Inv(Step(s, a))
  {
  }

  lemma AdmittedFireKeeps(s: State, a: Action)
    requires Inv(s) && Enabled(s, a) && a.Fire? && Admits(s.contexts[s.threads[a.t].ctx].flags)
    ensures Inv(Step(s, a))
  {
  }

  lemma RefusedFireKeeps(s: State, a: Action)
    requires Inv(s) && Enabled(s, a) && a.Fire? && !Admits(s.contexts[s.threads[a.t].ctx].flags)
    ensures Inv(Step(s, a))
  {
  }

  lemma CallbackReturnsKeeps(s: State, a: Action)
    requires Inv(s) && Enabled(s, a) && a.CallbackReturns?
    ensures Inv(Step(s, a))
  {
  }

  lemma FinishKeeps(s: State, a: Action)
    requires Inv(s) && Enabled(s, a) && a.Finish?
    ensures Inv(Step(s, a))
  {
  }

  lemma ReleaseKeeps(s: State, a: Action)
    requires Inv(s) && Enabled(s, a) && a.Release?
    ensures Inv(Step(s, a))
  {
  }

  lemma RetireKeeps(s: State, a: Action)
    requires Inv(s) && Enabled(s, a) && a.Retire?
    ensures Inv(Step(s, a))
  {
  }

  lemma UpgradeNextMoves(s: State, a: Action)
    requires Inv(s) && Enabled(s, a) && a.UpgradeNext?
    ensures CloserHolds(Step(s, a))
    ensures forall c | c in s.contexts :: RetirementHolds(Step(s, a), c)
  {
    var first, rest := s.closer.todo[0], s.closer.todo[1..];
    assert s.closer.todo == [first] + rest && first in s.contexts;
    assert forall c | c in rest :: c in s.closer.todo;
    forall c | c in s.contexts ensures RetirementHolds(Step(s, a), c) {
      assert RetirementHolds(s, c);
    }
  }

  lemma UpgradeNextKeeps(s: State, a: Action)
    requires Inv(s) && Enabled(s, a) && a.UpgradeNext?
    ensures Inv(Step(s, a))
  {
    UpgradeNextMoves(s, a);
  }

  lemma StartCancellingKeeps(s: State, a: Action)
    requires Inv(s) && Enabled(s, a) && a.StartCancelling?
    ensures Inv(Step(s, a))
  {
    forall c | c in s.contexts && s.contexts[c].flags.active ensures c in s.closer.held {
      assert ContextHolds(s, c) && RetirementHolds(s, c);
      assert ThreadHolds(s, s.contexts[c].runner.value);
    }
  }

  lemma CancelNextKeeps(s: State, a: Action)
    requires Inv(s) && Enabled(s, a) && a.CancelNext?
    ensures Inv(Step(s, a))
  {
  }

  lemma WaitNextKeeps(s: State, a: Action)
    requires Inv(s) && Enabled(s, a) && a.WaitNext?
    ensures Inv(Step(s, a))
  {
  }

  lemma CloserMovesKeeps(s: State, a: Action)
    requires Inv(s) && Enabled(s, a) && (a.StartWaiting? || a.CloseReturns?)
    ensures Inv(Step(s, a))
  {
  }

  lemma StepKeeps(s: State, a: Action)
    requires Inv(s) && Enabled(s, a)
    ensures Inv(Step(s, a))
  {
    match a
    case CreateWaker(_, _) => CreateWakerKeeps(s, a);
    case Register(_, _) => if s.registry.retired { LateRegisterKeeps(s, a); } else { TimelyRegisterKeeps(s, a); }
    case CancelOwn(_, _) => CancelOwnKeeps(s, a);
    case CloneHandle(_, _, _) => CloneHandleKeeps(s, a);
    case DropHandle(_, _) => DropHandleKeeps(s, a);
    case Wake(_, _, _) => WakeKeeps(s, a);
    case WakeByRef(_, _, _) => WakeByRefKeeps(s, a);
    case Fire(t) =>
      if Admits(s.contexts[s.threads[t].ctx].flags) { AdmittedFireKeeps(s, a); } else { RefusedFireKeeps(s, a); }
    case CallbackReturns(_) => CallbackReturnsKeeps(s, a);
    case Finish(_) => FinishKeeps(s, a);
    case Release(_) => ReleaseKeeps(s, a);
    case Retire => RetireKeeps(s, a);
    case UpgradeNext => UpgradeNextKeeps(s, a);
    case StartCancelling => StartCancellingKeeps(s, a);
    case CancelNext => CancelNextKeeps(s, a);
    case StartWaiting => CloserMovesKeeps(s, a);
    case WaitNext => WaitNextKeeps(s, a);
    case CloseReturns => CloserMovesKeeps(s, a);
  }

  // ---------------------------------------------------------------------------
  // Whole runs
  // ---------------------------------------------------------------------------

  predicate IsRun(s: State, run: seq<Action>)
    decreases |run|
  {
    run == [] || (Enabled(s, run[0]) && IsRun(Step(s, run[0]), run[1..]))
  }

  function End(s: State, run: seq<Action>): State
    requires IsRun(s, run)
    decreases |run|
  {
    if run == [] then s else End(Step(s, run[0]), run[1..])
  }

  lemma {:induction false} RunKeeps(s: State, run: seq<Action>)
    requires Inv(s) && IsRun(s, run)
    ensures Inv(End(s, run))
    decreases |run|
  {
    if run != [] {
      StepKeeps(s, run[0]);
      RunKeeps(Step(s, run[0]), run[1..]);
    }
  }

  /** A waker is single-use: in no interleaving is its callback entered twice. */
  lemma CallbackAtMostOnce(s: State, run: seq<Action>)
    requires IsInitial(s) && IsRun(s, run)
    ensures var e := End(s, run);
            forall c | c in e.contexts ::
              e.contexts[c].entries <= 1 && (e.contexts[c].entries == 1 <==> e.contexts[c].flags.fired)
  {
    RunKeeps(s, run);
    var e := End(s, run);
    forall c | c in e.contexts
      ensures e.contexts[c].entries <= 1 && (e.contexts[c].entries == 1 <==> e.contexts[c].flags.fired)
    {
      assert ContextHolds(e, c);
    }
  }

  /** No wakeup is lost: until close is called, a wake enters the callback exactly when its context has
      not fired yet. */
  lemma NoWakeIsLost(s: State, run: seq<Action>, t: ThreadId)
    requires IsInitial(s) && IsRun(s, run) && End(s, run).closer.Open? && Enabled(End(s, run), Fire(t))
    ensures var e := End(s, run);
            var c := e.threads[t].ctx;
            var after := Step(e, Fire(t));
            && (after.threads[t] == InCallback(c) <==> !e.contexts[c].flags.fired)
            && after.contexts[c].entries == e.contexts[c].entries + (if e.contexts[c].flags.fired then 0 else 1)
            && after.contexts[c].flags.fired
  {
    RunKeeps(s, run);
    assert RetirementHolds(End(s, run), End(s, run).threads[t].ctx);
  }

  /** Handles are counted: a clone adds one and keeps the other, a drop and a wake by value take one
      away, and a wake by reference takes none. */
  lemma HandlesAreCounted(s: State, t: ThreadId, c: ContextId, h: HandleId, other: HandleId)
    requires IsHandle(s, c, h)
    ensures Enabled(s, CloneHandle(c, h, other)) ==>
              var e := Step(s, CloneHandle(c, h, other));
              && e.contexts[c].owners == s.contexts[c].owners + {Handle(other)} && IsHandle(e, c, h)
    ensures Enabled(s, DropHandle(c, h)) ==>
              Step(s, DropHandle(c, h)).contexts[c].owners == s.contexts[c].owners - {Handle(h)}
    ensures Enabled(s, Wake(t, c, h)) ==>
              var e := Step(s, Wake(t, c, h));
              e.contexts[c].owners == s.contexts[c].owners - {Handle(h)} + {Thread(t)} && e.threads[t] == Waking(c)
    ensures Enabled(s, WakeByRef(t, c, h)) ==>
              var e := Step(s, WakeByRef(t, c, h));
              e.contexts[c].owners == s.contexts[c].owners + {Thread(t)} && e.threads[t] == Waking(c)
  {
  }

  /** Once close has returned, each waker that can still be used is cancelled: those that were
      registered in time and those whose registration raced with the retirement or came after. */
  lemma LateRegistrationsAreCancelled(s: State, run: seq<Action>, c: ContextId)
    requires IsInitial(s) && IsRun(s, run) && End(s, run).closer.Closed?
    requires c in End(s, run).contexts && End(s, run).contexts[c].exposed && IsLive(End(s, run), c)
    ensures End(s, run).contexts[c].flags.cancelled
  {
    RunKeeps(s, run);
    assert RetirementHolds(End(s, run), c);
  }

  /** A weak entry that fails to upgrade belongs to a context that no thread is in, so there is
      nothing to cancel and nothing to wait for. */
  lemma DeadEntriesAreInert(s: State, run: seq<Action>, c: ContextId, t: ThreadId)
    requires IsInitial(s) && IsRun(s, run)
    requires c in End(s, run).contexts && !IsLive(End(s, run), c) && t in End(s, run).threads
    ensures End(s, run).threads[t] != Idle ==> End(s, run).threads[t].ctx != c
    ensures !End(s, run).contexts[c].flags.active
  {
    RunKeeps(s, run);
    var e := End(s, run);
    assert ContextHolds(e, c) && ThreadHolds(e, t);
  }

  predicate CallbackRunning(s: State) {
    exists t | t in s.threads :: InBody(s.threads[t])
  }

  lemma QuietThread(s: State, t: ThreadId)
    requires Inv(s) && s.closer.Closed? && t in s.threads
    ensures !InBody(s.threads[t])
  {
  }

  lemma QuietWhenClosed(s: State)
    requires Inv(s) && s.closer.Closed?
    ensures !CallbackRunning(s)
  {
    forall t | t in s.threads ensures !InBody(s.threads[t]) {
      QuietThread(s, t);
    }
  }

  /** `later` has entered no callback that `earlier` had not. */
  predicate NothingEntered(earlier: State, later: State) {
    forall c | c in later.contexts ::
      later.contexts[c].entries == if c in earlier.contexts then earlier.contexts[c].entries else 0
  }

  predicate StillKnown(earlier: State, later: State) {
    forall c | c in earlier.contexts :: c in later.contexts
  }

  /** After close, a wake that has not yet entered finds its context cancelled. */
  lemma LateWakeIsRefused(s: State, t: ThreadId)
    requires Inv(s) && s.closer.Closed? && Enabled(s, Fire(t))
    ensures !Admits(s.contexts[s.threads[t].ctx].flags)
  {
    assert ThreadHolds(s, t) && RetirementHolds(s, s.threads[t].ctx);
  }

  lemma StepEntersNothing(s: State, a: Action)
    requires s.closer.Closed? && Enabled(s, a)
    requires a.Fire? ==> !Admits(s.contexts[s.threads[a.t].ctx].flags)
    ensures NothingEntered(s, Step(s, a)) && StillKnown(s, Step(s, a)) && Step(s, a).closer.Closed?
  {
  }

  lemma {:induction false} RunEntersNothing(s: State, run: seq<Action>)
    requires Inv(s) && s.closer.Closed? && IsRun(s, run)
    ensures NothingEntered(s, End(s, run)) && StillKnown(s, End(s, run)) && End(s, run).closer.Closed?
    decreases |run|
  {
    if run != [] {
      StepKeeps(s, run[0]);
      if run[0].Fire? { LateWakeIsRefused(s, run[0].t); }
      StepEntersNothing(s, run[0]);
      RunEntersNothing(Step(s, run[0]), run[1..]);
    }
  }

  /** Closing is the retirement boundary: once it has returned, no callback is running, none is
      ever entered again, and this includes wakers created or registered after it. */
  lemma CloseIsTheBoundary(s: State, before: seq<Action>, after: seq<Action>)
    requires IsInitial(s) && IsRun(s, before) && End(s, before).closer.Closed? && IsRun(End(s, before), after)
    ensures !CallbackRunning(End(s, before)) && !CallbackRunning(End(End(s, before), after))
    ensures NothingEntered(End(s, before), End(End(s, before), after))
  {
    RunKeeps(s, before);
    QuietWhenClosed(End(s, before));
    RunKeeps(End(s, before), after);
    RunEntersNothing(End(s, before), after);
    QuietWhenClosed(End(End(s, before), after));
  }

  predicate IsCloseStep(a: Action) {
    a.UpgradeNext? || a.StartCancelling? || a.CancelNext? || a.StartWaiting? || a.WaitNext? || a.CloseReturns?
  }

  /** Close is held up only by a callback of the context it waits for: either it can go on, or
      the thread in that callback can. */
  lemma CloseWaitsOnlyForARunningCallback(s: State)
    requires Inv(s) && !s.closer.Open? && !s.closer.Closed?
    ensures exists a :: Enabled(s, a) &&
              (IsCloseStep(a) ||
               ((a.CallbackReturns? || a.Finish?) && s.closer.Waiting? && s.closer.todo != []
                && a.t in s.threads && s.threads[a.t] != Idle && s.threads[a.t].ctx == s.closer.todo[0]))
  {
    if s.closer.Upgrading? {
      assert Enabled(s, if s.closer.todo == [] then StartCancelling else UpgradeNext);
    } else if s.closer.Cancelling? {
      assert Enabled(s, if s.closer.todo == [] then StartWaiting else CancelNext);
    } else if s.closer.todo == [] {
      assert Enabled(s, CloseReturns);
    } else {
      var c := s.closer.todo[0];
      assert c in Held(s.closer);
      assert ContextHolds(s, c);
      if s.contexts[c].flags.active {
        var t := s.contexts[c].runner.value;
        assert Enabled(s, if s.threads[t].InCallback? then CallbackReturns(t) else Finish(t));
      } else {
        assert Enabled(s, WaitNext);
      }
    }
  }

  /** The second critical section of a wake is what close waits for: just before it close cannot
      pass this context, just after it close can. */
  lemma FinishReleasesClose(s: State, t: ThreadId)
    requires Inv(s) && Enabled(s, Finish(t))
    requires s.closer.Waiting? && s.closer.todo != [] && s.closer.todo[0] == s.threads[t].ctx
    ensures !Enabled(s, WaitNext) && Enabled(Step(s, Finish(t)), WaitNext)
  {
    assert ThreadHolds(s, t) && ContextHolds(s, s.threads[t].ctx);
  }

  // ---------------------------------------------------------------------------
  // Operations that nobody interrupts
  // ---------------------------------------------------------------------------

  lemma RunHead(s: State, a: Action, rest: seq<Action>)
    requires Enabled(s, a) && IsRun(Step(s, a), rest)
    ensures IsRun(s, [a] + rest) && End(s, [a] + rest) == End(Step(s, a), rest)
  {
    assert ([a] + rest)[1..] == rest;
  }

  lemma {:induction false} RunsCompose(s: State, a: seq<Action>, b: seq<Action>)
    requires IsRun(s, a) && IsRun(End(s, a), b)
    ensures IsRun(s, a + b) && End(s, a + b) == End(End(s, a), b)
    decreases |a|
  {
    if a == [] {
      assert a + b == b;
    } else {
      assert (a + b)[1..] == a[1..] + b;
      RunsCompose(Step(s, a[0]), a[1..], b);
    }
  }

  /** What `wake_once` does to the flags of its context. */
  function WakeFlags(f: Flags): Flags {
    if Admits(f) then EndWakeFlags(BeginWakeFlags(f)) else f
  }

  /** The context after a whole `wake_once`. */
  predicate HasWoken(s: State, e: State, c: ContextId)
    requires c in s.contexts
  {
    && c in e.contexts && e.contexts[c].flags == WakeFlags(s.contexts[c].flags)
    && e.contexts[c].entries == s.contexts[c].entries + if Admits(s.contexts[c].flags) then 1 else 0
  }

  lemma AdmittedWakeAlone(s: State, t: ThreadId)
    requires Enabled(s, Fire(t)) && Admits(s.contexts[s.threads[t].ctx].flags)
    ensures var s1 := Step(s, Fire(t));
            Enabled(s1, CallbackReturns(t)) &&
            var s2 := Step(s1, CallbackReturns(t));
            Enabled(s2, Finish(t)) && HasWoken(s, Step(s2, Finish(t)), s.threads[t].ctx)
  {
  }

  /** The steps of one `wake_once`: the callback is entered once or not at all. */
  lemma WakeAlone(s: State, t: ThreadId) returns (run: seq<Action>)
    requires Enabled(s, Fire(t))
    ensures IsRun(s, run) && HasWoken(s, End(s, run), s.threads[t].ctx)
  {
    var s1 := Step(s, Fire(t));
    if Admits(s.contexts[s.threads[t].ctx].flags) {
      AdmittedWakeAlone(s, t);
      var s2 := Step(s1, CallbackReturns(t));
      RunHead(s2, Finish(t), []);
      RunHead(s1, CallbackReturns(t), [Finish(t)] + []);
      run := [Fire(t)] + ([CallbackReturns(t)] + ([Finish(t)] + []));
      RunHead(s, Fire(t), [CallbackReturns(t)] + ([Finish(t)] + []));
    } else {
      run := [Fire(t)] + [];
      RunHead(s, Fire(t), []);
    }
  }

  /** `e` differs from `s` in its closer, in references of the closing thread and, for the contexts
      in `cancelled`, in that flag. */
  predicate HasMoved(s: State, e: State, closer: Closer, cancelled: seq<ContextId>) {
    && e.registry == s.registry && e.closer == closer && e.contexts.Keys == s.contexts.Keys
    && forall c | c in s.contexts ::
         e.contexts[c].flags == if c in cancelled then CancelFlags(s.contexts[c].flags) else s.contexts[c].flags
  }

  lemma UpgradeKeepsLive(s: State)
    requires Enabled(s, UpgradeNext)
    ensures LiveContexts(Step(s, UpgradeNext)) == LiveContexts(s)
  {
    var next := Step(s, UpgradeNext);
    forall c ensures IsLive(next, c) <==> IsLive(s, c) {
    }
  }

  lemma UpgradeMoves(s: State)
    requires Enabled(s, UpgradeNext)
    ensures HasMoved(s, Step(s, UpgradeNext), Step(s, UpgradeNext).closer, [])
  {
  }

  lemma UpgradeHolds(s: State)
    requires Enabled(s, UpgradeNext)
    ensures var next := Step(s, UpgradeNext).closer;
            && next.Upgrading? && next.todo == s.closer.todo[1..]
            && next.held + Live(next.todo, LiveContexts(s)) == s.closer.held + Live(s.closer.todo, LiveContexts(s))
  {
    var first, rest := s.closer.todo[0], s.closer.todo[1..];
    if IsLive(s, first) {
      assert (s.closer.held + [first]) + Live(rest, LiveContexts(s))
          == s.closer.held + ([first] + Live(rest, LiveContexts(s)));
    } else {
      assert [] + Live(rest, LiveContexts(s)) == Live(rest, LiveContexts(s));
    }
  }

  lemma {:induction false} UpgradingAlone(s: State) returns (run: seq<Action>)
    requires s.closer.Upgrading?
    ensures IsRun(s, run) && forall a | a in run :: a.UpgradeNext?
    ensures HasMoved(s, End(s, run), Upgrading([], s.closer.held + Live(s.closer.todo, LiveContexts(s))), [])
    decreases |s.closer.todo|
  {
    if s.closer.todo == [] {
      run := [];
    } else {
      UpgradeKeepsLive(s);
      UpgradeMoves(s);
      UpgradeHolds(s);
      var rest := UpgradingAlone(Step(s, UpgradeNext));
      run := [UpgradeNext] + rest;
      RunHead(s, UpgradeNext, rest);
    }
  }

  lemma CancelOne(s: State)
    requires s.closer.Cancelling? && s.closer.todo != [] && s.closer.todo[0] in s.contexts
    ensures HasMoved(s, Step(s, CancelNext), Cancelling(s.closer.todo[1..], s.closer.held), s.closer.todo[..1])
  {
  }

  lemma {:induction false} CancellingAlone(s: State) returns (run: seq<Action>)
    requires s.closer.Cancelling? && forall c | c in s.closer.todo :: c in s.contexts
    ensures IsRun(s, run) && forall a | a in run :: a.CancelNext?
    ensures HasMoved(s, End(s, run), Cancelling([], s.closer.held), s.closer.todo)
    decreases |s.closer.todo|
  {
    if s.closer.todo == [] {
      run := [];
    } else {
      assert s.closer.todo == s.closer.todo[..1] + s.closer.todo[1..];
      assert s.closer.todo[0] in s.contexts;
      CancelOne(s);
      var rest := CancellingAlone(Step(s, CancelNext));
      run := [CancelNext] + rest;
      RunHead(s, CancelNext, rest);
    }
  }

  /** The steps of `retire_and_wait` up to the waiting: every registration that still upgrades is
      cancelled, no other context is touched, and the registry is retired and empty. */
  lemma RetirementAlone(s: State) returns (run: seq<Action>)
    requires Enabled(s, Retire) && forall c | c in s.registry.registrations :: c in s.contexts
    ensures IsRun(s, run) && forall a | a in run :: a.Retire? || IsCloseStep(a)
    ensures var held := Live(s.registry.registrations, LiveContexts(s));
            HasMoved(s.(registry := RetiredRegistry()), End(s, run), Cancelling([], held), held)
  {
    var held := Live(s.registry.registrations, LiveContexts(s));
    LiveAre(s.registry.registrations, LiveContexts(s));
    var s1 := Step(s, Retire);
    assert LiveContexts(s1) == LiveContexts(s) && [] + held == held;
    var upgrades := UpgradingAlone(s1);
    var s2 := End(s1, upgrades);
    var s3 := Step(s2, StartCancelling);
    var cancels := CancellingAlone(s3);
    RunHead(s2, StartCancelling, cancels);
    RunsCompose(s1, upgrades, [StartCancelling] + cancels);
    RunHead(s, Retire, upgrades + ([StartCancelling] + cancels));
    run := [Retire] + (upgrades + ([StartCancelling] + cancels));
  }

  // ---------------------------------------------------------------------------
  // The objects behind the steps: their contracts are the functions that the steps use
  // ---------------------------------------------------------------------------

  class CWakerContext {
    var fired: bool
    var cancelled: bool
    var active: bool

    constructor ()
      ensures View() == Flags(false, false, false)
    {
      fired, cancelled, active := false, false, false;
    }

    function View(): Flags
      reads this
    {
      Flags(fired, cancelled, active)
    }

    method BeginWake() returns (admitted: bool)
      modifies this
      ensures admitted == Admits(old(View())) && View() == BeginWakeFlags(old(View()))
      ensures admitted <==> !old(cancelled) && !old(fired)
      ensures fired == (old(fired) || admitted) && active == (old(active) || admitted) && cancelled == old(cancelled)
    {
      if cancelled || fired { return false; }
      fired := true;
      active := true;
      return true;
    }

    method EndWake()
      modifies this
      ensures View() == EndWakeFlags(old(View()))
      ensures !active && fired == old(fired) && cancelled == old(cancelled)
    {
      active := false;
    }

    /** A whole wake that nobody interrupts; the callback runs between the two sections. */
    method WakeOnce() returns (entered: bool)
      modifies this
      ensures entered == Admits(old(View())) && View() == WakeFlags(old(View()))
      ensures entered <==> !old(cancelled) && !old(fired)
      ensures fired || cancelled
      ensures fired == (old(fired) || entered) && cancelled == old(cancelled) && active == (old(active) && !entered)
    {
      entered := BeginWake();
      if entered { EndWake(); }
    }

    method MarkCancelled()
      modifies this
      ensures View() == CancelFlags(old(View()))
      ensures cancelled && fired == old(fired) && active == old(active)
    {
      cancelled := true;
    }
  }

  lemma {:induction false} LiveOfPrefix<C>(registrations: seq<C>, i: nat, live: set<C>)
    requires i < |registrations|
    ensures Live(registrations[..i + 1], live) ==
            Live(registrations[..i], live) + (if registrations[i] in live then [registrations[i]] else [])
  {
    if i > 0 {
      assert registrations[..i + 1][1..] == registrations[1..][..i];
      assert registrations[..i][1..] == registrations[1..][..i - 1];
      LiveOfPrefix(registrations[1..], i - 1, live);
    } else {
      assert registrations[..1][1..] == [];
    }
  }

  /** `live` are the contexts that some strong reference still keeps. */
  class PollWakerRegistry {
    var retired: bool
    var registrations: seq<CWakerContext>

    constructor ()
      ensures View() == Registry(false, [])
    {
      retired, registrations := false, [];
    }

    function View(): Registry<CWakerContext>
      reads this
    {
      Registry(retired, registrations)
    }

    /** The weak entries that upgrade, in order. */
    method Upgrade(live: set<CWakerContext>) returns (kept: seq<CWakerContext>)
      ensures kept == Live(registrations, live)
      ensures exists at ::
                && Picks(registrations, kept, at)
                && forall i | 0 <= i < |registrations| :: i in at <==> registrations[i] in live
    {
      kept := [];
      for i := 0 to |registrations|
        invariant kept == Live(registrations[..i], live)
      {
        LiveOfPrefix(registrations, i, live);
        if registrations[i] in live { kept := kept + [registrations[i]]; }
      }
      assert registrations[..|registrations|] == registrations;
      ghost var at := LivePicks(registrations, live);
    }

    /** A registration that comes too late is cancelled. */
    method Register(registration: CWakerContext, live: set<CWakerContext>)
      modifies this, registration
      ensures View() == RegisterIn(old(View()), registration, live)
      ensures retired == old(retired)
      ensures exists at, kept ::
                && Picks(old(registrations), kept, at)
                && (forall i | 0 <= i < |old(registrations)| :: i in at <==> old(registrations)[i] in live)
                && registrations == if retired then kept else kept + [registration]
      ensures registration.View() ==
              if retired then CancelFlags(old(registration.View())) else old(registration.View())
    {
      registrations := Upgrade(live);
      if retired {
        registration.MarkCancelled();
      } else {
        registrations := registrations + [registration];
      }
    }

    /** Retirement up to the waiting: everything that upgrades is cancelled before any wait. */
    method RetireAndCancel(live: set<CWakerContext>) returns (drained: seq<CWakerContext>)
      modifies this, set c | c in registrations
      ensures View() == RetiredRegistry() && drained == Live(old(registrations), live)
      ensures retired && registrations == []
      ensures exists at ::
                && Picks(old(registrations), drained, at)
                && forall i | 0 <= i < |old(registrations)| :: i in at <==> old(registrations)[i] in live
      ensures forall c | c in old(registrations) ::
                c.View() == if c in drained then CancelFlags(old(c.View())) else old(c.View())
    {
      retired := true;
      drained := Upgrade(live);
      LiveAre(registrations, live);
      registrations := [];
      CancelAll(drained);
    }
  }

  method CancelAll(contexts: seq<CWakerContext>)
    modifies set c | c in contexts
    ensures forall c | c in contexts :: c.View() == CancelFlags(old(c.View()))
  {
    for i := 0 to |contexts|
      invariant forall c | c in contexts[..i] :: c.View() == CancelFlags(old(c.View()))
      invariant forall c | c in contexts && c !in contexts[..i] :: c.View() == old(c.View())
    {
      assert contexts[i] in contexts && contexts[..i + 1] == contexts[..i] + [contexts[i]];
      contexts[i].MarkCancelled();
    }
    assert contexts[..|contexts|] == contexts;
  }
}
