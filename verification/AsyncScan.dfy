/** Completion of asynchronous scans (src/scanner.rs) and its delivery by the dispatcher
    (src/async_dispatcher.rs). */
module AsyncScan {
  import opened Common

  type ScanId = nat
  type ThreadId = nat
  type HandleId = nat

  datatype ErrorCode = InvalidArgument | PanicCode | Upstream(code: nat)

  datatype ErrorInfo = ErrorInfo(code: ErrorCode, text: string)

  /** A completion: its status, and the error that travels with it. */
  datatype Message = Message(status: int, error: Option<ErrorInfo>)

  const STREAM_READY: Message := Message(0, None)

  function FailureMessage(e: ErrorInfo): Message {
    Message(-1, Some(e))
  }

  // ---------------------------------------------------------------------------
  // One scan: which completions it dispatches
  // ---------------------------------------------------------------------------

  /** A Lance error may wrap foreign code that panics, with some text, while it is formatted or
      dropped. `code` is any but that of a panic, which no Lance error maps to. */
  datatype LanceError = LanceError(code: nat, text: string, displayPanic: Option<string>, dropPanic: Option<string>)

  /** A panic with its text; `cleanupPanics` says that it unwinds over a value, such as the built
      scanner or the opened stream, whose destructor panics in its turn. */
  datatype Panic = Panic(text: string, cleanupPanics: bool)

  datatype Attempt = Works | Fails(error: LanceError) | Panics(panic: Panic)

  /** What happens to one call: at validation, when the scanner is built, when the runtime is
      reached and a Tokio task spawned, when that opens the stream and when it exports it. */
  datatype Fate = Fate(
    nullScanner: bool, poisoned: bool, build: Attempt, runtimePanic: Option<Panic>, open: Attempt,
    exportPanic: Option<Panic>)

  /** How a piece of code ends: normally or by a panic, after having dispatched `sent`, or by the
      abort of the process that a second panic during unwinding is. */
  datatype Flow = Finished(sent: seq<Message>) | Unwinding(sent: seq<Message>, text: string) | Aborted

  function Unwind(p: Panic): Flow {
    if p.cleanupPanics then Aborted else Unwinding([], p.text)
  }

  function Report(e: LanceError): Message {
    FailureMessage(ErrorInfo(Upstream(e.code), e.text))
  }

  /** Formats an error, dispatches it, and drops it. */
  function ReportError(e: LanceError): Flow {
    if e.displayPanic.Some? then Unwind(Panic(e.displayPanic.value, e.dropPanic.Some?))
    else if e.dropPanic.Some? then Unwinding([Report(e)], e.dropPanic.value)
    else Finished([Report(e)])
  }

  function Spawns(f: Fate): bool {
    !f.nullScanner && !f.poisoned && f.build.Works? && f.runtimePanic.None?
  }

  function Setup(f: Fate): Flow {
    if f.nullScanner then Finished([FailureMessage(ErrorInfo(InvalidArgument, "scanner is NULL"))])
    else if f.poisoned then Finished([FailureMessage(ErrorInfo(PanicCode, "scanner is poisoned by an earlier panic"))])
    else
      match f.build
      case Panics(p) => Unwind(p)
      case Fails(e) => ReportError(e)
      case Works => if f.runtimePanic.Some? then Unwind(f.runtimePanic.value) else Finished([])
  }

  function Task(f: Fate): Flow {
    match f.open
    case Panics(p) => Unwind(p)
    case Fails(e) => ReportError(e)
    case Works => if f.exportPanic.Some? then Unwind(f.exportPanic.value) else Finished([STREAM_READY])
  }

  /** The report of a caught panic; the payload's text is escaped first. */
  function PanicReport(text: string): Message {
    FailureMessage(ErrorInfo(PanicCode, "panic in FFI call: " + Sanitize(text)))
  }

  function Sent(flow: Flow): seq<Message> {
    if flow.Aborted? then [] else flow.sent
  }

  /** `catch_unwind` followed by the report of the panic; both the entry point and the
      spawned body end in one. */
  function CaughtBy(flow: Flow): seq<Message> {
    Sent(flow) + if flow.Unwinding? then [PanicReport(flow.text)] else []
  }

  function TaskCompletions(f: Fate): seq<Message> {
    if Spawns(f) then CaughtBy(Task(f)) else []
  }

  function Completions(f: Fate): seq<Message> {
    CaughtBy(Setup(f)) + TaskCompletions(f)
  }

  /** The error value that the call gets to report, if there is one. */
  function ReportedError(f: Fate): Option<LanceError> {
    if f.nullScanner || f.poisoned then None
    else if f.build.Fails? then Some(f.build.error)
    else if Spawns(f) && f.open.Fails? then Some(f.open.error)
    else None
  }

  /** The panic that the call meets on its own, before there is anything to report. */
  function PanicMet(f: Fate): Option<Panic> {
    if f.nullScanner || f.poisoned then None
    else
      match f.build
      case Panics(p) => Some(p)
      case Fails(_) => None
      case Works =>
        if f.runtimePanic.Some? then f.runtimePanic
        else match f.open case Panics(p) => Some(p) case Fails(_) => None case Works => f.exportPanic
  }

  predicate DropsCleanly(f: Fate) {
    && (ReportedError(f).Some? ==> ReportedError(f).value.dropPanic.None?)
    && (PanicMet(f).Some? ==> !PanicMet(f).value.cleanupPanics)
  }

  /** Some destructor panics while another panic unwinds: a process that does this aborts. */
  predicate Aborts(f: Fate) {
    || (ReportedError(f).Some? && ReportedError(f).value.displayPanic.Some? && ReportedError(f).value.dropPanic.Some?)
    || (PanicMet(f).Some? && PanicMet(f).value.cleanupPanics)
  }

  predicate ReportsAndPanics(f: Fate) {
    ReportedError(f).Some? && ReportedError(f).value.displayPanic.None? && ReportedError(f).value.dropPanic.Some?
  }

  lemma CompletionsByStage(f: Fate)
    ensures Spawns(f) ==> Completions(f) == CaughtBy(Task(f))
    ensures !Spawns(f) ==> Completions(f) == CaughtBy(Setup(f))
  {
    if Spawns(f) {
      assert CaughtBy(Setup(f)) == [];
      assert [] + CaughtBy(Task(f)) == CaughtBy(Task(f));
    } else {
      assert CaughtBy(Setup(f)) + [] == CaughtBy(Setup(f));
    }
  }

  /** A call completes exactly once however it fails or panics, if and only if no destructor panics:
      neither that of the error it has to report nor one that a panic unwinds over. It completes twice
      when the reported error is dropped, inside the guard, after its completion was dispatched; and
      not at all when the destructor panics during unwinding, which aborts the process. */
  lemma CompletesExactlyOnce(f: Fate)
    ensures |Completions(f)| == 1 <==> DropsCleanly(f)
    ensures |Completions(f)| == 0 <==> Aborts(f)
    ensures |Completions(f)| == 2 <==> ReportsAndPanics(f)
    ensures Completions(f) == [STREAM_READY] <==> Spawns(f) && f.open.Works? && f.exportPanic.None?
  {
    CompletionsByStage(f);
    if !(Spawns(f) && f.open.Works? && f.exportPanic.None?) {
      assert STREAM_READY !in Completions(f) && STREAM_READY in [STREAM_READY];
    }
  }

  /** The status says success exactly when no error travels along, and is -1 otherwise. */
  predicate IsConsistent(m: Message) {
    if m.error.None? then m.status == 0 else m.status == -1
  }

  /** The completion reports this code and this text. */
  predicate Tells(m: Message, code: ErrorCode, text: string) {
    m.status == -1 && m.error == Some(ErrorInfo(code, text))
  }

  /** What the completions of a call tell its host. */
  lemma CompletionsTell(f: Fate)
    ensures forall m | m in Completions(f) :: IsConsistent(m)
    ensures f.nullScanner ==> |Completions(f)| == 1 && Tells(Completions(f)[0], InvalidArgument, "scanner is NULL")
    ensures !f.nullScanner && f.poisoned ==>
              |Completions(f)| == 1 && Tells(Completions(f)[0], PanicCode, "scanner is poisoned by an earlier panic")
    ensures ReportedError(f).Some? ==>
              var e := ReportedError(f).value;
              && (e.displayPanic.None? ==> Completions(f) != [] && Tells(Completions(f)[0], Upstream(e.code), e.text))
              && (e.displayPanic.None? && e.dropPanic.Some? ==>
                    && |Completions(f)| == 2
                    && Tells(Completions(f)[1], PanicCode, "panic in FFI call: " + Sanitize(e.dropPanic.value)))
              && (e.displayPanic.Some? && e.dropPanic.None? ==>
                    && |Completions(f)| == 1
                    && Tells(Completions(f)[0], PanicCode, "panic in FFI call: " + Sanitize(e.displayPanic.value)))
    ensures PanicMet(f).Some? && !PanicMet(f).value.cleanupPanics ==>
              && |Completions(f)| == 1
              && Tells(Completions(f)[0], PanicCode, "panic in FFI call: " + Sanitize(PanicMet(f).value.text))
  {
    CompletionsByStage(f);
  }

  /** A call that gets past validation reports the first thing that goes wrong. */
  lemma FirstFailureIsReported(f: Fate)
    requires !f.nullScanner && !f.poisoned
    ensures f.build.Fails? ==> ReportedError(f) == Some(f.build.error)
    ensures f.build.Panics? ==> PanicMet(f) == Some(f.build.panic)
    ensures f.build.Works? && f.runtimePanic.Some? ==> PanicMet(f) == f.runtimePanic && ReportedError(f) == None
    ensures f.build.Works? && f.runtimePanic.None? && f.open.Fails? ==> ReportedError(f) == Some(f.open.error)
    ensures f.build.Works? && f.runtimePanic.None? && f.open.Panics? ==> PanicMet(f) == Some(f.open.panic)
    ensures f.build.Works? && f.runtimePanic.None? && f.open.Works? ==>
              PanicMet(f) == f.exportPanic && ReportedError(f) == None
    ensures f.build.Works? && f.runtimePanic.None? && f.open.Works? && f.exportPanic.None? ==>
              Completions(f) == [Message(0, None)]
  {
    CompletionsByStage(f);
  }

  /** The failing families are not empty: this call completes twice, */
  lemma PanickingDestructorCompletesTwice()
    ensures var e := LanceError(7, "open failed", None, Some("in drop"));
            var f := Fate(false, false, Works, None, Fails(e), None);
            Completions(f) == [Report(e), PanicReport("in drop")]
  {
    var e := LanceError(7, "open failed", None, Some("in drop"));
    var f := Fate(false, false, Works, None, Fails(e), None);
    CompletionsByStage(f);
    assert Task(f) == Unwinding([Report(e)], "in drop");
  }

  /** and this one, whose export panics over a stream with a panicking destructor, never does. */
  lemma PanickingStreamNeverCompletes()
    ensures var f := Fate(false, false, Works, None, Works, Some(Panic("schema cannot be exported", true)));
            Completions(f) == [] && Task(f) == Aborted
  {
    CompletionsByStage(Fate(false, false, Works, None, Works, Some(Panic("schema cannot be exported", true))));
  }

  // ---------------------------------------------------------------------------
  // Deliveries by any number of threads, interleaved with everything else
  // ---------------------------------------------------------------------------

  /** One callback as its host sees it on entry. */
  datatype Entry = Entry(message: Message, slotAtEntry: Option<ErrorInfo>)

  /** What a delivery writes to the error slot of its thread: this error with its NULs escaped, as C
      will read it, or nothing. */
  function InstallSlot(m: Message): Option<ErrorInfo> {
    if m.error.Some? then Some(ErrorInfo(m.error.value.code, Sanitize(m.error.value.text))) else None
  }

  /** The slot says what the message says, up to its NULs. */
  lemma SlotIsFaithful(m: Message)
    ensures InstallSlot(m).Some? <==> m.error.Some?
    ensures m.error.Some? ==>
              && InstallSlot(m).value.code == m.error.value.code && '\0' !in InstallSlot(m).value.text
              && (InstallSlot(m) == m.error <==> '\0' !in m.error.value.text)
  {
    if m.error.Some? { SanitizedHasNoNul(m.error.value.text); }
  }

  /** The callback is entered with whatever the slot holds at that time. */
  function EnterCallback(m: Message, slot: Option<ErrorInfo>): Entry {
    Entry(m, slot)
  }

  /** Where a scan is: its body spawned and not ended, a panic caught, the handle poisoned because of
      it, or neither. */
  datatype Phase = Waiting | Caught(text: string) | Stored(text: string) | Done

  /** `outbox` holds completions that some thread is about to dispatch. */
  datatype Scan = Scan(fate: Fate, handle: HandleId, outbox: seq<Message>, phase: Phase)

  function PhaseAfter(flow: Flow, spawned: bool): Phase {
    if flow.Unwinding? then Caught(flow.text) else if spawned then Waiting else Done
  }

  datatype Envelope = Envelope(scan: ScanId, message: Message)

  /** A message that a thread has begun to deliver, and whether it has written the slot yet. */
  datatype Hand = Hand(thread: ThreadId, envelope: Envelope, installed: bool)

  datatype Delivery = Delivery(scan: ScanId, thread: ThreadId, entry: Entry)

  /** `running` are the callbacks in progress, thread by thread, the innermost last; `log` are all
      entries into callbacks so far; `poisoned` are the scanner handles with their poison flag set;
      `halted` is the state after an abort of the process. */
  datatype State = State(
    scans: map<ScanId, Scan>, queue: seq<Envelope>, hands: seq<Hand>, running: map<ThreadId, seq<Envelope>>,
    slots: map<ThreadId, Option<ErrorInfo>>, log: seq<Delivery>, poisoned: set<HandleId>, halted: bool)

  const DISPATCHER: ThreadId := 0

  function SlotOf(s: State, t: ThreadId): Option<ErrorInfo> {
    if t in s.slots then s.slots[t] else None
  }

  function StackOf(s: State, t: ThreadId): seq<Envelope> {
    if t in s.running then s.running[t] else []
  }

  /** The thread is not in the middle of a delivery: it runs other code, perhaps inside a callback. */
  predicate IsFree(s: State, t: ThreadId) {
    forall h | h in s.hands :: h.thread != t
  }

  /** `OtherCall` is any other code of a thread, which may leave anything in the slot of that thread:
      a failing call of the library, inside a callback or not. `OtherPanic` is a panic caught in any
      other operation on the handle. */
  datatype Action =
    | Start(scan: ScanId, handle: HandleId, fate: Fate)
    | RunTask(scan: ScanId)
    | StorePoison(scan: ScanId)
    | ReportPanic(scan: ScanId)
    | Send(scan: ScanId)
    | FallBack(scan: ScanId, thread: ThreadId)
    | Receive
    | Install(hand: nat)
    | Enter(hand: nat)
    | Return(thread: ThreadId, unwinds: bool)
    | OtherCall(thread: ThreadId, leaves: Option<ErrorInfo>)
    | OtherPanic(handle: HandleId)

  predicate Enabled(s: State, a: Action) {
    !s.halted &&
    match a
    case Start(scan, handle, fate) =>
      scan !in s.scans && (fate.nullScanner || (fate.poisoned <==> handle in s.poisoned))
    case RunTask(scan) => scan in s.scans && s.scans[scan].phase.Waiting?
    case StorePoison(scan) => scan in s.scans && s.scans[scan].phase.Caught?
    case ReportPanic(scan) => scan in s.scans && s.scans[scan].phase.Stored?
    case Send(scan) => scan in s.scans && s.scans[scan].outbox != []
    case FallBack(scan, thread) => scan in s.scans && s.scans[scan].outbox != [] && IsFree(s, thread)
    case Receive => s.queue != [] && IsFree(s, DISPATCHER) && StackOf(s, DISPATCHER) == []
    case Install(i) => i < |s.hands| && !s.hands[i].installed
    case Enter(i) => i < |s.hands| && s.hands[i].installed
    case Return(thread, _) => IsFree(s, thread) && StackOf(s, thread) != []
    case OtherCall(thread, _) => IsFree(s, thread)
    case OtherPanic(_) => true
  }

  /** The next completion of the scan leaves its outbox. */
  function TakeFrom(s: State, scan: ScanId): State
    requires scan in s.scans && s.scans[scan].outbox != []
  {
    var x := s.scans[scan];
    s.(scans := s.scans[scan := x.(outbox := x.outbox[1..])])
  }

  function Without<T>(s: seq<T>, i: nat): seq<T>
    requires i < |s|
  {
    s[..i] + s[i + 1..]
  }

  function Step(s: State, a: Action): State
    requires Enabled(s, a)
  {
    match a
    case Start(scan, handle, fate) =>
      var flow := Setup(fate);
      s.(scans := s.scans[scan := Scan(fate, handle, Sent(flow), PhaseAfter(flow, Spawns(fate)))],
         halted := flow.Aborted?)
    case RunTask(scan) =>
      var x := s.scans[scan];
      var flow := Task(x.fate);
      s.(scans := s.scans[scan := x.(outbox := x.outbox + Sent(flow), phase := PhaseAfter(flow, false))],
         halted := flow.Aborted?)
    case StorePoison(scan) =>
      var x := s.scans[scan];
      s.(scans := s.scans[scan := x.(phase := Stored(x.phase.text))], poisoned := s.poisoned + {x.handle})
    case ReportPanic(scan) =>
      var x := s.scans[scan];
      s.(scans := s.scans[scan := x.(outbox := x.outbox + [PanicReport(x.phase.text)], phase := Done)])
    case Send(scan) =>
      TakeFrom(s, scan).(queue := s.queue + [Envelope(scan, s.scans[scan].outbox[0])])
    case FallBack(scan, thread) =>
      TakeFrom(s, scan).(hands := s.hands + [Hand(thread, Envelope(scan, s.scans[scan].outbox[0]), false)])
    case Receive => s.(queue := s.queue[1..], hands := s.hands + [Hand(DISPATCHER, s.queue[0], false)])
    case Install(i) =>
      var h := s.hands[i];
      s.(hands := s.hands[i := h.(installed := true)], slots := s.slots[h.thread := InstallSlot(h.envelope.message)])
    case Enter(i) =>
      var h := s.hands[i];
      var entry := EnterCallback(h.envelope.message, SlotOf(s, h.thread));
      s.(hands := Without(s.hands, i), running := s.running[h.thread := StackOf(s, h.thread) + [h.envelope]],
         log := s.log + [Delivery(h.envelope.scan, h.thread, entry)])
    case Return(thread, _) =>
      s.(running := s.running[thread := StackOf(s, thread)[..|StackOf(s, thread)| - 1]])
    case OtherCall(thread, leaves) => s.(slots := s.slots[thread := leaves])
    case OtherPanic(handle) => s.(poisoned := s.poisoned + {handle})
  }

  // ---------------------------------------------------------------------------
  // The slot of the thread holds this completion's error
  // ---------------------------------------------------------------------------

  /** No thread delivers two messages at a time, a written slot stays as it was written until the
      callback is entered, and every callback so far was entered with its own error. */
  predicate SlotsHold(s: State) {
    && (forall i, j | 0 <= i < j < |s.hands| :: s.hands[i].thread != s.hands[j].thread)
    && (forall h | h in s.hands && h.installed :: SlotOf(s, h.thread) == InstallSlot(h.envelope.message))
    && (forall d | d in s.log :: d.entry.slotAtEntry == InstallSlot(d.entry.message))
  }

  lemma BeginDeliveryKeepsSlots(s: State, a: Action)
    requires SlotsHold(s) && Enabled(s, a) && (a.FallBack? || a.Receive?)
    ensures SlotsHold(Step(s, a))
  {
    var hand := Step(s, a).hands[|s.hands|];
    assert Step(s, a).hands == s.hands + [hand] && !hand.installed && IsFree(s, hand.thread);
    forall i | 0 <= i < |s.hands| ensures s.hands[i].thread != hand.thread { assert s.hands[i] in s.hands; }
  }

  lemma InstallKeepsSlots(s: State, i: nat)
    requires SlotsHold(s) && Enabled(s, Install(i))
    ensures SlotsHold(Step(s, Install(i)))
  {
    var after := Step(s, Install(i));
    forall h | h in after.hands && h.installed ensures SlotOf(after, h.thread) == InstallSlot(h.envelope.message) {
      var j :| 0 <= j < |after.hands| && after.hands[j] == h;
      if j != i {
        assert s.hands[j] in s.hands && s.hands[j] == h;
        assert h.thread != s.hands[i].thread;
      }
    }
  }

  lemma EnterKeepsSlots(s: State, i: nat)
    requires SlotsHold(s) && Enabled(s, Enter(i))
    ensures SlotsHold(Step(s, Enter(i)))
  {
    var after := Step(s, Enter(i));
    assert s.hands[i] in s.hands;
    forall h | h in after.hands ensures h in s.hands { assert h in s.hands[..i] || h in s.hands[i + 1..]; }
  }

  lemma StepKeepsSlots(s: State, a: Action)
    requires SlotsHold(s) && Enabled(s, a)
    ensures SlotsHold(Step(s, a))
  {
    match a
    case FallBack(_, _) => BeginDeliveryKeepsSlots(s, a);
    case Receive => BeginDeliveryKeepsSlots(s, a);
    case Install(i) => InstallKeepsSlots(s, i);
    case Enter(i) => EnterKeepsSlots(s, i);
    case _ =>
  }

  predicate IsRun(s: State, run: seq<Action>)
    decreases |run|
  {
    run == [] || (Enabled(s, run[0]) && IsRun(Step(s, run[0]), run[1..]))
  }

  function End(s: State, run: seq<Action>): State
    requires IsRun(s, run)
    decreases |run|
  {
    if run == [] then s else End(Step(s, run[0]), run[1..])
  }

  /** Nothing is under way; the slots may hold anything. */
  predicate IsInitial(s: State) {
    s.scans == map[] && s.queue == [] && s.hands == [] && s.running == map[] && s.log == []
  }

  lemma {:induction false} RunKeepsSlots(s: State, run: seq<Action>)
    requires SlotsHold(s) && IsRun(s, run)
    ensures SlotsHold(End(s, run))
    decreases |run|
  {
    if run != [] {
      StepKeepsSlots(s, run[0]);
      RunKeepsSlots(Step(s, run[0]), run[1..]);
    }
  }

  /** At the entry of each callback the slot of the invoking thread holds the error of this very
      completion, with its NULs escaped: whatever earlier callbacks on the thread left there, whichever
      calls the host makes inside callbacks, however deliveries nest on a thread, and whatever other
      threads do between the writing of the slot and the entry. It is the carried error itself if and
      only if that has no NUL. */
  lemma SlotIsThisCompletions(s: State, run: seq<Action>, i: nat)
    requires IsInitial(s) && IsRun(s, run) && Enabled(End(s, run), Enter(i))
    ensures var e := End(s, run);
            var m := e.hands[i].envelope.message;
            var slot := SlotOf(e, e.hands[i].thread);
            && slot == InstallSlot(m) && (slot.Some? ==> '\0' !in slot.value.text)
            && (slot == m.error <==> m.error.None? || '\0' !in m.error.value.text)
    ensures forall d | d in Step(End(s, run), Enter(i)).log :: d.entry.slotAtEntry == InstallSlot(d.entry.message)
  {
    RunKeepsSlots(s, run);
    EnterKeepsSlots(End(s, run), i);
    assert End(s, run).hands[i] in End(s, run).hands;
    SlotIsFaithful(End(s, run).hands[i].envelope.message);
  }

  // ---------------------------------------------------------------------------
  // The handle is poisoned before its host hears of the panic
  // ---------------------------------------------------------------------------

  predicate ReportsPanic(m: Message) {
    m.error.Some? && m.error.value.code == PanicCode
  }

  /** A report of a panic stands for a handle with its poison flag set. */
  predicate IsVouched(s: State, e: Envelope) {
    ReportsPanic(e.message) ==> e.scan in s.scans && s.scans[e.scan].handle in s.poisoned
  }

  predicate AllVouched<T>(s: State, items: seq<T>, of: T -> Envelope) {
    forall i | 0 <= i < |items| :: IsVouched(s, of(items[i]))
  }

  predicate ScanVouched(s: State, scan: ScanId)
    requires scan in s.scans
  {
    var x := s.scans[scan];
    (x.phase.Stored? || exists m | m in x.outbox :: ReportsPanic(m)) ==> x.handle in s.poisoned
  }

  predicate PoisonHolds(s: State) {
    && (forall scan | scan in s.scans :: ScanVouched(s, scan))
    && AllVouched(s, s.queue, Queued) && AllVouched(s, s.hands, InHand) && AllVouched(s, s.log, Logged)
  }

  /** Handles stay what they are and flags stay set. */
  lemma VouchedStays(s: State, a: Action)
    requires Enabled(s, a)
    ensures s.poisoned <= Step(s, a).poisoned
    ensures forall scan | scan in s.scans ::
              scan in Step(s, a).scans && Step(s, a).scans[scan].handle == s.scans[scan].handle
  {
  }

  lemma ListStaysVouched<T>(s: State, a: Action, items: seq<T>, of: T -> Envelope)
    requires Enabled(s, a) && AllVouched(s, items, of)
    ensures AllVouched(Step(s, a), items, of)
  {
    VouchedStays(s, a);
    forall i | 0 <= i < |items| ensures IsVouched(Step(s, a), of(items[i])) {
      assert IsVouched(s, of(items[i]));
    }
  }

  lemma ReportedAreNoPanics(flow: Flow)
    requires exists e :: flow == ReportError(e)
    ensures forall m | m in Sent(flow) :: !ReportsPanic(m)
  {
  }

  lemma SetupVouches(f: Fate)
    ensures f.nullScanner || !f.poisoned ==> forall m | m in Sent(Setup(f)) :: !ReportsPanic(m)
  {
    if !f.nullScanner && !f.poisoned && f.build.Fails? { ReportedAreNoPanics(ReportError(f.build.error)); }
  }

  lemma TaskVouches(f: Fate)
    ensures forall m | m in Sent(Task(f)) :: !ReportsPanic(m)
  {
    if f.open.Fails? { ReportedAreNoPanics(ReportError(f.open.error)); }
  }

  lemma ScanStaysVouched(s: State, a: Action, scan: ScanId)
    requires Enabled(s, a) && scan in s.scans && ScanVouched(s, scan)
    ensures scan in Step(s, a).scans && ScanVouched(Step(s, a), scan)
  {
    VouchedStays(s, a);
    if a == RunTask(scan) { TaskVouches(s.scans[scan].fate); }
  }

  lemma NewScanIsVouched(s: State, a: Action)
    requires Enabled(s, a) && a.Start?
    ensures ScanVouched(Step(s, a), a.scan)
  {
    SetupVouches(a.fate);
  }

  /** A message that leaves an outbox or a queue takes its voucher along. */
  lemma ListsStayVouched(s: State, a: Action)
    requires PoisonHolds(s) && Enabled(s, a)
    ensures var after := Step(s, a);
            AllVouched(after, after.queue, Queued) && AllVouched(after, after.hands, InHand)
            && AllVouched(after, after.log, Logged)
  {
    var after := Step(s, a);
    VouchedStays(s, a);
    ListStaysVouched(s, a, s.queue, Queued);
    ListStaysVouched(s, a, s.hands, InHand);
    ListStaysVouched(s, a, s.log, Logged);
    match a
    case Send(scan) => OutboxHeadIsVouched(s, a, scan);
    case FallBack(scan, _) => OutboxHeadIsVouched(s, a, scan);
    case Receive => assert IsVouched(after, Queued(s.queue[0]));
    case Enter(i) =>
      assert IsVouched(after, InHand(s.hands[i]));
      forall k | 0 <= k < |after.hands| ensures IsVouched(after, InHand(after.hands[k])) {
        assert after.hands[k] == s.hands[if k < i then k else k + 1];
      }
    case Install(i) => assert IsVouched(after, InHand(s.hands[i]));
    case _ =>
  }

  lemma OutboxHeadIsVouched(s: State, a: Action, scan: ScanId)
    requires Enabled(s, a) && scan in s.scans && ScanVouched(s, scan) && s.scans[scan].outbox != []
    ensures IsVouched(Step(s, a), Envelope(scan, s.scans[scan].outbox[0]))
  {
    VouchedStays(s, a);
    assert s.scans[scan].outbox[0] in s.scans[scan].outbox;
  }

  lemma StepKeepsPoison(s: State, a: Action)
    requires PoisonHolds(s) && Enabled(s, a)
    ensures PoisonHolds(Step(s, a))
  {
    ListsStayVouched(s, a);
    forall scan | scan in Step(s, a).scans ensures ScanVouched(Step(s, a), scan) {
      if scan in s.scans { ScanStaysVouched(s, a, scan); } else { NewScanIsVouched(s, a); }
    }
  }

  lemma {:induction false} RunKeepsPoison(s: State, run: seq<Action>)
    requires PoisonHolds(s) && IsRun(s, run)
    ensures PoisonHolds(End(s, run))
    decreases |run|
  {
    if run != [] {
      StepKeepsPoison(s, run[0]);
      RunKeepsPoison(Step(s, run[0]), run[1..]);
    }
  }

  /** When a host is told of a panic, in whichever thread and however late, the handle of that scan is
      already poisoned, so every checked call that the host makes from then on is rejected. */
  lemma PoisonPrecedesReport(s: State, run: seq<Action>, i: nat)
    requires IsInitial(s) && IsRun(s, run) && Enabled(End(s, run), Enter(i))
    requires ReportsPanic(End(s, run).hands[i].envelope.message)
    ensures var e := End(s, run);
            var scan := e.hands[i].envelope.scan;
            scan in e.scans && e.scans[scan].handle in e.poisoned
  {
    RunKeepsPoison(s, run);
    assert IsVouched(End(s, run), InHand(End(s, run).hands[i]));
  }

  // ---------------------------------------------------------------------------
  // Every completion is in exactly one place
  // ---------------------------------------------------------------------------

  /** The messages of one scan among those that `s` carries. */
  function Carried<T>(s: seq<T>, of: T -> Envelope, scan: ScanId): multiset<Message> {
    if s == [] then multiset{}
    else
      (if of(s[0]).scan == scan then multiset{of(s[0]).message} else multiset{}) + Carried(s[1..], of, scan)
  }

  function Queued(e: Envelope): Envelope {
    e
  }

  function InHand(h: Hand): Envelope {
    h.envelope
  }

  function Logged(d: Delivery): Envelope {
    Envelope(d.scan, d.entry.message)
  }

  /** What the scan has let go: about to be dispatched, queued, in a thread's hands, or delivered. */
  ghost function Released(s: State, scan: ScanId): multiset<Message>
    requires scan in s.scans
  {
    multiset(s.scans[scan].outbox) + Elsewhere(s, scan)
  }

  ghost function Elsewhere(s: State, scan: ScanId): multiset<Message> {
    Carried(s.queue, Queued, scan) + Carried(s.hands, InHand, scan) + Carried(s.log, Logged, scan)
  }

  function Owed(x: Scan): seq<Message> {
    match x.phase
    case Waiting => CaughtBy(Task(x.fate))
    case Caught(text) => [PanicReport(text)]
    case Stored(text) => [PanicReport(text)]
    case Done => []
  }

  /** Every completion is in exactly one place: still to be produced by the spawned body, the report of
      a panic that was caught, or released. */
  ghost predicate Conserved(s: State, scan: ScanId)
    requires scan in s.scans
  {
    var x := s.scans[scan];
    && (x.phase.Waiting? ==> Spawns(x.fate))
    && multiset(Completions(x.fate)) == multiset(Owed(x)) + Released(s, scan)
  }

  predicate AllKnown<T>(s: State, items: seq<T>, of: T -> Envelope) {
    forall i | 0 <= i < |items| :: of(items[i]).scan in s.scans
  }

  predicate Tracked(s: State) {
    AllKnown(s, s.queue, Queued) && AllKnown(s, s.hands, InHand) && AllKnown(s, s.log, Logged)
  }

  ghost predicate Inv(s: State) {
    && Tracked(s)
    && forall scan | scan in s.scans :: Conserved(s, scan)
  }

  lemma {:induction false} CarriedOfConcat<T>(a: seq<T>, b: seq<T>, of: T -> Envelope, scan: ScanId)
    ensures Carried(a + b, of, scan) == Carried(a, of, scan) + Carried(b, of, scan)
  {
    if a == [] {
      assert a + b == b;
    } else {
      assert (a + b)[1..] == a[1..] + b;
      CarriedOfConcat(a[1..], b, of, scan);
    }
  }

  /** One item more. */
  lemma CarriedOfMore<T>(s: seq<T>, x: T, of: T -> Envelope, scan: ScanId)
    ensures Carried(s + [x], of, scan) ==
            Carried(s, of, scan) + (if of(x).scan == scan then multiset{of(x).message} else multiset{})
  {
    CarriedOfConcat(s, [x], of, scan);
    assert [x][1..] == [];
  }

  /** One item less. */
  lemma CarriedWithout<T>(s: seq<T>, i: nat, of: T -> Envelope, scan: ScanId)
    requires i < |s|
    ensures Carried(s, of, scan) ==
            Carried(Without(s, i), of, scan)
            + (if of(s[i]).scan == scan then multiset{of(s[i]).message} else multiset{})
  {
    assert s == (s[..i] + [s[i]]) + s[i + 1..];
    CarriedOfConcat(s[..i] + [s[i]], s[i + 1..], of, scan);
    CarriedOfMore(s[..i], s[i], of, scan);
    CarriedOfConcat(s[..i], s[i + 1..], of, scan);
  }

  /** Another item in the place of one that carries the same. */
  lemma CarriedOfUpdate<T>(s: seq<T>, i: nat, x: T, of: T -> Envelope, scan: ScanId)
    requires i < |s| && of(x) == of(s[i])
    ensures Carried(s[i := x], of, scan) == Carried(s, of, scan)
  {
    CarriedWithout(s, i, of, scan);
    CarriedWithout(s[i := x], i, of, scan);
    assert Without(s[i := x], i) == Without(s, i);
  }

  lemma {:induction false} UnknownIsNowhere<T>(s: State, items: seq<T>, of: T -> Envelope, scan: ScanId)
    requires scan !in s.scans && AllKnown(s, items, of)
    ensures Carried(items, of, scan) == multiset{}
  {
    if items != [] { UnknownIsNowhere(s, items[1..], of, scan); }
  }

  /** The completions of a call are what its setup sends and what it owes afterwards. */
  lemma SetupAndOwed(fate: Fate, handle: HandleId)
    ensures var flow := Setup(fate);
            var x := Scan(fate, handle, Sent(flow), PhaseAfter(flow, Spawns(fate)));
            Completions(fate) == Sent(flow) + Owed(x)
  {
    CompletionsByStage(fate);
    if Spawns(fate) { assert Sent(Setup(fate)) == []; }
  }

  lemma NewScanConserves(s: State, scan: ScanId, handle: HandleId, fate: Fate)
    requires Tracked(s) && Enabled(s, Start(scan, handle, fate))
    ensures Conserved(Step(s, Start(scan, handle, fate)), scan)
  {
    UnknownIsNowhere(s, s.queue, Queued, scan);
    UnknownIsNowhere(s, s.hands, InHand, scan);
    UnknownIsNowhere(s, s.log, Logged, scan);
    SetupAndOwed(fate, handle);
    var after := Step(s, Start(scan, handle, fate));
    assert Released(after, scan) == multiset(Sent(Setup(fate)));
  }

  lemma OldScanConserves(s: State, a: Action, x: ScanId)
    requires Enabled(s, a) && a.Start? && x in s.scans && Conserved(s, x)
    ensures Conserved(Step(s, a), x)
  {
    var after := Step(s, a);
    assert after.scans[x] == s.scans[x] && Released(after, x) == Released(s, x);
  }

  lemma StartConserves(s: State, scan: ScanId, handle: HandleId, fate: Fate)
    requires Inv(s) && Enabled(s, Start(scan, handle, fate))
    ensures Inv(Step(s, Start(scan, handle, fate)))
  {
    var after := Step(s, Start(scan, handle, fate));
    assert Tracked(after);
    forall x | x in after.scans ensures Conserved(after, x) {
      if x == scan {
        NewScanConserves(s, scan, handle, fate);
      } else {
        OldScanConserves(s, Start(scan, handle, fate), x);
      }
    }
  }

  predicate Produces(a: Action) {
    a.RunTask? || a.StorePoison? || a.ReportPanic?
  }

  /** What a scan stops owing it puts into its outbox. */
  lemma RunTaskProduces(x: Scan)
    requires x.phase.Waiting?
    ensures var flow := Task(x.fate);
            var y := x.(outbox := x.outbox + Sent(flow), phase := PhaseAfter(flow, false));
            x.outbox + Owed(x) == y.outbox + Owed(y)
  {
    var flow := Task(x.fate);
    var y := x.(outbox := x.outbox + Sent(flow), phase := PhaseAfter(flow, false));
    assert Owed(x) == Sent(flow) + Owed(y);
  }

  lemma ProductionMoves(s: State, a: Action)
    requires Enabled(s, a) && Produces(a)
    ensures var x, y := s.scans[a.scan], Step(s, a).scans[a.scan];
            y.fate == x.fate && !y.phase.Waiting? && x.outbox + Owed(x) == y.outbox + Owed(y)
  {
    if a.RunTask? { RunTaskProduces(s.scans[a.scan]); }
  }

  lemma SamePartsSameSum(a: seq<Message>, b: seq<Message>, c: seq<Message>, d: seq<Message>, rest: multiset<Message>)
    requires a + b == c + d
    ensures multiset(b) + (multiset(a) + rest) == multiset(d) + (multiset(c) + rest)
  {
    assert multiset(b) + (multiset(a) + rest) == multiset(a + b) + rest;
    assert multiset(d) + (multiset(c) + rest) == multiset(c + d) + rest;
  }

  lemma ProductionIsReleased(s: State, a: Action)
    requires Enabled(s, a) && Produces(a)
    ensures multiset(Owed(Step(s, a).scans[a.scan])) + Released(Step(s, a), a.scan) ==
            multiset(Owed(s.scans[a.scan])) + Released(s, a.scan)
  {
    var x, y := s.scans[a.scan], Step(s, a).scans[a.scan];
    ProductionMoves(s, a);
    assert Elsewhere(Step(s, a), a.scan) == Elsewhere(s, a.scan);
    SamePartsSameSum(x.outbox, Owed(x), y.outbox, Owed(y), Elsewhere(s, a.scan));
  }

  lemma ProductionConservesOne(s: State, a: Action, x: ScanId)
    requires Enabled(s, a) && Produces(a) && x in s.scans && Conserved(s, x)
    ensures Conserved(Step(s, a), x)
  {
    if x == a.scan {
      ProductionMoves(s, a);
      ProductionIsReleased(s, a);
    } else {
      assert Step(s, a).scans[x] == s.scans[x] && Released(Step(s, a), x) == Released(s, x);
    }
  }

  lemma ProductionConserves(s: State, a: Action)
    requires Inv(s) && Enabled(s, a) && Produces(a)
    ensures Inv(Step(s, a))
  {
    var after := Step(s, a);
    assert Tracked(after);
    forall x | x in after.scans ensures Conserved(after, x) { ProductionConservesOne(s, a, x); }
  }

  lemma TakeFirst(s: seq<Message>)
    requires s != []
    ensures multiset(s) == multiset{s[0]} + multiset(s[1..])
  {
    assert s == [s[0]] + s[1..];
  }

  lemma OutboxAfterTake(s: State, scan: ScanId, x: ScanId)
    requires scan in s.scans && s.scans[scan].outbox != [] && x in s.scans
    ensures multiset(s.scans[x].outbox) ==
            multiset(TakeFrom(s, scan).scans[x].outbox)
            + (if scan == x then multiset{s.scans[scan].outbox[0]} else multiset{})
  {
    TakeFirst(s.scans[scan].outbox);
  }

  lemma SendReleases(s: State, scan: ScanId, x: ScanId)
    requires Enabled(s, Send(scan)) && x in s.scans
    ensures Released(Step(s, Send(scan)), x) == Released(s, x)
  {
    OutboxAfterTake(s, scan, x);
    CarriedOfMore(s.queue, Envelope(scan, s.scans[scan].outbox[0]), Queued, x);
  }

  lemma FallBackReleases(s: State, scan: ScanId, thread: ThreadId, x: ScanId)
    requires Enabled(s, FallBack(scan, thread)) && x in s.scans
    ensures Released(Step(s, FallBack(scan, thread)), x) == Released(s, x)
  {
    OutboxAfterTake(s, scan, x);
    CarriedOfMore(s.hands, Hand(thread, Envelope(scan, s.scans[scan].outbox[0]), false), InHand, x);
  }

  lemma ReceiveReleases(s: State, x: ScanId)
    requires Enabled(s, Receive) && x in s.scans
    ensures Released(Step(s, Receive), x) == Released(s, x)
  {
    CarriedOfMore(s.hands, Hand(DISPATCHER, s.queue[0], false), InHand, x);
  }

  lemma InstallReleases(s: State, i: nat, x: ScanId)
    requires Enabled(s, Install(i)) && x in s.scans
    ensures Released(Step(s, Install(i)), x) == Released(s, x)
  {
    CarriedOfUpdate(s.hands, i, s.hands[i].(installed := true), InHand, x);
  }

  lemma EnterReleases(s: State, i: nat, x: ScanId)
    requires Enabled(s, Enter(i)) && x in s.scans
    ensures Released(Step(s, Enter(i)), x) == Released(s, x)
  {
    var h := s.hands[i];
    var entry := EnterCallback(h.envelope.message, SlotOf(s, h.thread));
    CarriedWithout(s.hands, i, InHand, x);
    CarriedOfMore(s.log, Delivery(h.envelope.scan, h.thread, entry), Logged, x);
  }

  predicate IsMove(a: Action) {
    !a.Start? && !Produces(a)
  }

  /** A step that neither starts a scan nor goes on with one moves messages about. */
  lemma MoveReleases(s: State, a: Action, x: ScanId)
    requires Enabled(s, a) && IsMove(a) && x in s.scans
    ensures Step(s, a).scans.Keys == s.scans.Keys
    ensures Step(s, a).scans[x].fate == s.scans[x].fate && Step(s, a).scans[x].phase == s.scans[x].phase
    ensures Released(Step(s, a), x) == Released(s, x)
  {
    match a
    case Send(scan) => SendReleases(s, scan, x);
    case FallBack(scan, thread) => FallBackReleases(s, scan, thread, x);
    case Receive => ReceiveReleases(s, x);
    case Install(i) => InstallReleases(s, i, x);
    case Enter(i) => EnterReleases(s, i, x);
    case _ =>
  }

  lemma MoveTracks(s: State, a: Action)
    requires Tracked(s) && Enabled(s, a) && IsMove(a)
    ensures Tracked(Step(s, a)) && Step(s, a).scans.Keys == s.scans.Keys
  {
    if a.Enter? {
      var after := Step(s, a);
      forall k | 0 <= k < |after.hands| ensures after.hands[k].envelope.scan in s.scans {
        assert after.hands[k] == s.hands[if k < a.hand then k else k + 1];
      }
    }
  }

  lemma MoveConserves(s: State, a: Action, x: ScanId)
    requires Enabled(s, a) && IsMove(a) && x in s.scans && Conserved(s, x)
    ensures x in Step(s, a).scans && Conserved(Step(s, a), x)
  {
    MoveReleases(s, a, x);
  }

  lemma MoveKeeps(s: State, a: Action)
    requires Inv(s) && Enabled(s, a) && IsMove(a)
    ensures Inv(Step(s, a))
  {
    MoveTracks(s, a);
    forall x | x in Step(s, a).scans ensures Conserved(Step(s, a), x) { MoveConserves(s, a, x); }
  }

  lemma StepKeeps(s: State, a: Action)
    requires Inv(s) && Enabled(s, a)
    ensures Inv(Step(s, a))
  {
    if a.Start? {
      StartConserves(s, a.scan, a.handle, a.fate);
    } else if Produces(a) {
      ProductionConserves(s, a);
    } else {
      MoveKeeps(s, a);
    }
  }

  lemma {:induction false} RunKeeps(s: State, run: seq<Action>)
    requires Inv(s) && IsRun(s, run)
    ensures Inv(End(s, run))
    decreases |run|
  {
    if run != [] {
      StepKeeps(s, run[0]);
      RunKeeps(Step(s, run[0]), run[1..]);
    }
  }

  predicate Settled(s: State, scan: ScanId)
    requires scan in s.scans
  {
    && s.scans[scan].phase.Done? && s.scans[scan].outbox == []
    && (forall e | e in s.queue :: e.scan != scan)
    && forall h | h in s.hands :: h.envelope.scan != scan
  }

  lemma {:induction false} NotCarried<T>(items: seq<T>, of: T -> Envelope, scan: ScanId)
    requires forall i | 0 <= i < |items| :: of(items[i]).scan != scan
    ensures Carried(items, of, scan) == multiset{}
  {
    if items != [] { NotCarried(items[1..], of, scan); }
  }

  /** The messages that the host has seen of one scan. */
  function Delivered(s: State, scan: ScanId): multiset<Message> {
    Carried(s.log, Logged, scan)
  }

  lemma DeliveredIsPart(s: State, scan: ScanId)
    requires scan in s.scans && Conserved(s, scan)
    ensures Delivered(s, scan) <= multiset(Completions(s.scans[scan].fate))
  {
    assert Delivered(s, scan) <= Released(s, scan);
  }

  lemma SettledHasDelivered(s: State, scan: ScanId)
    requires scan in s.scans && Conserved(s, scan) && Settled(s, scan)
    ensures Delivered(s, scan) == multiset(Completions(s.scans[scan].fate))
    ensures |Delivered(s, scan)| == |Completions(s.scans[scan].fate)|
  {
    NotCarried(s.queue, Queued, scan);
    NotCarried(s.hands, InHand, scan);
    assert Released(s, scan) == Delivered(s, scan);
    assert |multiset(Completions(s.scans[scan].fate))| == |Completions(s.scans[scan].fate)|;
  }

  /** Nothing is lost and nothing is invented between a scan and its callback: once the scan is
      settled the host has seen its completions, which is exactly one completion precisely when
      no destructor panics. */
  lemma DeliveredExactly(s: State, run: seq<Action>, scan: ScanId)
    requires IsInitial(s) && IsRun(s, run) && scan in End(s, run).scans
    ensures var e := End(s, run); Delivered(e, scan) <= multiset(Completions(e.scans[scan].fate))
    ensures var e := End(s, run);
            Settled(e, scan) ==>
              && Delivered(e, scan) == multiset(Completions(e.scans[scan].fate))
              && (|Delivered(e, scan)| == 1 <==> DropsCleanly(e.scans[scan].fate))
  {
    RunKeeps(s, run);
    DeliveredIsPart(End(s, run), scan);
    if Settled(End(s, run), scan) {
      SettledHasDelivered(End(s, run), scan);
      CompletesExactlyOnce(End(s, run).scans[scan].fate);
    }
  }

  lemma {:induction false} LoggedIsCarried(log: seq<Delivery>, i: nat)
    requires i < |log|
    ensures log[i].entry.message in Carried(log, Logged, log[i].scan)
  {
    if i > 0 { LoggedIsCarried(log[1..], i - 1); }
  }

  /** What a host sees at any callback entry is one of its scan's own completions, so its status is 0 if
      and only if it carries no error, and -1 otherwise. */
  lemma EntriesTell(s: State, run: seq<Action>, i: nat)
    requires IsInitial(s) && IsRun(s, run) && i < |End(s, run).log|
    ensures var e := End(s, run);
            var d := e.log[i];
            && d.scan in e.scans && d.entry.message in Completions(e.scans[d.scan].fate)
            && IsConsistent(d.entry.message)
  {
    RunKeeps(s, run);
    var e := End(s, run);
    var d := e.log[i];
    assert Logged(d).scan in e.scans;
    LoggedIsCarried(e.log, i);
    DeliveredIsPart(e, d.scan);
    assert d.entry.message in multiset(Completions(e.scans[d.scan].fate));
    CompletionsTell(e.scans[d.scan].fate);
  }

  // ---------------------------------------------------------------------------
  // Every scan can settle
  // ---------------------------------------------------------------------------

  /** A step of the scan itself, of a delivery, of the receive loop, or the return of a callback that
      keeps the dispatcher busy. */
  predicate Helps(scan: ScanId, a: Action) {
    match a
    case RunTask(x) => x == scan
    case StorePoison(x) => x == scan
    case ReportPanic(x) => x == scan
    case Send(x) => x == scan
    case FallBack(x, _) => x == scan
    case Receive => true
    case Install(_) => true
    case Enter(_) => true
    case Return(thread, _) => thread == DISPATCHER
    case _ => false
  }

  function HandWeight(hands: seq<Hand>): nat {
    if hands == [] then 0 else (if hands[0].installed then 3 else 4) + HandWeight(hands[1..])
  }

  function PhaseWeight(p: Phase): nat {
    match p case Waiting => 20 case Caught(_) => 8 case Stored(_) => 7 case Done => 0
  }

  /** How much can still happen before the scan is settled. */
  function Distance(s: State, scan: ScanId): nat
    requires scan in s.scans
  {
    PhaseWeight(s.scans[scan].phase) + 6 * |s.scans[scan].outbox| + 5 * |s.queue| + HandWeight(s.hands)
    + |StackOf(s, DISPATCHER)|
  }

  lemma {:induction false} WeightOfConcat(a: seq<Hand>, b: seq<Hand>)
    ensures HandWeight(a + b) == HandWeight(a) + HandWeight(b)
  {
    if a == [] {
      assert a + b == b;
    } else {
      assert (a + b)[1..] == a[1..] + b;
      WeightOfConcat(a[1..], b);
    }
  }

  lemma WeightOfOne(h: Hand)
    ensures HandWeight([h]) == if h.installed then 3 else 4
  {
    assert [h][1..] == [];
  }

  lemma {:induction false} WeightWithout(hands: seq<Hand>, i: nat)
    requires i < |hands|
    ensures HandWeight(hands) == HandWeight(Without(hands, i)) + if hands[i].installed then 3 else 4
    decreases i
  {
    if i == 0 {
      assert Without(hands, 0) == hands[1..];
    } else {
      WeightWithout(hands[1..], i - 1);
      assert Without(hands, i)[0] == hands[0] && Without(hands, i)[1..] == Without(hands[1..], i - 1);
    }
  }

  lemma InstallReduces(s: State, i: nat, scan: ScanId)
    requires scan in s.scans && Enabled(s, Install(i))
    ensures Distance(Step(s, Install(i)), scan) < Distance(s, scan)
  {
    var after := s.hands[i := s.hands[i].(installed := true)];
    WeightWithout(s.hands, i);
    WeightWithout(after, i);
    assert Without(after, i) == Without(s.hands, i);
  }

  lemma BeginDeliveryReduces(s: State, a: Action, scan: ScanId)
    requires scan in s.scans && Enabled(s, a) && Helps(scan, a) && (a.FallBack? || a.Receive?)
    ensures Distance(Step(s, a), scan) < Distance(s, scan)
  {
    var hand := Step(s, a).hands[|s.hands|];
    WeightOfConcat(s.hands, [hand]);
    WeightOfOne(hand);
  }

  lemma HelpReduces(s: State, a: Action, scan: ScanId)
    requires scan in s.scans && Enabled(s, a) && Helps(scan, a)
    ensures scan in Step(s, a).scans && Step(s, a).scans[scan].fate == s.scans[scan].fate
    ensures Distance(Step(s, a), scan) < Distance(s, scan)
  {
    match a
    case FallBack(_, _) => BeginDeliveryReduces(s, a, scan);
    case Receive => BeginDeliveryReduces(s, a, scan);
    case Install(i) => InstallReduces(s, i, scan);
    case Enter(i) => WeightWithout(s.hands, i);
    case _ =>
  }

  /** A scan that is not settled is never stuck, unless the process has aborted: it, a delivery, the
      receive loop or the dispatcher's callback has a step. */
  lemma UnsettledCanMove(s: State, scan: ScanId) returns (a: Action)
    requires !s.halted && scan in s.scans && !Settled(s, scan)
    ensures Enabled(s, a) && Helps(scan, a)
  {
    var x := s.scans[scan];
    if x.phase.Waiting? {
      a := RunTask(scan);
    } else if x.phase.Caught? {
      a := StorePoison(scan);
    } else if x.phase.Stored? {
      a := ReportPanic(scan);
    } else if x.outbox != [] {
      a := Send(scan);
    } else if s.hands != [] {
      a := if s.hands[0].installed then Enter(0) else Install(0);
    } else if StackOf(s, DISPATCHER) != [] {
      a := Return(DISPATCHER, false);
    } else {
      a := Receive;
    }
  }

  /** However the helping steps are scheduled, there are at most `Distance` of them. */
  lemma {:induction false} HelpingRunsAreShort(s: State, run: seq<Action>, scan: ScanId)
    requires scan in s.scans && IsRun(s, run) && forall a | a in run :: Helps(scan, a)
    ensures |run| <= Distance(s, scan)
    decreases |run|
  {
    if run != [] {
      assert run[0] in run;
      HelpReduces(s, run[0], scan);
      HelpingRunsAreShort(Step(s, run[0]), run[1..], scan);
    }
  }

  lemma RunHead(s: State, a: Action, rest: seq<Action>)
    requires Enabled(s, a) && IsRun(Step(s, a), rest)
    ensures IsRun(s, [a] + rest) && End(s, [a] + rest) == End(Step(s, a), rest)
  {
    assert ([a] + rest)[1..] == rest;
  }

  lemma TaskAborts(f: Fate)
    requires Spawns(f) && Task(f).Aborted?
    ensures Aborts(f)
  {
  }

  lemma HelpHaltsOnlyByAborting(s: State, a: Action, scan: ScanId)
    requires scan in s.scans && Conserved(s, scan) && Enabled(s, a) && Helps(scan, a)
    ensures Step(s, a).halted ==> Aborts(s.scans[scan].fate)
  {
    if a.RunTask? && Task(s.scans[scan].fate).Aborted? { TaskAborts(s.scans[scan].fate); }
  }

  /** One helping step of a scan that is not settled. */
  lemma NextHelp(s: State, scan: ScanId) returns (a: Action)
    requires Inv(s) && !s.halted && scan in s.scans && !Settled(s, scan)
    ensures Enabled(s, a) && Helps(scan, a) && Inv(Step(s, a))
    ensures scan in Step(s, a).scans && Step(s, a).scans[scan].fate == s.scans[scan].fate
    ensures Distance(Step(s, a), scan) < Distance(s, scan)
    ensures Step(s, a).halted ==> Aborts(s.scans[scan].fate)
  {
    a := UnsettledCanMove(s, scan);
    HelpReduces(s, a, scan);
    HelpHaltsOnlyByAborting(s, a, scan);
    StepKeeps(s, a);
  }

  /** The run consists of helping steps and ends with the scan settled and its completions seen, or
      with an abort that is the scan's own. */
  predicate SettlesBy(s: State, run: seq<Action>, scan: ScanId, fate: Fate) {
    && IsRun(s, run) && (forall a | a in run :: Helps(scan, a))
    && var e := End(s, run);
       && scan in e.scans && e.scans[scan].fate == fate
       && (e.halted ==> Aborts(fate))
       && (!e.halted ==> Settled(e, scan) && Delivered(e, scan) == multiset(Completions(fate)))
  }

  lemma SettlesSooner(s: State, a: Action, rest: seq<Action>, scan: ScanId, fate: Fate)
    requires Enabled(s, a) && Helps(scan, a) && SettlesBy(Step(s, a), rest, scan, fate)
    ensures SettlesBy(s, [a] + rest, scan, fate)
  {
    RunHead(s, a, rest);
  }

  lemma HaltedAlready(s: State, scan: ScanId)
    requires scan in s.scans && s.halted && Aborts(s.scans[scan].fate)
    ensures SettlesBy(s, [], scan, s.scans[scan].fate)
  {
    assert IsRun(s, []) && End(s, []) == s;
  }

  lemma SettledAlready(s: State, scan: ScanId)
    requires scan in s.scans && !s.halted && Settled(s, scan)
    requires Delivered(s, scan) == multiset(Completions(s.scans[scan].fate))
    ensures SettlesBy(s, [], scan, s.scans[scan].fate)
  {
    assert IsRun(s, []) && End(s, []) == s;
  }

  /** From every reachable state finitely many helping steps settle the scan, and the host has then
      seen exactly its completions, unless the process aborts, as this very scan's fate has it. */
  lemma {:induction false} AlwaysCanSettle(s: State, scan: ScanId) returns (run: seq<Action>)
    requires Inv(s) && scan in s.scans && (s.halted ==> Aborts(s.scans[scan].fate))
    ensures SettlesBy(s, run, scan, s.scans[scan].fate)
    decreases Distance(s, scan)
  {
    if s.halted {
      run := [];
      HaltedAlready(s, scan);
    } else if Settled(s, scan) {
      run := [];
      SettledHasDelivered(s, scan);
      SettledAlready(s, scan);
    } else {
      var a := NextHelp(s, scan);
      var rest := AlwaysCanSettle(Step(s, a), scan);
      run := [a] + rest;
      SettlesSooner(s, a, rest, scan, s.scans[scan].fate);
    }
  }

  // ---------------------------------------------------------------------------
  // Operations that nobody interrupts
  // ---------------------------------------------------------------------------

  /** What the host's callback does: it may unwind, and it may leave any error in the slot. */
  datatype HostEffect = HostEffect(unwinds: bool, leaves: Option<ErrorInfo>)

  /** The entry of an undisturbed delivery. */
  function SeenAs(m: Message): Entry {
    EnterCallback(m, InstallSlot(m))
  }

  function Seen(messages: seq<Message>): seq<Entry> {
    seq(|messages|, i requires 0 <= i < |messages| => SeenAs(messages[i]))
  }

  /** `deliver_message` as steps: the hand at `i` is emptied into the log. */
  predicate HasDelivered(s: State, e: State, i: nat, leaves: Option<ErrorInfo>)
    requires i < |s.hands|
  {
    var h := s.hands[i];
    && e.scans == s.scans && e.queue == s.queue && e.hands == Without(s.hands, i)
    && e.log == s.log + [Delivery(h.envelope.scan, h.thread, SeenAs(h.envelope.message))]
    && SlotOf(e, h.thread) == leaves && StackOf(e, h.thread) == StackOf(s, h.thread)
  }

  /** While the callback runs, the thread is free again. */
  lemma EnteredIsFree(s: State, i: nat)
    requires SlotsHold(s) && Enabled(s, Enter(i))
    ensures IsFree(Step(s, Enter(i)), s.hands[i].thread)
  {
    var after := Step(s, Enter(i));
    forall h | h in after.hands ensures h.thread != s.hands[i].thread {
      var k :| 0 <= k < |after.hands| && after.hands[k] == h;
      assert h == s.hands[if k < i then k else k + 1];
    }
  }

  lemma EntryAlone(s: State, i: nat)
    requires SlotsHold(s) && Enabled(s, Install(i)) && Enabled(Step(s, Install(i)), Enter(i))
    ensures var h := s.hands[i];
            var e := Step(Step(s, Install(i)), Enter(i));
            && !e.halted && e.scans == s.scans && e.queue == s.queue && e.hands == Without(s.hands, i)
            && e.log == s.log + [Delivery(h.envelope.scan, h.thread, SeenAs(h.envelope.message))]
            && IsFree(e, h.thread) && StackOf(e, h.thread) == StackOf(s, h.thread) + [h.envelope]
  {
    var s1 := Step(s, Install(i));
    InstallKeepsSlots(s, i);
    EnteredIsFree(s1, i);
    assert Without(s1.hands, i) == Without(s.hands, i);
  }

  lemma CallbackAlone(s: State, t: ThreadId, effect: HostEffect) returns (run: seq<Action>)
    requires !s.halted && IsFree(s, t) && StackOf(s, t) != []
    ensures IsRun(s, run)
    ensures var e := End(s, run);
            && e.halted == s.halted && e.scans == s.scans && e.queue == s.queue && e.hands == s.hands && e.log == s.log
            && SlotOf(e, t) == effect.leaves && StackOf(e, t) == StackOf(s, t)[..|StackOf(s, t)| - 1]
  {
    var s1 := Step(s, OtherCall(t, effect.leaves));
    RunHead(s1, Return(t, effect.unwinds), []);
    RunHead(s, OtherCall(t, effect.leaves), [Return(t, effect.unwinds)] + []);
    run := [OtherCall(t, effect.leaves)] + ([Return(t, effect.unwinds)] + []);
  }

  lemma DeliveryAlone(s: State, i: nat, effect: HostEffect) returns (run: seq<Action>)
    requires SlotsHold(s) && Enabled(s, Install(i))
    ensures IsRun(s, run) && End(s, run).halted == s.halted && HasDelivered(s, End(s, run), i, effect.leaves)
  {
    var s1 := Step(s, Install(i));
    assert Enabled(s1, Enter(i));
    EntryAlone(s, i);
    run := CallbackAlone(Step(s1, Enter(i)), s.hands[i].thread, effect);
    RunHead(s1, Enter(i), run);
    run := [Enter(i)] + run;
    RunHead(s, Install(i), run);
    run := [Install(i)] + run;
  }

  lemma {:induction false} RunsCompose(s: State, a: seq<Action>, b: seq<Action>)
    requires IsRun(s, a) && IsRun(End(s, a), b)
    ensures IsRun(s, a + b) && End(s, a + b) == End(End(s, a), b)
    decreases |a|
  {
    if a == [] {
      assert a + b == b;
    } else {
      assert (a + b)[1..] == a[1..] + b;
      RunsCompose(Step(s, a[0]), a[1..], b);
    }
  }

  function ByDispatcher(queue: seq<Envelope>): seq<Delivery> {
    seq(|queue|, i requires 0 <= i < |queue| => Delivery(queue[i].scan, DISPATCHER, SeenAs(queue[i].message)))
  }

  /** The dispatcher between two messages. */
  predicate DispatcherWaits(s: State) {
    !s.halted && SlotsHold(s) && IsFree(s, DISPATCHER) && StackOf(s, DISPATCHER) == []
  }

  lemma ReceiveAlone(s: State, effect: HostEffect) returns (run: seq<Action>)
    requires DispatcherWaits(s) && s.queue != []
    ensures IsRun(s, run)
    ensures var e := End(s, run);
            && DispatcherWaits(e) && e.scans == s.scans && e.hands == s.hands && e.queue == s.queue[1..]
            && e.log == s.log + ByDispatcher(s.queue[..1])
  {
    var i := |s.hands|;
    var s1 := Step(s, Receive);
    BeginDeliveryKeepsSlots(s, Receive);
    var delivery := DeliveryAlone(s1, i, effect);
    assert Without(s1.hands, i) == s.hands;
    RunKeepsSlots(s1, delivery);
    RunHead(s, Receive, delivery);
    run := [Receive] + delivery;
  }

  /** The receive loop as steps: every queued message is delivered once, in order, with its own
      error in the slot, whatever the callbacks leave behind. */
  lemma {:induction false} DrainAlone(s: State, effect: HostEffect) returns (run: seq<Action>)
    requires DispatcherWaits(s)
    ensures IsRun(s, run)
    ensures var e := End(s, run);
            && DispatcherWaits(e) && e.scans == s.scans && e.hands == s.hands && e.queue == []
            && e.log == s.log + ByDispatcher(s.queue)
    decreases |s.queue|
  {
    if s.queue == [] {
      run := [];
    } else {
      var first := ReceiveAlone(s, effect);
      var rest := DrainAlone(End(s, first), effect);
      RunsCompose(s, first, rest);
      run := first + rest;
      assert ByDispatcher(s.queue) == ByDispatcher(s.queue[..1]) + ByDispatcher(s.queue[1..]);
    }
  }

  // ---------------------------------------------------------------------------
  // The objects behind the steps: their contracts are the functions that the steps use
  // ---------------------------------------------------------------------------

  /** One thread with its error slot and the channel that it receives from. */
  class Dispatcher {
    var queue: seq<Message>
    var slot: Option<ErrorInfo>
    var entries: seq<Entry>

    constructor (slot: Option<ErrorInfo>)
      ensures queue == [] && entries == [] && this.slot == slot
    {
      this.queue, this.slot, this.entries := [], slot, [];
    }

    /** `receiving` is false when the channel has no receiver any more. */
    method Send(m: Message, receiving: bool) returns (undelivered: Option<Message>)
      modifies this`queue
      ensures receiving ==> queue == old(queue) + [m] && undelivered == None
      ensures !receiving ==> queue == old(queue) && undelivered == Some(m)
    {
      if !receiving { return Some(m); }
      queue := queue + [m];
      return None;
    }

    /** Installs the error of this very message, then runs the callback; an unwinding callback
        is contained. */
    method Deliver(m: Message, effect: HostEffect) returns (contained: bool)
      modifies this`slot, this`entries
      ensures entries == old(entries) + [SeenAs(m)] && slot == effect.leaves && contained == effect.unwinds
      ensures var seen := entries[|old(entries)|];
              && seen.message == m
              && seen.slotAtEntry == (if m.error.None? then None
                                      else Some(ErrorInfo(m.error.value.code, Sanitize(m.error.value.text))))
    {
      slot := if m.error.Some? then Some(ErrorInfo(m.error.value.code, Sanitize(m.error.value.text))) else None;
      entries := entries + [EnterCallback(m, slot)];
      slot := effect.leaves;
      return effect.unwinds;
    }

    /** The receive loop, until the channel is empty: every queued message is delivered once, in
        order, whatever the callbacks do. */
    method Drain(host: Message -> HostEffect)
      modifies this
      ensures queue == [] && entries == old(entries) + Seen(old(queue))
      ensures |entries| == |old(entries)| + |old(queue)|
      ensures forall k | 0 <= k < |old(queue)| ::
                entries[|old(entries)| + k].message == old(queue)[k]
                && entries[|old(entries)| + k].slotAtEntry == InstallSlot(old(queue)[k])
    {
      ghost var done: seq<Message> := [];
      while queue != []
        invariant done + queue == old(queue)
        invariant entries == old(entries) + Seen(done)
        decreases |queue|
      {
        var m := queue[0];
        assert done + queue == (done + [m]) + queue[1..];
        assert Seen(done + [m]) == Seen(done) + [SeenAs(m)];
        queue := queue[1..];
        var _ := Deliver(m, host(m));
        done := done + [m];
      }
    }
  }

  /** Falls back to the current thread when there is no dispatcher or its channel has failed.
      `here` stands for the thread that makes the call. */
  method DispatchMessage(dispatcher: Dispatcher?, receiving: bool, here: Dispatcher, m: Message, effect: HostEffect)
    requires dispatcher != here
    modifies dispatcher, here
    ensures dispatcher != null && receiving ==>
              && dispatcher.queue == old(dispatcher.queue) + [m] && dispatcher.entries == old(dispatcher.entries)
              && here.entries == old(here.entries)
    ensures dispatcher == null || !receiving ==>
              && here.entries == old(here.entries) + [SeenAs(m)]
              && (dispatcher != null ==>
                    dispatcher.queue == old(dispatcher.queue) && dispatcher.entries == old(dispatcher.entries))
  {
    if dispatcher != null {
      var undelivered := dispatcher.Send(m, receiving);
      if undelivered.None? { return; }
    }
    var _ := here.Deliver(m, effect);
  }
}
