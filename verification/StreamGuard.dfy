/** Exported record-batch streams that contain panics (src/stream_guard.rs), and the poison flag
    they share with their scanner (src/scanner.rs). */
module StreamGuard {
  import opened Common

  type BatchId = nat
  type ReaderId = nat

  /** What one poll of an inner stream does. */
  datatype Event = Batch(id: BatchId) | StreamError(message: string) | EndOfStream | Panic(message: string)

  /** An inner stream answers its first poll, its second poll, and so on; nothing says that it
      stops after an end of stream. */
  type Inner = nat -> Event

  /** What a consumer gets from one `next`. */
  datatype Item = Yield(id: BatchId) | Error(message: string) | Done

  const RUNTIME_PANIC: string := "Cannot start a runtime from within a runtime"

  const STREAM_PANIC: string := "panic in stream: "
  const READER_PANIC: string := "panic in record batch reader: "

  /** `polls` counts the polls of the inner stream; `open` is false once it was dropped; `prefix`
      introduces the text of a panic. */
  datatype Guard = Guard(polls: nat, open: bool, poisoned: bool, prefix: string)

  function FreshGuard(prefix: string): Guard {
    Guard(0, true, false, prefix)
  }

  /** The item, when nothing panics. */
  function Relay(e: Event): Item
    requires !e.Panic?
  {
    match e
    case Batch(id) => Yield(id)
    case StreamError(message) => Error(Sanitize(message))
    case EndOfStream => Done
  }

  function PanicItem(prefix: string, message: string): Item {
    Error(Sanitize(prefix + message))
  }

  /** What the consumer may conclude: a batch is that batch, an error is that error, and only an end is
      an end. The text of an error is escaped, and is its own text if and only if that has no NUL. */
  predicate IsAnswer(e: Event, prefix: string, item: Item) {
    && (item.Yield? <==> e.Batch?) && (e.Batch? ==> item == Yield(e.id))
    && (item.Done? <==> e.EndOfStream?)
    && (e.StreamError? ==> item == Error(Sanitize(e.message)) && (item == Error(e.message) <==> '\0' !in e.message))
    && (e.Panic? ==> item == Error(Sanitize(prefix + e.message)))
  }

  lemma AnswersAreFaithful(e: Event, prefix: string)
    ensures IsAnswer(e, prefix, if e.Panic? then PanicItem(prefix, e.message) else Relay(e))
  {
    if e.StreamError? { SanitizedHasNoNul(e.message); }
  }

  /** `driving` is a call from a thread that drives a runtime: it panics before any poll. */
  function NextOf(inner: Inner, g: Guard, driving: bool): (Item, Guard) {
    if g.poisoned || !g.open then (Done, g)
    else if driving then (PanicItem(g.prefix, RUNTIME_PANIC), g.(poisoned := true))
    else
      var event := inner(g.polls);
      var polled := g.(polls := g.polls + 1);
      if event.Panic? then (PanicItem(g.prefix, event.message), polled.(poisoned := true)) else (Relay(event), polled)
  }

  /** Messages that go to the consumer never carry a NUL, which would abort it. */
  lemma ItemsAreNulFree(inner: Inner, g: Guard, driving: bool)
    ensures var item := NextOf(inner, g, driving).0; item.Error? ==> '\0' !in item.message
  {
    if g.open && !g.poisoned {
      SanitizedHasNoNul(g.prefix + RUNTIME_PANIC);
      var e := inner(g.polls);
      if e.Panic? { SanitizedHasNoNul(g.prefix + e.message); }
      if e.StreamError? { SanitizedHasNoNul(e.message); }
    }
  }

  // ---------------------------------------------------------------------------
  // The readers
  // ---------------------------------------------------------------------------

  class PoisonFlag {
    var poisoned: bool

    constructor ()
      ensures !poisoned
    {
      poisoned := false;
    }
  }

  class GuardedReader {
    const inner: Inner
    const scannerPoison: PoisonFlag
    var polls: nat
    var open: bool
    var poisoned: bool

    constructor (inner: Inner, scannerPoison: PoisonFlag)
      ensures this.inner == inner && this.scannerPoison == scannerPoison && View() == FreshGuard(STREAM_PANIC)
      ensures polls == 0 && open && !poisoned
    {
      this.inner, this.scannerPoison := inner, scannerPoison;
      polls, open, poisoned := 0, true, false;
    }

    function View(): Guard
      reads this
    {
      Guard(polls, open, poisoned, STREAM_PANIC)
    }

    /** Flips the scanner's flag exactly in the call that catches a panic. */
    method Next(driving: bool) returns (item: Item)
      modifies this, scannerPoison
      ensures (item, View()) == NextOf(inner, old(View()), driving)
      ensures old(poisoned) || !old(open) ==> item == Done && View() == old(View())
      ensures !old(poisoned) && old(open) && driving ==>
                item == Error(Sanitize("panic in stream: " + RUNTIME_PANIC)) && poisoned && polls == old(polls)
      ensures !old(poisoned) && old(open) && !driving ==>
                && IsAnswer(inner(old(polls)), "panic in stream: ", item) && polls == old(polls) + 1
                && (poisoned <==> inner(old(polls)).Panic?)
      ensures scannerPoison.poisoned == (old(scannerPoison.poisoned) || (poisoned && !old(poisoned)))
    {
      if poisoned { return Done; }
      if !open { return Done; }
      if driving {
        poisoned := true;
        scannerPoison.poisoned := true;
        return PanicItem(STREAM_PANIC, RUNTIME_PANIC);
      }
      var event := inner(polls);
      AnswersAreFaithful(event, STREAM_PANIC);
      polls := polls + 1;
      match event {
        case Batch(id) => return Yield(id);
        case StreamError(message) => return Error(Sanitize(message));
        case EndOfStream => return Done;
        case Panic(message) =>
          poisoned := true;
          scannerPoison.poisoned := true;
          return PanicItem(STREAM_PANIC, message);
      }
    }

    /** Detaches the inner stream first, so a panic of its cleanup is only logged. */
    method Drop(cleanupPanics: bool) returns (logged: bool)
      modifies this
      ensures View() == old(View()).(open := false)
      ensures logged == (old(open) && cleanupPanics)
    {
      if !open { return false; }
      open := false;
      return cleanupPanics;
    }
  }

  /** The variant over batches that are already in memory: no runtime and no scanner. */
  class GuardedRecordBatchReader {
    const inner: Inner
    var polls: nat
    var open: bool
    var poisoned: bool

    constructor (inner: Inner)
      ensures this.inner == inner && View() == FreshGuard(READER_PANIC)
      ensures polls == 0 && open && !poisoned
    {
      this.inner := inner;
      polls, open, poisoned := 0, true, false;
    }

    function View(): Guard
      reads this
    {
      Guard(polls, open, poisoned, READER_PANIC)
    }

    method Next() returns (item: Item)
      modifies this
      ensures (item, View()) == NextOf(inner, old(View()), false)
      ensures old(poisoned) || !old(open) ==> item == Done && View() == old(View())
      ensures !old(poisoned) && old(open) ==>
                && IsAnswer(inner(old(polls)), "panic in record batch reader: ", item) && polls == old(polls) + 1
                && (poisoned <==> inner(old(polls)).Panic?)
    {
      if poisoned || !open { return Done; }
      var event := inner(polls);
      AnswersAreFaithful(event, READER_PANIC);
      polls := polls + 1;
      if event.Panic? {
        poisoned := true;
        return PanicItem(READER_PANIC, event.message);
      }
      return Relay(event);
    }
  }

  // ---------------------------------------------------------------------------
  // Whole runs of one reader
  // ---------------------------------------------------------------------------

  function Outputs(inner: Inner, g: Guard, calls: seq<bool>): seq<Item>
    decreases |calls|
  {
    if calls == [] then []
    else
      var (item, next) := NextOf(inner, g, calls[0]);
      [item] + Outputs(inner, next, calls[1..])
  }

  function AfterCalls(inner: Inner, g: Guard, calls: seq<bool>): Guard
    decreases |calls|
  {
    if calls == [] then g else AfterCalls(inner, NextOf(inner, g, calls[0]).1, calls[1..])
  }

  /** Call number `i` panics, when the calls start at poll number `from`. */
  predicate PanicsAt(inner: Inner, from: nat, calls: seq<bool>, i: nat)
    requires i < |calls|
  {
    calls[i] || inner(from + i).Panic?
  }

  predicate NoPanicBefore(inner: Inner, from: nat, calls: seq<bool>, k: nat)
    requires k <= |calls|
  {
    forall i: nat | i < k :: !PanicsAt(inner, from, calls, i)
  }

  lemma NoPanicShifts(inner: Inner, from: nat, calls: seq<bool>, k: nat)
    requires 0 < k <= |calls| && NoPanicBefore(inner, from, calls, k)
    ensures !PanicsAt(inner, from, calls, 0) && NoPanicBefore(inner, from + 1, calls[1..], k - 1)
  {
    var next, rest := from + 1, calls[1..];
    forall i: nat | i < k - 1 ensures !PanicsAt(inner, next, rest, i) {
      assert !PanicsAt(inner, from, calls, i + 1);
      assert next + i == from + (i + 1);
    }
  }

  lemma {:induction false} PoisonedYieldsNothing(inner: Inner, g: Guard, calls: seq<bool>)
    requires g.poisoned || !g.open
    ensures Outputs(inner, g, calls) == seq(|calls|, i => Done)
    ensures AfterCalls(inner, g, calls) == g
    decreases |calls|
  {
    if calls != [] { PoisonedYieldsNothing(inner, g, calls[1..]); }
  }

  lemma {:induction false} ItemBeforePanic(inner: Inner, g: Guard, calls: seq<bool>, j: nat)
    requires g.open && !g.poisoned && j < |calls| && NoPanicBefore(inner, g.polls, calls, j + 1)
    ensures |Outputs(inner, g, calls)| == |calls|
    ensures !PanicsAt(inner, g.polls, calls, j) && Outputs(inner, g, calls)[j] == Relay(inner(g.polls + j))
    decreases j
  {
    OutputsLength(inner, g, calls);
    if j > 0 {
      NoPanicShifts(inner, g.polls, calls, j + 1);
      var next := g.(polls := g.polls + 1);
      ItemBeforePanic(inner, next, calls[1..], j - 1);
      assert next.polls + (j - 1) == g.polls + j;
    }
  }

  lemma CallWithoutPanic(inner: Inner, g: Guard, calls: seq<bool>)
    requires g.open && !g.poisoned && calls != [] && !PanicsAt(inner, g.polls, calls, 0)
    ensures NextOf(inner, g, calls[0]) == (Relay(inner(g.polls)), g.(polls := g.polls + 1))
    ensures Outputs(inner, g, calls) ==
            [Relay(inner(g.polls))] + Outputs(inner, g.(polls := g.polls + 1), calls[1..])
  {
    assert g.polls + 0 == g.polls;
  }

  lemma {:induction false} PollsBeforePanic(inner: Inner, g: Guard, calls: seq<bool>, k: nat)
    requires g.open && !g.poisoned && k <= |calls| && NoPanicBefore(inner, g.polls, calls, k)
    ensures AfterCalls(inner, g, calls[..k]) == g.(polls := g.polls + k)
    decreases k
  {
    if k == 0 {
      assert calls[..0] == [];
    } else {
      NoPanicShifts(inner, g.polls, calls, k);
      CallWithoutPanic(inner, g, calls);
      var next := g.(polls := g.polls + 1);
      PollsBeforePanic(inner, next, calls[1..], k - 1);
      assert calls[..k][1..] == calls[1..][..k - 1];
    }
  }

  lemma DropOneMore<T>(x: T, s: seq<T>, k: nat)
    requires 0 < k <= |s| + 1
    ensures ([x] + s)[k..] == s[k - 1..]
  {
  }

  lemma {:induction false} SuffixBeforePanic(inner: Inner, g: Guard, calls: seq<bool>, k: nat)
    requires g.open && !g.poisoned && k <= |calls| && NoPanicBefore(inner, g.polls, calls, k)
    ensures |Outputs(inner, g, calls)| == |calls|
    ensures Outputs(inner, g, calls)[k..] == Outputs(inner, g.(polls := g.polls + k), calls[k..])
    decreases k
  {
    OutputsLength(inner, g, calls);
    if k == 0 {
      assert calls[0..] == calls;
    } else {
      NoPanicShifts(inner, g.polls, calls, k);
      CallWithoutPanic(inner, g, calls);
      var next := g.(polls := g.polls + 1);
      var rest := calls[1..];
      SuffixBeforePanic(inner, next, rest, k - 1);
      DropOneMore(Relay(inner(g.polls)), Outputs(inner, next, rest), k);
      DropOneMore(calls[0], rest, k);
      assert calls == [calls[0]] + rest;
    }
  }

  lemma AnswerBeforePanic(inner: Inner, g: Guard, calls: seq<bool>, j: nat)
    requires g.open && !g.poisoned && j < |calls| && NoPanicBefore(inner, g.polls, calls, j + 1)
    ensures |Outputs(inner, g, calls)| == |calls|
    ensures !PanicsAt(inner, g.polls, calls, j) && Outputs(inner, g, calls)[j] == Relay(inner(g.polls + j))
    ensures IsAnswer(inner(g.polls + j), g.prefix, Outputs(inner, g, calls)[j])
  {
    ItemBeforePanic(inner, g, calls, j);
    AnswersAreFaithful(inner(g.polls + j), g.prefix);
  }

  /** While nothing panics the reader is transparent, past an end of stream too: it hands out the inner
      stream's batches, errors and ends, one poll a call, and nothing else. The text of an error is
      escaped, and is the error's own text if and only if that has no NUL. */
  lemma TransparentUntilPanic(inner: Inner, g: Guard, calls: seq<bool>, k: nat)
    requires g.open && !g.poisoned && k <= |calls| && NoPanicBefore(inner, g.polls, calls, k)
    ensures |Outputs(inner, g, calls)| == |calls|
    ensures AfterCalls(inner, g, calls[..k]) == g.(polls := g.polls + k)
    ensures Outputs(inner, g, calls)[k..] == Outputs(inner, g.(polls := g.polls + k), calls[k..])
    ensures forall j: nat | j < k ::
              !PanicsAt(inner, g.polls, calls, j) && Outputs(inner, g, calls)[j] == Relay(inner(g.polls + j))
    ensures forall j: nat | j < k :: IsAnswer(inner(g.polls + j), g.prefix, Outputs(inner, g, calls)[j])
  {
    PollsBeforePanic(inner, g, calls, k);
    SuffixBeforePanic(inner, g, calls, k);
    forall j: nat | j < k
      ensures !PanicsAt(inner, g.polls, calls, j) && Outputs(inner, g, calls)[j] == Relay(inner(g.polls + j))
      ensures IsAnswer(inner(g.polls + j), g.prefix, Outputs(inner, g, calls)[j])
    {
      AnswerBeforePanic(inner, g, calls, j);
    }
  }

  lemma {:induction false} OutputsLength(inner: Inner, g: Guard, calls: seq<bool>)
    ensures |Outputs(inner, g, calls)| == |calls|
    decreases |calls|
  {
    if calls != [] { OutputsLength(inner, NextOf(inner, g, calls[0]).1, calls[1..]); }
  }

  lemma {:induction false} AfterCallsSplits(inner: Inner, g: Guard, calls: seq<bool>, k: nat)
    requires k <= |calls|
    ensures AfterCalls(inner, g, calls) == AfterCalls(inner, AfterCalls(inner, g, calls[..k]), calls[k..])
    decreases k
  {
    if k > 0 {
      AfterCallsSplits(inner, NextOf(inner, g, calls[0]).1, calls[1..], k - 1);
      assert calls[1..][k - 1..] == calls[k..] && calls[..k][1..] == calls[1..][..k - 1];
    } else {
      assert calls[0..] == calls;
    }
  }

  /** At the first panic the reader gives one error, then the end of the stream for good, and
      it does not poll the inner stream again. */
  lemma FusedAfterPanic(inner: Inner, g: Guard, calls: seq<bool>, k: nat)
    requires g.open && !g.poisoned && k < |calls|
    requires NoPanicBefore(inner, g.polls, calls, k) && PanicsAt(inner, g.polls, calls, k)
    ensures var out := Outputs(inner, g, calls);
            && |out| == |calls|
            && out[k] == Error(Sanitize(g.prefix + if calls[k] then RUNTIME_PANIC else inner(g.polls + k).message))
            && (forall j | k < j < |calls| :: out[j] == Done)
    ensures var after := AfterCalls(inner, g, calls);
            after.poisoned && after.polls == g.polls + k + if calls[k] then 0 else 1
  {
    var out := Outputs(inner, g, calls);
    var before := g.(polls := g.polls + k);
    TransparentUntilPanic(inner, g, calls, k);
    AfterCallsSplits(inner, g, calls, k);
    var (item, poisoned) := NextOf(inner, before, calls[k..][0]);
    assert poisoned.poisoned && item.Error?;
    PoisonedYieldsNothing(inner, poisoned, calls[k..][1..]);
    assert out[k..] == [item] + seq(|calls[k..][1..]|, i => Done);
    forall j | k < j < |calls| ensures out[j] == Done {
      assert out[j] == out[k..][j - k];
    }
    assert out[k] == out[k..][0];
  }

  // ---------------------------------------------------------------------------
  // A scanner and the streams exported from it
  // ---------------------------------------------------------------------------

  /** An asynchronous scan was checked when it was called, and exports its stream later. A checked
      call may itself catch a panic. */
  datatype Action =
    | Export(id: ReaderId, inner: Inner, asynchronous: bool)
    | Next(id: ReaderId, driving: bool)
    | Drop(id: ReaderId)
    | CheckedCall(panics: bool)

  datatype Stream = Stream(inner: Inner, guard: Guard)

  /** `callPanicked` is history: some checked call has caught a panic. */
  datatype State = State(streams: map<ReaderId, Stream>, poisoned: bool, callPanicked: bool)

  datatype Reply = Delivered(item: Item) | Accepted | Rejected

  predicate Enabled(s: State, a: Action) {
    match a
    case Export(id, _, _) => id !in s.streams
    case Next(id, _) => id in s.streams && s.streams[id].guard.open
    case Drop(id) => id in s.streams
    case CheckedCall(_) => true
  }

  function Step(s: State, a: Action): (Reply, State)
    requires Enabled(s, a)
  {
    match a
    case Export(id, inner, asynchronous) =>
      if s.poisoned && !asynchronous then (Rejected, s)
      else (Accepted, s.(streams := s.streams[id := Stream(inner, FreshGuard(STREAM_PANIC))]))
    case Next(id, driving) =>
      var stream := s.streams[id];
      var (item, guard) := NextOf(stream.inner, stream.guard, driving);
      (Delivered(item),
       s.(streams := s.streams[id := stream.(guard := guard)],
          poisoned := s.poisoned || (guard.poisoned && !stream.guard.poisoned)))
    case Drop(id) =>
      (Accepted, s.(streams := s.streams[id := s.streams[id].(guard := s.streams[id].guard.(open := false))]))
    case CheckedCall(panics) =>
      if s.poisoned then (Rejected, s)
      else if panics then (Rejected, s.(poisoned := true, callPanicked := true))
      else (Accepted, s)
  }

  predicate IsRun(s: State, run: seq<Action>)
    decreases |run|
  {
    run == [] || (Enabled(s, run[0]) && IsRun(Step(s, run[0]).1, run[1..]))
  }

  function End(s: State, run: seq<Action>): State
    requires IsRun(s, run)
    decreases |run|
  {
    if run == [] then s else End(Step(s, run[0]).1, run[1..])
  }

  const FRESH_SCANNER: State := State(map[], false, false)

  ghost predicate FlagIsExact(s: State) {
    s.poisoned <==> s.callPanicked || exists id | id in s.streams :: s.streams[id].guard.poisoned
  }

  lemma StepKeepsFlag(s: State, a: Action)
    requires FlagIsExact(s) && Enabled(s, a)
    ensures FlagIsExact(Step(s, a).1) && (s.poisoned ==> Step(s, a).1.poisoned)
  {
    var next := Step(s, a).1;
    if s.poisoned && s.callPanicked {
      assert next.callPanicked;
    } else if s.poisoned {
      var id :| id in s.streams && s.streams[id].guard.poisoned;
      assert id in next.streams && next.streams[id].guard.poisoned;
    } else if a.CheckedCall? {
    } else if a.Next? {
      forall id | id in next.streams && id != a.id ensures !next.streams[id].guard.poisoned {
        assert id in s.streams && next.streams[id] == s.streams[id];
      }
      assert a.id in s.streams && a.id in next.streams;
    } else {
      forall id | id in next.streams ensures !next.streams[id].guard.poisoned {
        if id in s.streams { assert next.streams[id].guard.poisoned == s.streams[id].guard.poisoned; }
      }
    }
  }

  lemma {:induction false} RunKeepsFlag(s: State, run: seq<Action>)
    requires FlagIsExact(s) && IsRun(s, run)
    ensures FlagIsExact(End(s, run)) && (s.poisoned ==> End(s, run).poisoned)
    decreases |run|
  {
    if run != [] {
      var next := Step(s, run[0]).1;
      StepKeepsFlag(s, run[0]);
      RunKeepsFlag(next, run[1..]);
    }
  }

  /** The scanner is poisoned exactly when one of its streams or one of its calls has caught a
      panic; from then on each checked call on the handle fails, and before that none does that does
      not panic itself. */
  lemma PoisonIsExactAndSticky(before: seq<Action>, after: seq<Action>, panics: bool)
    requires IsRun(FRESH_SCANNER, before) && IsRun(End(FRESH_SCANNER, before), after)
    ensures var s := End(FRESH_SCANNER, before);
            s.poisoned <==> s.callPanicked || exists id | id in s.streams :: s.streams[id].guard.poisoned
    ensures var s := End(End(FRESH_SCANNER, before), after);
            End(FRESH_SCANNER, before).poisoned ==> Step(s, CheckedCall(panics)) == (Rejected, s)
    ensures var s := End(FRESH_SCANNER, before);
            !s.poisoned ==> Step(s, CheckedCall(false)) == (Accepted, s) && Step(s, CheckedCall(true)).1.poisoned
  {
    RunKeepsFlag(FRESH_SCANNER, before);
    RunKeepsFlag(End(FRESH_SCANNER, before), after);
  }

  /** The items that one stream delivers during a run. */
  function ItemsOf(s: State, run: seq<Action>, id: ReaderId): seq<Item>
    requires IsRun(s, run)
    decreases |run|
  {
    if run == [] then []
    else
      var (reply, next) := Step(s, run[0]);
      (if run[0].Next? && run[0].id == id then [reply.item] else []) + ItemsOf(next, run[1..], id)
  }

  /** The calls that are made on one stream during a run. */
  function CallsOn(run: seq<Action>, id: ReaderId): seq<bool> {
    if run == [] then []
    else (if run[0].Next? && run[0].id == id then [run[0].driving] else []) + CallsOn(run[1..], id)
  }

  /** Streams do not disturb each other: whatever happens to the scanner and to the other
      streams, a stream delivers what it would deliver alone. */
  lemma {:induction false} StreamsAreIndependent(s: State, run: seq<Action>, id: ReaderId)
    requires IsRun(s, run) && id in s.streams && s.streams[id].guard.open
    ensures ItemsOf(s, run, id) == Outputs(s.streams[id].inner, s.streams[id].guard, CallsOn(run, id))
    decreases |run|
  {
    if run != [] {
      var (reply, next) := Step(s, run[0]);
      if run[0].Drop? && run[0].id == id {
        NoCallsAfterDrop(next, run[1..], id);
      } else {
        StreamsAreIndependent(next, run[1..], id);
        if run[0].Next? && run[0].id == id {
          assert CallsOn(run, id) == [run[0].driving] + CallsOn(run[1..], id);
          assert CallsOn(run, id)[1..] == CallsOn(run[1..], id);
        } else {
          assert next.streams[id] == s.streams[id];
          assert CallsOn(run, id) == CallsOn(run[1..], id);
        }
      }
    }
  }

  lemma {:induction false} NoCallsAfterDrop(s: State, run: seq<Action>, id: ReaderId)
    requires IsRun(s, run) && id in s.streams && !s.streams[id].guard.open
    ensures CallsOn(run, id) == [] && ItemsOf(s, run, id) == []
    decreases |run|
  {
    if run != [] { NoCallsAfterDrop(Step(s, run[0]).1, run[1..], id); }
  }
}
