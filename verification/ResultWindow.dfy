/** The result window of a nearest-neighbour plan (src/multivector.rs): offset and limit are applied
    below the nodes that fix the batch size, on rows in the order of their distance. */
module ResultWindow {
  import opened Common

  /** A row with its distance (`None` is null) and the rest of its columns. */
  datatype Row<T> = Row(distance: Option<int>, payload: T)

  type Batches<T> = seq<seq<Row<T>>>

  /** What one execution of a plan yields: partitions of batches of rows. */
  type Output<T> = seq<Batches<T>>

  /** `Other` is any plan that is not a strict-batch node, with the output of one execution. */
  datatype Plan<T> =
    | Other(columns: set<string>, output: Output<T>)
    | StrictBatch(size: nat, input: Plan<T>)
    | CoalescePartitions(input: Plan<T>)
    | SortByDistance(input: Plan<T>)
    | GlobalLimit(input: Plan<T>, offset: nat, limit: Option<nat>)

  datatype Error = NoSuchColumn(name: string)

  const DISTANCE: string := "_distance"

  function Columns<T>(plan: Plan<T>): set<string> {
    match plan
    case Other(columns, _) => columns
    case StrictBatch(_, input) => Columns(input)
    case CoalescePartitions(input) => Columns(input)
    case SortByDistance(input) => Columns(input)
    case GlobalLimit(input, _, _) => Columns(input)
  }

  function ApplyResultWindow<T>(plan: Plan<T>, offset: nat, limit: Option<nat>): Result<Plan<T>, Error> {
    if plan.StrictBatch? then
      var input := ApplyResultWindow(plan.input, offset, limit);
      if input.Failure? then input else Success(StrictBatch(plan.size, input.value))
    else if DISTANCE !in Columns(plan) then Failure(NoSuchColumn(DISTANCE))
    else Success(GlobalLimit(SortByDistance(CoalescePartitions(plan)), offset, limit))
  }

  // ---------------------------------------------------------------------------
  // What the nodes do
  // ---------------------------------------------------------------------------

  /** Ascending, nulls last. */
  predicate NoFarther<T>(a: Row<T>, b: Row<T>) {
    b.distance.None? || (a.distance.Some? && a.distance.value <= b.distance.value)
  }

  /** The nearer row comes first, and a row without a distance after all that have one. */
  lemma NearerComesFirst<T>(a: Row<T>, b: Row<T>)
    ensures a.distance.Some? && b.distance.Some? ==> (NoFarther(a, b) <==> a.distance.value <= b.distance.value)
    ensures a.distance.Some? && b.distance.None? ==> NoFarther(a, b) && !NoFarther(b, a)
    ensures a.distance.None? && b.distance.None? ==> NoFarther(a, b)
  {
  }

  predicate InDistanceOrder<T>(rows: seq<Row<T>>) {
    forall i, j | 0 <= i < j < |rows| :: NoFarther(rows[i], rows[j])
  }

  predicate Strict<T>(batches: Batches<T>, size: nat) {
    && (forall i | 0 <= i < |batches| - 1 :: |batches[i]| == size)
    && (batches != [] ==> 0 < |batches[|batches| - 1]| <= size)
  }

  function Window<T>(rows: seq<T>, offset: nat, limit: Option<nat>): seq<T> {
    var rest := if offset <= |rows| then rows[offset..] else [];
    if limit.Some? && limit.value <= |rest| then rest[..limit.value] else rest
  }

  /** `merged` takes the batches of all partitions, each partition's in its own order. */
  ghost predicate Interleaves<T>(parts: Output<T>, merged: Batches<T>)
    decreases |merged|
  {
    if merged == [] then forall p | 0 <= p < |parts| :: parts[p] == []
    else
      exists p | 0 <= p < |parts| ::
        parts[p] != [] && parts[p][0] == merged[0] && Interleaves(parts[p := parts[p][1..]], merged[1..])
  }

  ghost predicate Yields<T(!new)>(plan: Plan<T>, out: Output<T>) {
    match plan
    case Other(_, output) => out == output
    case StrictBatch(size, input) =>
      exists o :: Yields(input, o) && |out| == |o| && forall p | 0 <= p < |o| :: Rechunks(o[p], out[p], size)
    case CoalescePartitions(input) =>
      exists o :: Yields(input, o) && |out| == 1 && Interleaves(o, out[0])
    case SortByDistance(input) =>
      exists o :: Yields(input, o) && |out| == |o| && forall p | 0 <= p < |o| :: Sorts(o[p], out[p])
    case GlobalLimit(input, offset, limit) =>
      exists o :: Yields(input, o) && |o| == 1 && |out| == 1 && Flatten(out[0]) == Window(Flatten(o[0]), offset, limit)
  }

  predicate Rechunks<T(==)>(before: Batches<T>, after: Batches<T>, size: nat) {
    Flatten(after) == Flatten(before) && Strict(after, size)
  }

  ghost predicate Sorts<T>(before: Batches<T>, after: Batches<T>) {
    InDistanceOrder(Flatten(after)) && multiset(Flatten(after)) == multiset(Flatten(before))
  }

  /** The rows of all partitions. */
  ghost function AllRows<T>(out: Output<T>): multiset<Row<T>> {
    if out == [] then multiset{} else multiset(Flatten(out[0])) + AllRows(out[1..])
  }

  // ---------------------------------------------------------------------------
  // Batches
  // ---------------------------------------------------------------------------

  function Chop<T>(rows: seq<Row<T>>, size: nat): Batches<T>
    requires size > 0
    decreases |rows|
  {
    if rows == [] then [] else if |rows| <= size then [rows] else [rows[..size]] + Chop(rows[size..], size)
  }

  /** A strict output is the only way to cut its rows: the batch boundaries follow from the rows. */
  lemma {:induction false} StrictIsChop<T>(batches: Batches<T>, size: nat)
    requires size > 0 && Strict(batches, size)
    ensures batches == Chop(Flatten(batches), size)
    decreases |batches|
  {
    if batches != [] {
      var first, rest := batches[0], batches[1..];
      assert batches == [first] + rest;
      if rest == [] {
        assert Flatten(batches) == first;
      } else {
        assert rest[|rest| - 1] == batches[|batches| - 1];
        forall i | 0 <= i < |rest| - 1 ensures |rest[i]| == size { assert rest[i] == batches[i + 1]; }
        StrictIsChop(rest, size);
        StrictHasRows(rest, size);
        var rows := Flatten(batches);
        assert rows == first + Flatten(rest);
        assert rows[..size] == first && rows[size..] == Flatten(rest);
      }
    }
  }

  lemma StrictHasRows<T>(batches: Batches<T>, size: nat)
    requires Strict(batches, size) && batches != [] && size > 0
    ensures |Flatten(batches)| > 0
  {
    assert |batches[0]| > 0;
  }

  lemma {:induction false} ChopIsStrict<T>(rows: seq<Row<T>>, size: nat)
    requires size > 0
    ensures Strict(Chop(rows, size), size) && Flatten(Chop(rows, size)) == rows
    decreases |rows|
  {
    if 0 < |rows| <= size {
      assert Flatten([rows]) == rows + Flatten<Row<T>>([]);
    } else if rows != [] {
      var rest := Chop(rows[size..], size);
      ChopIsStrict(rows[size..], size);
      assert rest != [] && Chop(rows, size)[1..] == rest;
      assert rows == rows[..size] + rows[size..];
    }
  }

  // ---------------------------------------------------------------------------
  // Merging loses no row
  // ---------------------------------------------------------------------------

  lemma {:induction false} AllRowsWithout<T>(out: Output<T>, p: nat)
    requires p < |out| && out[p] != []
    ensures AllRows(out) == AllRows(out[p := out[p][1..]]) + multiset(out[p][0])
    decreases p
  {
    var less := out[p := out[p][1..]];
    if p == 0 {
      assert less[1..] == out[1..];
      assert Flatten(out[0]) == out[0][0] + Flatten(out[0][1..]);
    } else {
      assert less[1..] == out[1..][p - 1 := out[p][1..]];
      AllRowsWithout(out[1..], p - 1);
    }
  }

  lemma {:induction false} AllRowsOfNothing<T>(out: Output<T>)
    requires forall p | 0 <= p < |out| :: out[p] == []
    ensures AllRows(out) == multiset{}
  {
    if out != [] { AllRowsOfNothing(out[1..]); }
  }

  lemma {:induction false} MergeKeepsRows<T>(parts: Output<T>, merged: Batches<T>)
    requires Interleaves(parts, merged)
    ensures multiset(Flatten(merged)) == AllRows(parts)
    decreases |merged|
  {
    if merged == [] {
      AllRowsOfNothing(parts);
    } else {
      var p :| 0 <= p < |parts| &&
        parts[p] != [] && parts[p][0] == merged[0] && Interleaves(parts[p := parts[p][1..]], merged[1..]);
      MergeKeepsRows(parts[p := parts[p][1..]], merged[1..]);
      AllRowsWithout(parts, p);
    }
  }

  lemma {:induction false} SameRowsPartByPart<T>(a: Output<T>, b: Output<T>)
    requires |a| == |b| && forall p | 0 <= p < |a| :: Flatten(a[p]) == Flatten(b[p])
    ensures AllRows(a) == AllRows(b)
  {
    if a != [] { SameRowsPartByPart(a[1..], b[1..]); }
  }

  // ---------------------------------------------------------------------------
  // The rewritten plan
  // ---------------------------------------------------------------------------

  function Core<T>(plan: Plan<T>): Plan<T> {
    if plan.StrictBatch? then Core(plan.input) else plan
  }

  function StackSizes<T>(plan: Plan<T>): seq<nat> {
    if plan.StrictBatch? then [plan.size] + StackSizes(plan.input) else []
  }

  /** It fails exactly when the rows carry no distance, and otherwise keeps the stack of
      strict-batch nodes, with the window as the only change beneath it. */
  lemma {:induction false} WindowKeepsTheStack<T>(plan: Plan<T>, offset: nat, limit: Option<nat>)
    ensures var r := ApplyResultWindow(plan, offset, limit);
            && (r.Success? <==> "_distance" in Columns(plan))
            && (r.Success? ==>
                  && StackSizes(r.value) == StackSizes(plan)
                  && Core(r.value) == GlobalLimit(SortByDistance(CoalescePartitions(Core(plan))), offset, limit))
  {
    if plan.StrictBatch? { WindowKeepsTheStack(plan.input, offset, limit); }
  }

  ghost predicate IsWindowOf<T(!new)>(out: Batches<T>, rows: multiset<Row<T>>, offset: nat, limit: Option<nat>) {
    exists sorted ::
      InDistanceOrder(sorted) && multiset(sorted) == rows && Flatten(out) == Window(sorted, offset, limit)
  }

  lemma {:induction false} StackKeepsRows<T(!new)>(plan: Plan<T>, out: Output<T>)
    requires Yields(plan, out) && Core(plan).Other?
    ensures AllRows(out) == AllRows(Core(plan).output)
  {
    if plan.StrictBatch? {
      var o :| Yields(plan.input, o) && |out| == |o| && forall p | 0 <= p < |o| :: Rechunks(o[p], out[p], plan.size);
      StackKeepsRows(plan.input, o);
      SameRowsPartByPart(out, o);
    }
  }

  lemma InnermostWindow<T(!new)>(plan: Plan<T>, offset: nat, limit: Option<nat>, out: Output<T>)
    requires plan.Other? && Yields(GlobalLimit(SortByDistance(CoalescePartitions(plan)), offset, limit), out)
    ensures |out| == 1 && IsWindowOf(out[0], AllRows(plan.output), offset, limit)
  {
    var coalesce := CoalescePartitions(plan);
    var sort := SortByDistance(coalesce);
    var o :| Yields(sort, o) && |o| == 1 && |out| == 1 && Flatten(out[0]) == Window(Flatten(o[0]), offset, limit);
    var c :| Yields(coalesce, c) && |o| == |c| && forall p | 0 <= p < |c| :: Sorts(c[p], o[p]);
    var source :| Yields(plan, source) && |c| == 1 && Interleaves(source, c[0]);
    assert source == plan.output;
    MergeKeepsRows(plan.output, c[0]);
    assert Sorts(c[0], o[0]);
  }

  /** Every execution of the rewritten plan yields, in one partition, the offset and limit window
      of a distance-ordered permutation of the rows that any execution of the original plan over
      the same source yields; and where the original plan ends in a strict-batch node, so does
      the result: every batch but the last has exactly its size. */
  lemma {:induction false} WindowIsExact<T(!new)>(
    plan: Plan<T>, offset: nat, limit: Option<nat>, original: Output<T>, out: Output<T>)
    requires Core(plan).Other? && DISTANCE in Columns(plan) && Yields(plan, original)
    requires ApplyResultWindow(plan, offset, limit).Success?
    requires Yields(ApplyResultWindow(plan, offset, limit).value, out)
    ensures |out| == 1 && IsWindowOf(out[0], AllRows(original), offset, limit)
    ensures plan.StrictBatch? ==> Strict(out[0], plan.size)
    ensures plan.StrictBatch? ==>
              && (forall i | 0 <= i < |out[0]| - 1 :: |out[0][i]| == plan.size)
              && (out[0] != [] ==> 0 < |out[0][|out[0]| - 1]| <= plan.size)
  {
    StackKeepsRows(plan, original);
    if plan.StrictBatch? {
      var windowed := ApplyResultWindow(plan, offset, limit).value;
      var o :| Yields(windowed.input, o) && |out| == |o|
        && forall p | 0 <= p < |o| :: Rechunks(o[p], out[p], plan.size);
      var inner :| Yields(plan.input, inner) && |original| == |inner|
        && forall p | 0 <= p < |inner| :: Rechunks(inner[p], original[p], plan.size);
      SameRowsPartByPart(original, inner);
      WindowIsExact(plan.input, offset, limit, inner, o);
      assert Rechunks(o[0], out[0], plan.size);
    } else {
      InnermostWindow(plan, offset, limit, out);
    }
  }

  /** The window is the slice after `offset`, of the nearest rows: a row it cuts off or skips is on the
      right side of every row that it keeps. */
  lemma WindowSeparates<T>(sorted: seq<Row<T>>, offset: nat, limit: Option<nat>, i: nat, j: nat)
    requires InDistanceOrder(sorted) && i < |sorted| && j < |Window(sorted, offset, limit)|
    ensures i < offset ==> NoFarther(sorted[i], Window(sorted, offset, limit)[j])
    ensures limit.Some? && i >= offset + limit.value ==> NoFarther(Window(sorted, offset, limit)[j], sorted[i])
    ensures offset + j < |sorted| && Window(sorted, offset, limit)[j] == sorted[offset + j]
    ensures |Window(sorted, offset, limit)| ==
            var rest := if offset <= |sorted| then |sorted| - offset else 0;
            if limit.Some? then Min(limit.value, rest) else rest
  {
    assert Window(sorted, offset, limit)[j] == sorted[offset + j];
  }

  // ---------------------------------------------------------------------------
  // The rewritten plan can run
  // ---------------------------------------------------------------------------

  lemma {:induction false} NothingLeft<T>(parts: Output<T>)
    requires Flatten(parts) == []
    ensures forall p | 0 <= p < |parts| :: parts[p] == []
  {
    if parts != [] { NothingLeft(parts[1..]); }
  }

  lemma {:induction false} TakeFromFirst<T>(parts: Output<T>) returns (p: nat)
    requires Flatten(parts) != []
    ensures p < |parts| && parts[p] != [] && parts[p][0] == Flatten(parts)[0]
    ensures Flatten(parts[p := parts[p][1..]]) == Flatten(parts)[1..]
  {
    if parts[0] != [] {
      p := 0;
      assert parts[0 := parts[0][1..]][1..] == parts[1..];
    } else {
      var q := TakeFromFirst(parts[1..]);
      p := q + 1;
      assert parts[p := parts[p][1..]][1..] == parts[1..][q := parts[1..][q][1..]];
    }
  }

  lemma {:induction false} OneAfterAnother<T>(parts: Output<T>, merged: Batches<T>)
    requires merged == Flatten(parts)
    ensures Interleaves(parts, merged)
    decreases |merged|
  {
    if merged == [] {
      NothingLeft(parts);
    } else {
      var p := TakeFromFirst(parts);
      OneAfterAnother(parts[p := parts[p][1..]], merged[1..]);
    }
  }

  function Insert<T>(row: Row<T>, rows: seq<Row<T>>): seq<Row<T>> {
    if rows == [] || NoFarther(row, rows[0]) then [row] + rows else [rows[0]] + Insert(row, rows[1..])
  }

  function SortRows<T>(rows: seq<Row<T>>): seq<Row<T>> {
    if rows == [] then [] else Insert(rows[0], SortRows(rows[1..]))
  }

  lemma {:induction false} InsertSorts<T>(row: Row<T>, rows: seq<Row<T>>)
    requires InDistanceOrder(rows)
    ensures InDistanceOrder(Insert(row, rows))
    ensures multiset(Insert(row, rows)) == multiset(rows) + multiset{row}
  {
    if rows == [] || NoFarther(row, rows[0]) {
    } else {
      var first, rest := rows[0], rows[1..];
      InsertSorts(row, rest);
      assert rows == [first] + rest;
      var inserted := Insert(row, rest);
      forall j | 0 <= j < |inserted| ensures NoFarther(first, inserted[j]) {
        assert inserted[j] in multiset(inserted);
        assert inserted[j] == row || inserted[j] in rest;
      }
    }
  }

  lemma {:induction false} SortRowsSorts<T>(rows: seq<Row<T>>)
    ensures InDistanceOrder(SortRows(rows)) && multiset(SortRows(rows)) == multiset(rows)
  {
    if rows != [] {
      SortRowsSorts(rows[1..]);
      InsertSorts(rows[0], SortRows(rows[1..]));
      assert rows == [rows[0]] + rows[1..];
    }
  }

  predicate PositiveSizes<T>(plan: Plan<T>) {
    plan.StrictBatch? ==> plan.size > 0 && PositiveSizes(plan.input)
  }

  lemma InnermostRuns<T(!new)>(plan: Plan<T>, offset: nat, limit: Option<nat>) returns (out: Output<T>)
    requires plan.Other?
    ensures Yields(GlobalLimit(SortByDistance(CoalescePartitions(plan)), offset, limit), out)
  {
    var merged := Flatten(plan.output);
    OneAfterAnother(plan.output, merged);
    assert Yields(plan, plan.output);
    assert Yields(CoalescePartitions(plan), [merged]);
    var sorted := SortRows(Flatten(merged));
    SortRowsSorts(Flatten(merged));
    assert Flatten([sorted]) == sorted;
    assert Sorts(merged, [sorted]);
    assert Yields(SortByDistance(CoalescePartitions(plan)), [[sorted]]);
    var kept := Window(sorted, offset, limit);
    assert Flatten([kept]) == kept;
    out := [[kept]];
  }

  /** The rewritten plan has an execution, so the guarantees above are never vacuous. */
  lemma {:induction false} WindowRuns<T(!new)>(plan: Plan<T>, offset: nat, limit: Option<nat>) returns (out: Output<T>)
    requires Core(plan).Other? && PositiveSizes(plan) && ApplyResultWindow(plan, offset, limit).Success?
    ensures Yields(ApplyResultWindow(plan, offset, limit).value, out)
  {
    if plan.StrictBatch? {
      var o := WindowRuns(plan.input, offset, limit);
      out := seq(|o|, p requires 0 <= p < |o| => Chop(Flatten(o[p]), plan.size));
      forall p | 0 <= p < |o| ensures Rechunks(o[p], out[p], plan.size) {
        ChopIsStrict(Flatten(o[p]), plan.size);
      }
    } else {
      out := InnermostRuns(plan, offset, limit);
    }
  }
}
