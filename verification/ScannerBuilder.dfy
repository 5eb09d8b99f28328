/** The scanner builder (src/scanner.rs): setters that come in any order share constraints across
    fields, and check products of machine integers. */
module ScannerBuilder {
  import opened Common

  const I32_MAX: int := 0x7FFF_FFFF
  const ISIZE_MAX: int := 0x7FFF_FFFF_FFFF_FFFF
  const MAX_BATCH_QUERIES: int := 128
  const MAX_BATCH_QUERY_BYTES: int := 64 * 1024 * 1024
  const MAX_BATCH_CANDIDATES: int := 100_000
  const MAX_QUERY_VECTORS: int := 128
  const MAX_QUERY_VECTOR_CANDIDATES: int := 100_000
  const QUERY_INDEX: string := "query_index"

  // ---------------------------------------------------------------------------
  // Products of machine integers
  // ---------------------------------------------------------------------------

  lemma ProductGrows(x: int, y: int)
    requires 0 <= x && 1 <= y
    ensures x <= x * y
  {
  }

  lemma ProductIsPositive(x: int, y: int)
    requires 0 <= x && 0 <= y
    ensures 0 <= x * y && (0 < x * y <==> 0 < x && 0 < y)
  {
  }

  datatype CountError = ByteSizeOverflows | ByteSizeExceedsLimit

  function BatchQueryValueCount(dimension: nat, numQueries: nat, width: nat): Result<nat, CountError> {
    var count := CheckedMul(dimension, numQueries);
    if count.None? then Failure(ByteSizeOverflows)
    else
      var bytes := CheckedMul(count.value, width);
      if bytes.None? then Failure(ByteSizeOverflows)
      else if bytes.value > MAX_BATCH_QUERY_BYTES then Failure(ByteSizeExceedsLimit)
      else Success(count.value)
  }

  /** The overflow checks are exact: the count is accepted precisely when the true byte size is
      within the limit, and then it is the true count. */
  lemma ValueCountIsExact(dimension: nat, numQueries: nat, width: nat)
    requires width > 0
    ensures var r := BatchQueryValueCount(dimension, numQueries, width);
            && (r.Success? <==> dimension * numQueries * width <= 67_108_864)
            && (r.Success? ==> r.value == dimension * numQueries)
            && (r == Failure(ByteSizeOverflows) <==> dimension * numQueries * width > U64_MAX)
  {
    ProductGrows(dimension * numQueries, width);
  }

  predicate ValidateBatchCandidates(numQueries: nat, k: nat, refineFactor: Option<nat>) {
    var refine := if refineFactor.Some? then refineFactor.value else 1;
    if refine == 0 then false
    else
      var n := CheckedMul(numQueries, k);
      if n.None? then false
      else
        var total := CheckedMul(n.value, refine);
        total.Some? && total.value <= MAX_BATCH_CANDIDATES
  }

  function Refine(refineFactor: Option<nat>): nat {
    if refineFactor.Some? then refineFactor.value else 1
  }

  /** The check agrees with the true product and a positive refine factor. Its message says that
      the product must be at least 1; that holds exactly for positive queries and k, which the
      callers check on their own. */
  lemma BatchCandidatesAreExact(numQueries: nat, k: nat, refineFactor: Option<nat>)
    ensures ValidateBatchCandidates(numQueries, k, refineFactor) <==>
            Refine(refineFactor) > 0 && numQueries * k * Refine(refineFactor) <= 100_000
    ensures ValidateBatchCandidates(numQueries, k, refineFactor) ==>
              (1 <= numQueries * k * Refine(refineFactor) <==> numQueries > 0 && k > 0)
  {
    if Refine(refineFactor) > 0 {
      ProductIsPositive(numQueries, k);
      ProductGrows(numQueries * k, Refine(refineFactor));
      ProductIsPositive(numQueries * k, Refine(refineFactor));
    }
  }

  lemma ZeroCandidatesAreAccepted()
    ensures ValidateBatchCandidates(1, 0, None)
  {
    BatchCandidatesAreExact(1, 0, None);
  }

  /** A check by division is exact for the product. */
  lemma DivisionBoundsTheProduct(x: nat, y: nat, limit: nat)
    requires y > 0
    ensures x <= limit / y <==> x * y <= limit
  {
    var q := limit / y;
    assert limit == y * q + limit % y;
    if x <= q {
      assert (q - x) * y >= 0;
    } else {
      assert (x - q - 1) * y >= 0;
    }
  }

  // ---------------------------------------------------------------------------
  // The nprobes range
  // ---------------------------------------------------------------------------

  datatype Rejection = Invalid

  datatype NprobesRange = NprobesRange(minimum: Option<nat>, maximum: Option<nat>) {
    static function Exact(nprobes: nat): Result<NprobesRange, Rejection> {
      if nprobes == 0 then Failure(Invalid) else Success(NprobesRange(Some(nprobes), Some(nprobes)))
    }

    function WithMinimum(n: nat): Result<NprobesRange, Rejection> {
      if n == 0 then Failure(Invalid)
      else if maximum.Some? && n > maximum.value then Failure(Invalid)
      else Success(this.(minimum := Some(n)))
    }

    function WithMaximum(n: nat): Result<NprobesRange, Rejection> {
      if n == 0 then Failure(Invalid)
      else if minimum.Some? && n < minimum.value then Failure(Invalid)
      else Success(this.(maximum := Some(n)))
    }

    /** Some number of partitions lies in the range, and each configured bound is positive. */
    predicate IsRange() {
      && (minimum.Some? ==> 0 < minimum.value)
      && (maximum.Some? ==> 0 < maximum.value)
      && (minimum.Some? && maximum.Some? ==> minimum.value <= maximum.value)
    }

    predicate Holds(n: nat) {
      (minimum.Some? ==> minimum.value <= n) && (maximum.Some? ==> n <= maximum.value)
    }
  }

  /** A new bound is accepted exactly when it is positive and leaves the range nonempty, and then
      the range holds the numbers that satisfy it and the other bound. */
  lemma BoundsAreExact(r: NprobesRange, n: nat, x: nat)
    requires r.IsRange()
    ensures r.WithMinimum(n).Success? <==> n > 0 && NprobesRange(Some(n), r.maximum).IsRange()
    ensures r.WithMaximum(n).Success? <==> n > 0 && NprobesRange(r.minimum, Some(n)).IsRange()
    ensures r.WithMinimum(n).Success? ==>
              && r.WithMinimum(n).value.IsRange() && r.WithMinimum(n).value.Holds(n)
              && (r.WithMinimum(n).value.Holds(x) <==> n <= x && NprobesRange(None, r.maximum).Holds(x))
    ensures r.WithMaximum(n).Success? ==>
              && r.WithMaximum(n).value.IsRange() && r.WithMaximum(n).value.Holds(n)
              && (r.WithMaximum(n).value.Holds(x) <==> x <= n && NprobesRange(r.minimum, None).Holds(x))
    ensures NprobesRange.Exact(n).Success? <==> n > 0
    ensures NprobesRange.Exact(n).Success? ==>
              NprobesRange.Exact(n).value.IsRange() && (NprobesRange.Exact(n).value.Holds(x) <==> x == n)
  {
  }

  // ---------------------------------------------------------------------------
  // The configuration
  // ---------------------------------------------------------------------------

  datatype Float = Finite(position: int) | NonFinite

  datatype ElementType = Float32 | Float16 | Float64 | UInt8 | Int8 | OtherElement

  datatype ColumnType =
    | FixedSizeList(element: ElementType, dimension: int)
    | ListOf(nullableChild: bool, child: ColumnType)
    | OtherColumn

  datatype Mode = Single | MultiVector | Batch(numQueries: nat)

  /** The query values with their shape: one row for a single vector. */
  datatype Matrix = Matrix(element: ElementType, dimension: nat, rows: nat, values: seq<Float>)

  datatype NearestQuery = NearestQuery(
    mode: Mode, column: string, query: Matrix, k: nat, lower: Option<Float>, upper: Option<Float>)

  /** A query context, with the identity of the dataset snapshot that it was prepared from. */
  datatype FtsContext = FtsContext(dataset: nat, id: nat)

  datatype Config = Config(
    dataset: nat, schema: map<string, ColumnType>,
    limit: Option<int>, offset: Option<int>, batchSizeBytes: Option<nat>, strictBatchSize: Option<bool>,
    nearest: Option<NearestQuery>, nprobes: NprobesRange, refineFactor: Option<nat>,
    ftsQuery: Option<nat>, ftsContext: Option<FtsContext>, started: bool, poisoned: bool)

  function New(dataset: nat, schema: map<string, ColumnType>): Config {
    Config(dataset, schema, None, None, None, None, None, NprobesRange(None, None), None, None, None, false, false)
  }

  function ElementOf(tag: int): ElementType {
    if tag == 0 then Float32 else if tag == 1 then Float16 else if tag == 2 then Float64
    else if tag == 3 then UInt8 else if tag == 4 then Int8 else OtherElement
  }

  function Width(e: ElementType): nat {
    match e
    case Float32 => 4
    case Float16 => 2
    case Float64 => 8
    case _ => 1
  }

  /** The wire tags and the element sizes. */
  lemma ElementTags()
    ensures ElementOf(0) == Float32 && ElementOf(1) == Float16 && ElementOf(2) == Float64
    ensures ElementOf(3) == UInt8 && ElementOf(4) == Int8
    ensures Width(Float32) == 4 && Width(Float16) == 2 && Width(Float64) == 8 && Width(UInt8) == 1 && Width(Int8) == 1
  {
  }

  predicate IsFloat(e: ElementType) {
    e.Float32? || e.Float16? || e.Float64?
  }

  predicate AllFinite(values: seq<Float>) {
    forall v | v in values :: v.Finite?
  }

  predicate IsBatch(c: Config) {
    c.nearest.Some? && c.nearest.value.mode.Batch?
  }

  /** What is checked of a batch's column and shape, before any value is read. */
  predicate FitsBatch(c: Config, column: string, element: ElementType, dimension: nat, rows: nat) {
    && 1 <= rows <= MAX_BATCH_QUERIES && 1 <= dimension <= I32_MAX
    && dimension * rows * Width(element) <= MAX_BATCH_QUERY_BYTES
    && column in c.schema && QUERY_INDEX !in c.schema
    && c.schema[column] == FixedSizeList(element, dimension)
  }

  predicate IsBatchQuery(c: Config, n: NearestQuery) {
    var q := n.query;
    && n.mode.Batch? && n.mode.numQueries == q.rows && FitsBatch(c, n.column, q.element, q.dimension, q.rows)
    && |q.values| == q.dimension * q.rows && (IsFloat(q.element) ==> AllFinite(q.values))
  }

  predicate FitsMultiVector(c: Config, column: string, element: ElementType, dimension: nat, rows: nat, k: nat) {
    && 1 <= rows <= MAX_QUERY_VECTORS && 1 <= dimension <= I32_MAX && IsFloat(element)
    && rows * k <= MAX_QUERY_VECTOR_CANDIDATES
    && column in c.schema && c.schema[column] == ListOf(false, FixedSizeList(element, dimension))
  }

  predicate IsMultiVectorQuery(c: Config, n: NearestQuery) {
    var q := n.query;
    && FitsMultiVector(c, n.column, q.element, q.dimension, q.rows, n.k)
    && |q.values| == q.dimension * q.rows && AllFinite(q.values)
  }

  predicate AreBounds(lower: Option<Float>, upper: Option<Float>) {
    && (lower.Some? ==> lower.value.Finite?)
    && (upper.Some? ==> upper.value.Finite?)
    && (lower.Some? && upper.Some? ==> lower.value.position < upper.value.position)
  }

  function Count(b: bool): nat {
    if b then 1 else 0
  }

  /** What the setters promise together. */
  predicate Inv(c: Config) {
    && Count(c.nearest.Some?) + Count(c.ftsQuery.Some?) + Count(c.ftsContext.Some?) <= 1
    && (c.ftsContext.Some? ==> c.ftsContext.value.dataset == c.dataset)
    && c.nprobes.IsRange()
    && (c.batchSizeBytes.Some? ==> c.batchSizeBytes.value > 0 && c.strictBatchSize != Some(true))
    && (c.nearest.Some? ==>
          var n := c.nearest.value;
          && n.k > 0 && AreBounds(n.lower, n.upper)
          && (n.lower.Some? || n.upper.Some? ==> n.mode.Single?)
          && (n.mode.Single? ==> n.query.rows == 1 && |n.query.values| == n.query.dimension)
          && (n.mode.MultiVector? ==> IsMultiVectorQuery(c, n))
          && (n.mode.Batch? ==>
                && c.limit.None? && c.offset.None? && IsBatchQuery(c, n)
                && 1 <= n.mode.numQueries * n.k * Refine(c.refineFactor) <= MAX_BATCH_CANDIDATES))
  }

  // ---------------------------------------------------------------------------
  // Calls: which are accepted, and what they change
  // ---------------------------------------------------------------------------

  /** `data` is the memory that the caller hands over, beside the shape it claims to have. A column
      name is `None` when it is not valid text; `upstreamAccepts` is the verdict of the query builder
      on the columns of a full-text query. */
  datatype Call =
    | SetLimit(limit: int)
    | SetOffset(offset: int)
    | SetBatchSizeBytes(bytes: nat)
    | SetStrictBatchSize(strict: bool)
    | SetRefineFactor(factor: nat)
    | SetDistanceRange(lower: Option<Float>, upper: Option<Float>)
    | SetNprobes(nprobes: nat)
    | SetMinimumNprobes(nprobes: nat)
    | SetMaximumNprobes(nprobes: nat)
    | Nearest(column: Option<string>, data: seq<Float>, length: nat, tag: int, k: nat)
    | NearestBatch(column: Option<string>, data: seq<Float>, dimension: nat, rows: nat, tag: int, k: nat)
    | NearestMultivector(column: Option<string>, data: seq<Float>, dimension: nat, rows: nat, tag: int, k: nat)
    | FullTextSearch(query: nat, upstreamAccepts: bool)
    | SetFtsQueryContext(context: Option<FtsContext>)

  /** The values of the shape, if the memory has as many. */
  function Values(data: seq<Float>, dimension: nat, rows: nat): seq<Float> {
    if 0 <= dimension * rows <= |data| then data[..dimension * rows] else data
  }

  predicate NoFts(c: Config) {
    c.ftsQuery.None? && c.ftsContext.None?
  }

  function SingleOf(call: Call): NearestQuery
    requires call.Nearest? && call.column.Some?
  {
    NearestQuery(Single, call.column.value,
                 Matrix(ElementOf(call.tag), call.length, 1, Values(call.data, call.length, 1)), call.k, None, None)
  }

  function BatchOf(call: Call): NearestQuery
    requires call.NearestBatch? && call.column.Some?
  {
    var values := Values(call.data, call.dimension, call.rows);
    NearestQuery(Batch(call.rows), call.column.value,
                 Matrix(ElementOf(call.tag), call.dimension, call.rows, values), call.k, None, None)
  }

  function MultiVectorOf(call: Call): NearestQuery
    requires call.NearestMultivector? && call.column.Some?
  {
    var values := Values(call.data, call.dimension, call.rows);
    NearestQuery(MultiVector, call.column.value,
                 Matrix(ElementOf(call.tag), call.dimension, call.rows, values), call.k, None, None)
  }

  /** The call passes every check that comes before its values are read. */
  predicate ReadsValues(c: Config, call: Call) {
    match call
    case Nearest(column, _, _, tag, k) => column.Some? && 0 <= tag <= 4 && k > 0 && NoFts(c)
    case NearestBatch(column, _, dimension, rows, tag, k) =>
      && !c.started && NoFts(c) && c.limit.None? && c.offset.None? && column.Some? && 0 <= tag <= 4
      && 1 <= rows * k * Refine(c.refineFactor) <= MAX_BATCH_CANDIDATES
      && FitsBatch(c, column.value, ElementOf(tag), dimension, rows)
    case NearestMultivector(column, _, dimension, rows, tag, k) =>
      && k > 0 && NoFts(c) && column.Some? && 0 <= tag <= 2
      && FitsMultiVector(c, column.value, ElementOf(tag), dimension, rows, k)
    case _ => false
  }

  function Claimed(call: Call): nat {
    match call
    case Nearest(_, _, length, _, _) => length
    case NearestBatch(_, _, dimension, rows, _, _) => Size(dimension, rows)
    case NearestMultivector(_, _, dimension, rows, _, _) => Size(dimension, rows)
    case _ => 0
  }

  function Size(dimension: nat, rows: nat): (r: nat)
    ensures r == dimension * rows
  {
    ProductIsPositive(dimension, rows);
    dimension * rows
  }

  /** All that is asked of a caller: memory of the claimed size, where it is going to be read. */
  predicate IsAddressable(c: Config, call: Call) {
    (call.Nearest? || call.NearestBatch? || call.NearestMultivector?) && !c.poisoned && ReadsValues(c, call) ==>
      |call.data| >= Claimed(call)
  }

  /** The call comes at a time and with arguments for which its effect can be told. */
  predicate Applicable(c: Config, call: Call) {
    match call
    case SetLimit(_) => true
    case SetOffset(_) => true
    case SetRefineFactor(_) => IsBatch(c) ==> !c.started
    case SetDistanceRange(_, _) => !c.started && c.nearest.Some? && c.nearest.value.mode.Single?
    case Nearest(column, _, _, tag, _) => column.Some? && 0 <= tag <= 4
    case NearestBatch(column, _, _, _, tag, _) => !c.started && column.Some? && 0 <= tag <= 4
    case NearestMultivector(column, _, _, _, tag, _) => column.Some? && 0 <= tag <= 2
    case FullTextSearch(_, upstreamAccepts) => upstreamAccepts
    case SetFtsQueryContext(context) => context.Some?
    case _ => !c.started
  }

  function Effect(c: Config, call: Call): Config
    requires Applicable(c, call)
  {
    match call
    case SetLimit(limit) => c.(limit := Some(limit))
    case SetOffset(offset) => c.(offset := Some(offset))
    case SetBatchSizeBytes(bytes) => c.(batchSizeBytes := Some(bytes))
    case SetStrictBatchSize(strict) => c.(strictBatchSize := Some(strict))
    case SetRefineFactor(factor) => c.(refineFactor := Some(factor))
    case SetDistanceRange(lower, upper) => c.(nearest := Some(c.nearest.value.(lower := lower, upper := upper)))
    case SetNprobes(n) => c.(nprobes := NprobesRange(Some(n), Some(n)))
    case SetMinimumNprobes(n) => c.(nprobes := c.nprobes.(minimum := Some(n)))
    case SetMaximumNprobes(n) => c.(nprobes := c.nprobes.(maximum := Some(n)))
    case Nearest(_, _, _, _, _) => c.(nearest := Some(SingleOf(call)))
    case NearestBatch(_, _, _, _, _, _) => c.(nearest := Some(BatchOf(call)))
    case NearestMultivector(_, _, _, _, _, _) => c.(nearest := Some(MultiVectorOf(call)))
    case FullTextSearch(query, _) => c.(ftsQuery := Some(query))
    case SetFtsQueryContext(context) => c.(ftsContext := context)
  }

  /** When a healthy scanner accepts the call, in terms of true products and the query stored. Memory
      that is shorter than what is read of it, which no caller may hand over, counts as a rejection. */
  predicate Accepts(c: Config, call: Call) {
    match call
    case SetLimit(_) => !IsBatch(c)
    case SetOffset(_) => !IsBatch(c)
    case SetBatchSizeBytes(bytes) => bytes > 0 && !c.started && c.strictBatchSize != Some(true)
    case SetStrictBatchSize(strict) => !c.started && !(strict && c.batchSizeBytes.Some?)
    case SetRefineFactor(factor) =>
      IsBatch(c) ==>
        var n := c.nearest.value;
        !c.started && factor > 0 && n.mode.numQueries * n.k * factor <= MAX_BATCH_CANDIDATES
    case SetDistanceRange(lower, upper) =>
      !c.started && c.nearest.Some? && c.nearest.value.mode.Single? && AreBounds(lower, upper)
    case SetNprobes(n) => !c.started && n > 0
    case SetMinimumNprobes(n) => !c.started && n > 0 && (c.nprobes.maximum.Some? ==> n <= c.nprobes.maximum.value)
    case SetMaximumNprobes(n) => !c.started && n > 0 && (c.nprobes.minimum.Some? ==> c.nprobes.minimum.value <= n)
    case Nearest(_, data, length, _, _) => ReadsValues(c, call) && length <= |data|
    case NearestBatch(_, _, _, _, _, _) => ReadsValues(c, call) && IsBatchQuery(c, BatchOf(call))
    case NearestMultivector(_, _, _, _, _, _) => ReadsValues(c, call) && IsMultiVectorQuery(c, MultiVectorOf(call))
    case FullTextSearch(_, upstreamAccepts) => c.nearest.None? && c.ftsContext.None? && upstreamAccepts
    case SetFtsQueryContext(context) =>
      context.Some? && c.nearest.None? && c.ftsQuery.None? && context.value.dataset == c.dataset
  }

  /** Poisoned handles and rejected calls keep the configuration. */
  function Apply(c: Config, call: Call): Config {
    if !c.poisoned && Accepts(c, call) then Effect(c, call) else c
  }

  lemma BatchIsSound(c: Config, call: Call)
    requires Inv(c) && call.NearestBatch? && Applicable(c, call)
    ensures Accepts(c, call) <==> Inv(Effect(c, call))
  {
    ProductIsPositive(call.rows, call.k);
    ProductIsPositive(call.rows * call.k, Refine(c.refineFactor));
    assert IsBatchQuery(Effect(c, call), BatchOf(call)) <==> IsBatchQuery(c, BatchOf(call));
  }

  lemma MultiVectorIsSound(c: Config, call: Call)
    requires Inv(c) && call.NearestMultivector? && Applicable(c, call)
    ensures Accepts(c, call) <==> Inv(Effect(c, call))
  {
    assert IsMultiVectorQuery(Effect(c, call), MultiVectorOf(call)) <==> IsMultiVectorQuery(c, MultiVectorOf(call));
  }

  lemma RefineIsSound(c: Config, factor: nat)
    requires Inv(c) && Applicable(c, SetRefineFactor(factor))
    ensures Accepts(c, SetRefineFactor(factor)) <==> Inv(Effect(c, SetRefineFactor(factor)))
  {
    var after := Effect(c, SetRefineFactor(factor));
    if IsBatch(c) {
      var n := c.nearest.value;
      ProductIsPositive(n.mode.numQueries, n.k);
      ProductIsPositive(n.mode.numQueries * n.k, factor);
      assert IsBatchQuery(after, n);
    } else if c.nearest.Some? && c.nearest.value.mode.MultiVector? {
      assert IsMultiVectorQuery(after, c.nearest.value);
    }
  }

  /** The setters accept exactly the calls that keep the constraints: from a sound configuration,
      an applicable call is accepted if and only if its effect is sound. */
  lemma AcceptedExactlyWhenSound(c: Config, call: Call)
    requires Inv(c)
    ensures Accepts(c, call) <==> Applicable(c, call) && Inv(Effect(c, call))
  {
    if Applicable(c, call) {
      match call
      case NearestBatch(_, _, _, _, _, _) => BatchIsSound(c, call);
      case NearestMultivector(_, _, _, _, _, _) => MultiVectorIsSound(c, call);
      case SetRefineFactor(factor) => RefineIsSound(c, factor);
      case _ =>
    }
  }

  // ---------------------------------------------------------------------------
  // Any run of setters and scans
  // ---------------------------------------------------------------------------

  /** `Build` starts a scan; `Panic` is a panic caught in any operation of the handle. */
  datatype Action = Do(call: Call) | Build | Panic

  function Step(c: Config, a: Action): Config {
    match a
    case Do(call) => Apply(c, call)
    case Build => if c.poisoned then c else c.(started := true)
    case Panic => c.(poisoned := true)
  }

  function After(c: Config, run: seq<Action>): Config {
    if run == [] then c else Step(After(c, run[..|run| - 1]), run[|run| - 1])
  }

  lemma StepKeeps(c: Config, a: Action)
    requires Inv(c)
    ensures Inv(Step(c, a)) && Step(c, a).dataset == c.dataset
  {
    if a.Do? && Accepts(c, a.call) { AcceptedExactlyWhenSound(c, a.call); }
  }

  lemma {:induction false} RunKeeps(c: Config, run: seq<Action>)
    requires Inv(c)
    ensures Inv(After(c, run)) && After(c, run).dataset == c.dataset
  {
    if run != [] {
      RunKeeps(c, run[..|run| - 1]);
      StepKeeps(After(c, run[..|run| - 1]), run[|run| - 1]);
    }
  }

  /** Every reachable configuration satisfies all the constraints. */
  lemma ReachableIsSound(dataset: nat, schema: map<string, ColumnType>, run: seq<Action>)
    ensures Inv(After(New(dataset, schema), run))
    ensures After(New(dataset, schema), run).dataset == dataset
  {
    RunKeeps(New(dataset, schema), run);
  }

  lemma {:induction false} PoisonIsFinal(c: Config, run: seq<Action>)
    requires c.poisoned
    ensures After(c, run) == c
  {
    if run != [] {
      PoisonIsFinal(c, run[..|run| - 1]);
    }
  }

  // ---------------------------------------------------------------------------
  // What a run leaves in each field
  // ---------------------------------------------------------------------------

  datatype Setting =
    | Limit | Offset | BatchBytes | Strictness | Refinement | MinimumProbes | MaximumProbes | Query | Bounds
    | TextQuery | TextContext

  predicate IsNearest(call: Call) {
    call.Nearest? || call.NearestBatch? || call.NearestMultivector?
  }

  /** Which calls decide a setting; a new query decides the bounds too. */
  predicate Decides(call: Call, f: Setting) {
    match f
    case Limit => call.SetLimit?
    case Offset => call.SetOffset?
    case BatchBytes => call.SetBatchSizeBytes?
    case Strictness => call.SetStrictBatchSize?
    case Refinement => call.SetRefineFactor?
    case MinimumProbes => call.SetNprobes? || call.SetMinimumNprobes?
    case MaximumProbes => call.SetNprobes? || call.SetMaximumNprobes?
    case Query => IsNearest(call)
    case Bounds => IsNearest(call) || call.SetDistanceRange?
    case TextQuery => call.FullTextSearch?
    case TextContext => call.SetFtsQueryContext?
  }

  predicate HoldsQuery(q: NearestQuery, call: Call)
    requires IsNearest(call)
  {
    && call.column == Some(q.column) && q.k == call.k && q.query.element == ElementOf(call.tag)
    && |q.query.values| <= |call.data| && q.query.values == call.data[..|q.query.values|]
    && |q.query.values| == q.query.dimension * q.query.rows
    && match call
       case Nearest(_, _, length, _, _) => q.mode == Single && q.query.dimension == length && q.query.rows == 1
       case NearestBatch(_, _, dimension, rows, _, _) =>
         q.mode == Batch(rows) && q.query.dimension == dimension && q.query.rows == rows
       case NearestMultivector(_, _, dimension, rows, _, _) =>
         q.mode == MultiVector && q.query.dimension == dimension && q.query.rows == rows
  }

  /** The setting is what the call asked for. */
  predicate Holds(c: Config, call: Call, f: Setting)
    requires Decides(call, f)
  {
    match f
    case Limit => c.limit == Some(call.limit)
    case Offset => c.offset == Some(call.offset)
    case BatchBytes => c.batchSizeBytes == Some(call.bytes)
    case Strictness => c.strictBatchSize == Some(call.strict)
    case Refinement => c.refineFactor == Some(call.factor)
    case MinimumProbes => c.nprobes.minimum == Some(call.nprobes)
    case MaximumProbes => c.nprobes.maximum == Some(call.nprobes)
    case Query => c.nearest.Some? && HoldsQuery(c.nearest.value, call)
    case Bounds =>
      && c.nearest.Some?
      && c.nearest.value.lower == (if call.SetDistanceRange? then call.lower else None)
      && c.nearest.value.upper == (if call.SetDistanceRange? then call.upper else None)
    case TextQuery => c.ftsQuery == Some(call.query)
    case TextContext => c.ftsContext == call.context
  }

  /** The i-th action is a call that the scanner accepts. */
  predicate AcceptedAt(c: Config, run: seq<Action>, i: int) {
    && 0 <= i < |run| && run[i].Do?
    && !After(c, run[..i]).poisoned && Accepts(After(c, run[..i]), run[i].call)
  }

  lemma AcceptedCallHolds(c: Config, call: Call, f: Setting)
    requires !c.poisoned && Accepts(c, call) && Decides(call, f)
    ensures Holds(Step(c, Do(call)), call, f)
  {
    if IsNearest(call) && f.Query? { AcceptedQueryHolds(c, call); }
  }

  lemma AcceptedQueryHolds(c: Config, call: Call)
    requires !c.poisoned && Accepts(c, call) && IsNearest(call)
    ensures Step(c, Do(call)).nearest.Some? && HoldsQuery(Step(c, Do(call)).nearest.value, call)
  {
    if call.NearestBatch? || call.NearestMultivector? { ProductIsPositive(call.dimension, call.rows); }
  }

  lemma OtherActionsKeep(c: Config, a: Action, call: Call, f: Setting)
    requires Decides(call, f) && Holds(c, call, f)
    requires a.Do? && !c.poisoned && Accepts(c, a.call) ==> !Decides(a.call, f)
    ensures Holds(Step(c, a), call, f)
  {
  }

  /** After any run each setting is that of the last accepted call that decides it: in particular a
      nearest query is stored as given, and its bounds are those set after it, or none. */
  lemma {:induction false} LastAcceptedCallHolds(c: Config, run: seq<Action>, i: int, f: Setting)
    requires AcceptedAt(c, run, i) && Decides(run[i].call, f)
    requires forall j | i < j < |run| && AcceptedAt(c, run, j) :: !Decides(run[j].call, f)
    ensures Holds(After(c, run), run[i].call, f)
  {
    var k := |run| - 1;
    if i == k {
      AcceptedCallHolds(After(c, run[..k]), run[k].call, f);
    } else {
      var before := run[..k];
      assert before[..i] == run[..i];
      forall j | i < j < k && AcceptedAt(c, before, j) ensures !Decides(before[j].call, f) {
        assert before[..j] == run[..j];
        assert AcceptedAt(c, run, j);
      }
      LastAcceptedCallHolds(c, before, i, f);
      assert run[k].Do? && !After(c, before).poisoned && Accepts(After(c, before), run[k].call) ==>
          AcceptedAt(c, run, k);
      OtherActionsKeep(After(c, before), run[k], run[i].call, f);
    }
  }

  predicate SameSetting(a: Config, b: Config, f: Setting) {
    match f
    case Limit => a.limit == b.limit
    case Offset => a.offset == b.offset
    case BatchBytes => a.batchSizeBytes == b.batchSizeBytes
    case Strictness => a.strictBatchSize == b.strictBatchSize
    case Refinement => a.refineFactor == b.refineFactor
    case MinimumProbes => a.nprobes.minimum == b.nprobes.minimum
    case MaximumProbes => a.nprobes.maximum == b.nprobes.maximum
    case Query => a.nearest.Some? == b.nearest.Some?
    case Bounds => a.nearest == b.nearest
    case TextQuery => a.ftsQuery == b.ftsQuery
    case TextContext => a.ftsContext == b.ftsContext
  }

  lemma OtherActionsChangeNothing(c: Config, a: Action, f: Setting)
    requires a.Do? && !c.poisoned && Accepts(c, a.call) ==> !Decides(a.call, f)
    ensures SameSetting(Step(c, a), c, f)
  {
  }

  /** A setting that no accepted call decides stays what it was. */
  lemma {:induction false} UndecidedStays(c: Config, run: seq<Action>, f: Setting)
    requires forall j | 0 <= j < |run| && AcceptedAt(c, run, j) :: !Decides(run[j].call, f)
    ensures SameSetting(After(c, run), c, f)
  {
    if run != [] {
      var k := |run| - 1;
      var before := run[..k];
      forall j | 0 <= j < k && AcceptedAt(c, before, j) ensures !Decides(before[j].call, f) {
        assert before[..j] == run[..j];
        assert AcceptedAt(c, run, j);
      }
      UndecidedStays(c, before, f);
      assert run[k].Do? && !After(c, before).poisoned && Accepts(After(c, before), run[k].call) ==>
          AcceptedAt(c, run, k);
      OtherActionsChangeNothing(After(c, before), run[k], f);
    }
  }

  // ---------------------------------------------------------------------------
  // The checks that are repeated when a scan is built
  // ---------------------------------------------------------------------------

  datatype BuildCheck = Passed | BatchCandidates | MultiVectorCandidates | ForeignContext

  function CheckBuild(c: Config): BuildCheck {
    if IsBatch(c) && !ValidateBatchCandidates(c.nearest.value.mode.numQueries, c.nearest.value.k, c.refineFactor)
    then BatchCandidates
    else if c.nearest.Some? && c.nearest.value.mode.MultiVector?
      && (Refine(c.refineFactor) == 0 || c.nearest.value.k > MAX_QUERY_VECTOR_CANDIDATES / Refine(c.refineFactor))
    then MultiVectorCandidates
    else if c.ftsContext.Some? && c.ftsContext.value.dataset != c.dataset then ForeignContext
    else Passed
  }

  /** In no reachable state does the batch check or the identity check fail when the scan is built;
      the multi-vector check fails exactly when the true refined candidate count is out of range. */
  lemma RechecksNeverFail(dataset: nat, schema: map<string, ColumnType>, run: seq<Action>)
    ensures var c := After(New(dataset, schema), run);
            && CheckBuild(c) != BatchCandidates && CheckBuild(c) != ForeignContext
            && (CheckBuild(c) == MultiVectorCandidates <==>
                  && c.nearest.Some? && c.nearest.value.mode.MultiVector?
                  && !(1 <= c.nearest.value.k * Refine(c.refineFactor) <= MAX_QUERY_VECTOR_CANDIDATES))
  {
    ReachableIsSound(dataset, schema, run);
    var c := After(New(dataset, schema), run);
    if IsBatch(c) {
      var n := c.nearest.value;
      BatchCandidatesAreExact(n.mode.numQueries, n.k, c.refineFactor);
      ProductIsPositive(n.mode.numQueries * n.k, Refine(c.refineFactor));
    }
    if c.nearest.Some? && c.nearest.value.mode.MultiVector? {
      ProductIsPositive(c.nearest.value.k, Refine(c.refineFactor));
      if Refine(c.refineFactor) > 0 {
        DivisionBoundsTheProduct(c.nearest.value.k, Refine(c.refineFactor), MAX_QUERY_VECTOR_CANDIDATES);
      }
    }
  }

  // ---------------------------------------------------------------------------
  // The scanner handle
  // ---------------------------------------------------------------------------

  datatype Status = Ok | InvalidArgument | Poisoned

  /** A poisoned handle fails before any other check; a call that is not accepted changes nothing. */
  predicate IsOutcome(before: Config, call: Call, status: Status, after: Config) {
    && status == (if before.poisoned then Poisoned else if Accepts(before, call) then Ok else InvalidArgument)
    && after == Apply(before, call)
  }

  lemma ProductIsMonotone(x: nat, y: nat, a: nat, b: nat)
    requires x <= a && y <= b
    ensures 0 <= x * y <= a * b
  {
    assert (a - x) * y >= 0 && a * (b - y) >= 0;
  }

  class LanceScanner {
    const dataset: nat
    const schema: map<string, ColumnType>
    var limit: Option<int>
    var offset: Option<int>
    var batchSizeBytes: Option<nat>
    var strictBatchSize: Option<bool>
    var nearest: Option<NearestQuery>
    var nprobes: NprobesRange
    var refineFactor: Option<nat>
    var ftsQuery: Option<nat>
    var ftsContext: Option<FtsContext>
    var scanStarted: bool
    var poisoned: bool

    function Settings(): Config
      reads this
    {
      Config(dataset, schema, limit, offset, batchSizeBytes, strictBatchSize, nearest, nprobes, refineFactor,
             ftsQuery, ftsContext, scanStarted, poisoned)
    }

    constructor (dataset: nat, schema: map<string, ColumnType>)
      ensures Settings() == New(dataset, schema) && this.dataset == dataset && this.schema == schema
      ensures limit.None? && offset.None? && batchSizeBytes.None? && strictBatchSize.None? && nearest.None?
      ensures nprobes.minimum.None? && nprobes.maximum.None? && refineFactor.None?
      ensures ftsQuery.None? && ftsContext.None? && !scanStarted && !poisoned
    {
      this.dataset, this.schema := dataset, schema;
      limit, offset, batchSizeBytes, strictBatchSize := None, None, None, None;
      nearest, nprobes, refineFactor := None, NprobesRange(None, None), None;
      ftsQuery, ftsContext, scanStarted, poisoned := None, None, false, false;
    }

    predicate InBatchMode()
      reads this
    {
      nearest.Some? && nearest.value.mode.Batch?
    }

    method SetLimit(value: int) returns (status: Status)
      modifies this`limit
      ensures IsOutcome(old(Settings()), Call.SetLimit(value), status, Settings())
      ensures status == Poisoned <==> old(poisoned)
      ensures status == Ok <==> !old(poisoned) && !(nearest.Some? && nearest.value.mode.Batch?)
      ensures limit == if status == Ok then Some(value) else old(limit)
    {
      if poisoned { return Poisoned; }
      if InBatchMode() { return InvalidArgument; }
      limit := Some(value);
      return Ok;
    }

    method SetOffset(value: int) returns (status: Status)
      modifies this`offset
      ensures IsOutcome(old(Settings()), Call.SetOffset(value), status, Settings())
      ensures status == Poisoned <==> old(poisoned)
      ensures status == Ok <==> !old(poisoned) && !(nearest.Some? && nearest.value.mode.Batch?)
      ensures offset == if status == Ok then Some(value) else old(offset)
    {
      if poisoned { return Poisoned; }
      if InBatchMode() { return InvalidArgument; }
      offset := Some(value);
      return Ok;
    }

    method SetBatchSizeBytes(bytes: nat) returns (status: Status)
      modifies this`batchSizeBytes
      ensures IsOutcome(old(Settings()), Call.SetBatchSizeBytes(bytes), status, Settings())
      ensures status == Poisoned <==> old(poisoned)
      ensures status == Ok <==> !old(poisoned) && bytes > 0 && !scanStarted && strictBatchSize != Some(true)
      ensures batchSizeBytes == if status == Ok then Some(bytes) else old(batchSizeBytes)
    {
      if poisoned { return Poisoned; }
      if bytes == 0 { return InvalidArgument; }
      if scanStarted { return InvalidArgument; }
      if strictBatchSize == Some(true) { return InvalidArgument; }
      batchSizeBytes := Some(bytes);
      return Ok;
    }

    method SetStrictBatchSize(strict: bool) returns (status: Status)
      modifies this`strictBatchSize
      ensures IsOutcome(old(Settings()), Call.SetStrictBatchSize(strict), status, Settings())
      ensures status == Poisoned <==> old(poisoned)
      ensures status == Ok <==> !old(poisoned) && !scanStarted && !(strict && batchSizeBytes.Some?)
      ensures strictBatchSize == if status == Ok then Some(strict) else old(strictBatchSize)
    {
      if poisoned { return Poisoned; }
      if scanStarted { return InvalidArgument; }
      if strict && batchSizeBytes.Some? { return InvalidArgument; }
      strictBatchSize := Some(strict);
      return Ok;
    }

    method SetRefineFactor(factor: nat) returns (status: Status)
      modifies this`refineFactor
      ensures IsOutcome(old(Settings()), Call.SetRefineFactor(factor), status, Settings())
      ensures status == Poisoned <==> old(poisoned)
      ensures status == Ok <==>
                && !old(poisoned)
                && (nearest.Some? && nearest.value.mode.Batch? ==>
                      && !scanStarted && factor > 0
                      && nearest.value.mode.numQueries * nearest.value.k * factor <= 100_000)
      ensures refineFactor == if status == Ok then Some(factor) else old(refineFactor)
    {
      if poisoned { return Poisoned; }
      if nearest.Some? && nearest.value.mode.Batch? {
        if scanStarted { return InvalidArgument; }
        var queries, k := nearest.value.mode.numQueries, nearest.value.k;
        BatchCandidatesAreExact(queries, k, Some(factor));
        if !ValidateBatchCandidates(queries, k, Some(factor)) { return InvalidArgument; }
      }
      refineFactor := Some(factor);
      return Ok;
    }

    method SetDistanceRange(lower: Option<Float>, upper: Option<Float>) returns (status: Status)
      modifies this`nearest
      ensures IsOutcome(old(Settings()), Call.SetDistanceRange(lower, upper), status, Settings())
      ensures status == Poisoned <==> old(poisoned)
      ensures status == Ok <==>
                && !old(poisoned) && !scanStarted && old(nearest).Some? && old(nearest).value.mode.Single?
                && (lower.Some? ==> lower.value.Finite?) && (upper.Some? ==> upper.value.Finite?)
                && (lower.Some? && upper.Some? ==> lower.value.position < upper.value.position)
      ensures status != Ok ==> nearest == old(nearest)
      ensures status == Ok ==>
                var was := old(nearest).value;
                nearest == Some(NearestQuery(Single, was.column, was.query, was.k, lower, upper))
    {
      if poisoned { return Poisoned; }
      if scanStarted { return InvalidArgument; }
      if nearest.None? { return InvalidArgument; }
      if nearest.value.mode != Single { return InvalidArgument; }
      if lower.Some? && lower.value.NonFinite? { return InvalidArgument; }
      if upper.Some? && upper.value.NonFinite? { return InvalidArgument; }
      if lower.Some? && upper.Some? && lower.value.position >= upper.value.position { return InvalidArgument; }
      nearest := Some(nearest.value.(lower := lower, upper := upper));
      return Ok;
    }

    method SetNprobes(n: nat) returns (status: Status)
      modifies this`nprobes
      ensures IsOutcome(old(Settings()), Call.SetNprobes(n), status, Settings())
      ensures status == Poisoned <==> old(poisoned)
      ensures status == Ok <==> !old(poisoned) && !scanStarted && n > 0
      ensures nprobes == if status == Ok then NprobesRange(Some(n), Some(n)) else old(nprobes)
    {
      if poisoned { return Poisoned; }
      if scanStarted { return InvalidArgument; }
      var next := NprobesRange.Exact(n);
      if next.Failure? { return InvalidArgument; }
      nprobes := next.value;
      return Ok;
    }

    method SetMinimumNprobes(n: nat) returns (status: Status)
      modifies this`nprobes
      ensures IsOutcome(old(Settings()), Call.SetMinimumNprobes(n), status, Settings())
      ensures status == Poisoned <==> old(poisoned)
      ensures status == Ok <==>
                && !old(poisoned) && !scanStarted && n > 0
                && (old(nprobes).maximum.Some? ==> n <= old(nprobes).maximum.value)
      ensures nprobes == if status == Ok then NprobesRange(Some(n), old(nprobes).maximum) else old(nprobes)
    {
      if poisoned { return Poisoned; }
      if scanStarted { return InvalidArgument; }
      var next := nprobes.WithMinimum(n);
      if next.Failure? { return InvalidArgument; }
      nprobes := next.value;
      return Ok;
    }

    method SetMaximumNprobes(n: nat) returns (status: Status)
      modifies this`nprobes
      ensures IsOutcome(old(Settings()), Call.SetMaximumNprobes(n), status, Settings())
      ensures status == Poisoned <==> old(poisoned)
      ensures status == Ok <==>
                && !old(poisoned) && !scanStarted && n > 0
                && (old(nprobes).minimum.Some? ==> old(nprobes).minimum.value <= n)
      ensures nprobes == if status == Ok then NprobesRange(old(nprobes).minimum, Some(n)) else old(nprobes)
    {
      if poisoned { return Poisoned; }
      if scanStarted { return InvalidArgument; }
      var next := nprobes.WithMaximum(n);
      if next.Failure? { return InvalidArgument; }
      nprobes := next.value;
      return Ok;
    }

    method Nearest(column: Option<string>, data: seq<Float>, length: nat, tag: int, k: nat) returns (status: Status)
      requires IsAddressable(Settings(), Call.Nearest(column, data, length, tag, k))
      modifies this`nearest
      ensures IsOutcome(old(Settings()), Call.Nearest(column, data, length, tag, k), status, Settings())
      ensures status == Poisoned <==> old(poisoned)
      ensures status == Ok <==>
                !old(poisoned) && k > 0 && ftsQuery.None? && ftsContext.None? && column.Some? && 0 <= tag <= 4
      ensures status != Ok ==> nearest == old(nearest)
      ensures status == Ok ==>
                nearest == Some(NearestQuery(Single, column.value, Matrix(ElementOf(tag), length, 1, data[..length]), k,
                                             None, None))
    {
      if poisoned { return Poisoned; }
      if k == 0 { return InvalidArgument; }
      if ftsQuery.Some? || ftsContext.Some? { return InvalidArgument; }
      if column.None? { return InvalidArgument; }
      if tag < 0 || tag > 4 { return InvalidArgument; }
      var query := Matrix(ElementOf(tag), length, 1, data[..length]);
      nearest := Some(NearestQuery(Single, column.value, query, k, None, None));
      return Ok;
    }

    /** The checks on a batch's matrix; `r` holds its query when they all pass. */
    method CheckBatchMatrix(column: Option<string>, data: seq<Float>, dimension: nat, rows: nat, tag: int, k: nat)
      returns (r: Option<NearestQuery>)
      requires 1 <= dimension <= I32_MAX && 1 <= rows <= MAX_BATCH_QUERIES
      requires column.Some? && 0 <= tag <= 4 && FitsBatch(Settings(), column.value, ElementOf(tag), dimension, rows) ==>
                 |data| >= dimension * rows
      ensures var call := Call.NearestBatch(column, data, dimension, rows, tag, k);
              && (r.Some? <==> column.Some? && 0 <= tag <= 4 && IsBatchQuery(Settings(), BatchOf(call)))
              && (r.Some? ==> r.value == BatchOf(call))
    {
      if tag < 0 || tag > 4 { return None; }
      var element := ElementOf(tag);
      ValueCountIsExact(dimension, rows, Width(element));
      var count := BatchQueryValueCount(dimension, rows, Width(element));
      if count.Failure? { return None; }
      if column.None? { return None; }
      if QUERY_INDEX in schema { return None; }
      if column.value !in schema { return None; }
      if schema[column.value] != FixedSizeList(element, dimension) { return None; }
      var values := data[..count.value];
      if IsFloat(element) && !AllFinite(values) { return None; }
      return Some(NearestQuery(Batch(rows), column.value, Matrix(element, dimension, rows, values), k, None, None));
    }

    method NearestBatch(column: Option<string>, data: seq<Float>, dimension: nat, rows: nat, tag: int, k: nat)
      returns (status: Status)
      requires IsAddressable(Settings(), Call.NearestBatch(column, data, dimension, rows, tag, k))
      modifies this`nearest
      ensures IsOutcome(old(Settings()), Call.NearestBatch(column, data, dimension, rows, tag, k), status, Settings())
      ensures status == Poisoned <==> old(poisoned)
      ensures status == Ok <==>
                && !old(poisoned) && !scanStarted && ftsQuery.None? && ftsContext.None? && limit.None? && offset.None?
                && column.Some? && 0 <= tag <= 4 && 1 <= dimension <= 0x7FFF_FFFF && 1 <= rows <= 128
                && 1 <= rows * k * (if refineFactor.Some? then refineFactor.value else 1) <= 100_000
                && dimension * rows * Width(ElementOf(tag)) <= 67_108_864
                && "query_index" !in schema && column.value in schema
                && schema[column.value] == FixedSizeList(ElementOf(tag), dimension)
                && (tag <= 2 ==> forall i | 0 <= i < dimension * rows :: data[i].Finite?)
      ensures status != Ok ==> nearest == old(nearest)
      ensures status == Ok ==>
                && 0 <= dimension * rows <= |data|
                && var values := data[..dimension * rows];
                   nearest == Some(NearestQuery(Batch(rows), column.value,
                                                Matrix(ElementOf(tag), dimension, rows, values), k, None, None))
    {
      if poisoned { return Poisoned; }
      BatchCandidatesAreExact(rows, k, refineFactor);
      ProductIsPositive(rows, k);
      ProductIsPositive(rows * k, Refine(refineFactor));
      if scanStarted { return InvalidArgument; }
      if dimension == 0 || dimension > I32_MAX || k == 0 { return InvalidArgument; }
      if rows == 0 || rows > MAX_BATCH_QUERIES { return InvalidArgument; }
      if ftsQuery.Some? || ftsContext.Some? { return InvalidArgument; }
      if limit.Some? || offset.Some? { return InvalidArgument; }
      if !ValidateBatchCandidates(rows, k, refineFactor) { return InvalidArgument; }
      var query := CheckBatchMatrix(column, data, dimension, rows, tag, k);
      if query.None? { return InvalidArgument; }
      nearest := query;
      return Ok;
    }

    /** The checks on a multi-vector matrix. */
    method CheckMultiVectorMatrix(column: Option<string>, data: seq<Float>, dimension: nat, rows: nat, tag: int, k: nat)
      returns (r: Option<NearestQuery>)
      requires 1 <= dimension <= I32_MAX && 1 <= rows <= MAX_QUERY_VECTORS && k > 0
      requires ReadsValues(Settings(), Call.NearestMultivector(column, data, dimension, rows, tag, k)) ==>
                 |data| >= dimension * rows
      requires rows * k <= MAX_QUERY_VECTOR_CANDIDATES
      ensures var call := Call.NearestMultivector(column, data, dimension, rows, tag, k);
              && (r.Some? <==>
                    && NoFts(Settings()) && column.Some? && 0 <= tag <= 2
                    && IsMultiVectorQuery(Settings(), MultiVectorOf(call)))
              && (r.Some? ==> r.value == MultiVectorOf(call))
    {
      if tag < 0 || tag > 2 { return None; }
      var element := ElementOf(tag);
      ProductIsMonotone(dimension, rows, I32_MAX, MAX_QUERY_VECTORS);
      var count := CheckedMul(dimension, rows);
      if count.None? || count.value > ISIZE_MAX / Width(element) { return None; }
      if ftsQuery.Some? || ftsContext.Some? { return None; }
      if column.None? { return None; }
      if column.value !in schema { return None; }
      if schema[column.value] != ListOf(false, FixedSizeList(element, dimension)) { return None; }
      var values := data[..count.value];
      if !AllFinite(values) { return None; }
      return Some(NearestQuery(MultiVector, column.value, Matrix(element, dimension, rows, values), k, None, None));
    }

    method NearestMultivector(column: Option<string>, data: seq<Float>, dimension: nat, rows: nat, tag: int, k: nat)
      returns (status: Status)
      requires IsAddressable(Settings(), Call.NearestMultivector(column, data, dimension, rows, tag, k))
      modifies this`nearest
      ensures IsOutcome(old(Settings()), Call.NearestMultivector(column, data, dimension, rows, tag, k), status,
                        Settings())
      ensures status == Poisoned <==> old(poisoned)
      ensures status == Ok <==>
                && !old(poisoned) && ftsQuery.None? && ftsContext.None?
                && column.Some? && 0 <= tag <= 2 && k > 0 && 1 <= dimension <= 0x7FFF_FFFF
                && 1 <= rows <= 128 && rows * k <= 100_000 && column.value in schema
                && schema[column.value] == ListOf(false, FixedSizeList(ElementOf(tag), dimension))
                && forall i | 0 <= i < dimension * rows :: data[i].Finite?
      ensures status != Ok ==> nearest == old(nearest)
      ensures status == Ok ==>
                && 0 <= dimension * rows <= |data|
                && var values := data[..dimension * rows];
                   nearest == Some(NearestQuery(MultiVector, column.value,
                                                Matrix(ElementOf(tag), dimension, rows, values), k, None, None))
    {
      if poisoned { return Poisoned; }
      if dimension == 0 || dimension > I32_MAX || rows == 0 || k == 0 { return InvalidArgument; }
      DivisionBoundsTheProduct(rows, k, MAX_QUERY_VECTOR_CANDIDATES);
      if rows > MAX_QUERY_VECTORS || rows > MAX_QUERY_VECTOR_CANDIDATES / k { return InvalidArgument; }
      var query := CheckMultiVectorMatrix(column, data, dimension, rows, tag, k);
      if query.None? { return InvalidArgument; }
      nearest := query;
      return Ok;
    }

    method FullTextSearch(query: nat, upstreamAccepts: bool) returns (status: Status)
      modifies this`ftsQuery
      ensures IsOutcome(old(Settings()), Call.FullTextSearch(query, upstreamAccepts), status, Settings())
      ensures status == Poisoned <==> old(poisoned)
      ensures status == Ok <==> !old(poisoned) && nearest.None? && ftsContext.None? && upstreamAccepts
      ensures ftsQuery == if status == Ok then Some(query) else old(ftsQuery)
    {
      if poisoned { return Poisoned; }
      if nearest.Some? { return InvalidArgument; }
      if ftsContext.Some? { return InvalidArgument; }
      if !upstreamAccepts { return InvalidArgument; }
      ftsQuery := Some(query);
      return Ok;
    }

    method SetFtsQueryContext(context: Option<FtsContext>) returns (status: Status)
      modifies this`ftsContext
      ensures IsOutcome(old(Settings()), Call.SetFtsQueryContext(context), status, Settings())
      ensures status == Poisoned <==> old(poisoned)
      ensures status == Ok <==>
                !old(poisoned) && context.Some? && nearest.None? && ftsQuery.None? && context.value.dataset == dataset
      ensures ftsContext == if status == Ok then context else old(ftsContext)
    {
      if poisoned { return Poisoned; }
      if context.None? { return InvalidArgument; }
      if nearest.Some? { return InvalidArgument; }
      if ftsQuery.Some? { return InvalidArgument; }
      if context.value.dataset != dataset { return InvalidArgument; }
      ftsContext := context;
      return Ok;
    }

    /** Starts the scan, whether or not the checks that follow pass. The entry points call it only
        on a healthy handle. */
    method BuildScanner() returns (check: BuildCheck)
      modifies this`scanStarted
      ensures Settings() == old(Settings()).(started := true) && check == CheckBuild(old(Settings()))
      ensures !poisoned ==> Settings() == Step(old(Settings()), Build)
      ensures var refine := if refineFactor.Some? then refineFactor.value else 1;
              && (check == BatchCandidates <==>
                    && nearest.Some? && nearest.value.mode.Batch?
                    && !(refine > 0 && nearest.value.mode.numQueries * nearest.value.k * refine <= 100_000))
              && (check == MultiVectorCandidates <==>
                    && nearest.Some? && nearest.value.mode.MultiVector?
                    && !(refine > 0 && nearest.value.k * refine <= 100_000))
      ensures check == Passed ==> ftsContext.Some? ==> ftsContext.value.dataset == dataset
      ensures check == ForeignContext ==> ftsContext.Some? && ftsContext.value.dataset != dataset
    {
      scanStarted := true;
      if nearest.Some? {
        var n := nearest.value;
        if n.mode.Batch? { BatchCandidatesAreExact(n.mode.numQueries, n.k, refineFactor); }
        if Refine(refineFactor) > 0 {
          DivisionBoundsTheProduct(n.k, Refine(refineFactor), MAX_QUERY_VECTOR_CANDIDATES);
        }
      }
      if nearest.Some? && nearest.value.mode.Batch?
        && !ValidateBatchCandidates(nearest.value.mode.numQueries, nearest.value.k, refineFactor)
      {
        return BatchCandidates;
      }
      if nearest.Some? && nearest.value.mode.MultiVector? {
        var refine := if refineFactor.Some? then refineFactor.value else 1;
        if refine == 0 || nearest.value.k > MAX_QUERY_VECTOR_CANDIDATES / refine { return MultiVectorCandidates; }
      }
      if ftsContext.Some? && ftsContext.value.dataset != dataset { return ForeignContext; }
      return Passed;
    }
  }
}
