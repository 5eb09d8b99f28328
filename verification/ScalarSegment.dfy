/** A scalar segment as an accelerator of an explicitly scoped scan (src/scalar_segment.rs). */
module ScalarSegment {
  import opened Common
  import opened ScalarExpression
  import opened SegmentChoice

  // ---------------------------------------------------------------------------
  // Rows, masks and filters
  // ---------------------------------------------------------------------------

  datatype Row = Row(rowId: nat, address: nat, cells: map<string, Scalar>)

  datatype RowMask = Allow(ids: set<nat>) | Block(ids: set<nat>)

  predicate Selects(mask: RowMask, id: nat) {
    match mask case Allow(ids) => id in ids case Block(ids) => id !in ids
  }

  /** `truth` is the complete filter; `truthTests` tells whether it contains an
      IS [NOT] TRUE/FALSE, and `columns` are the columns it mentions. */
  datatype Filter = Filter(truth: Row -> Truth, truthTests: bool, columns: set<string>)

  predicate Passes(filter: Option<Filter>, row: Row) {
    filter.Some? ==> filter.value.truth(row) == True
  }

  datatype Fragment = Fragment(id: nat, rows: seq<Row>, overlays: bool, physicalRows: Option<nat>)

  datatype SearchResult = SearchResult(exact: bool, upper: RowMask)

  /** `search` answers an expression from this one physical segment, or fails. */
  datatype OpenedIndex = OpenedIndex(kind: IndexKind, addresses: bool, search: Expr -> Option<SearchResult>)

  /** The dataset snapshot; `planner` and `open` are the parts of Lance it calls into, `meaning` says
      what a search predicate is worth on a row, and `globalSearch` is whatever a scan does to its
      rows when it may search scalar indices on its own: nothing is assumed about it. */
  datatype Dataset = Dataset(
    fragments: seq<Fragment>,
    indices: seq<IndexMetadata>,
    snapshot: Snapshot,
    storedColumns: set<string>,
    legacyStorage: bool,
    fragmentReuse: bool,
    stableRowIds: bool,
    meaning: Row -> Valuation,
    planner: Filter -> Option<Expr>,
    open: nat -> Option<OpenedIndex>,
    globalSearch: (Option<Filter>, seq<Row>) -> seq<Row>)

  function ScopeRows(fragments: seq<Fragment>, scope: seq<nat>): seq<Row> {
    if fragments == [] then []
    else (if fragments[0].id in scope then fragments[0].rows else []) + ScopeRows(fragments[1..], scope)
  }

  function Keep(rows: seq<Row>, filter: Option<Filter>, mask: Option<RowMask>): seq<Row> {
    if rows == [] then []
    else
      (if Passes(filter, rows[0]) && (mask.Some? ==> Selects(mask.value, rows[0].rowId)) then [rows[0]] else [])
      + Keep(rows[1..], filter, mask)
  }

  function Window(rows: seq<Row>, offset: nat, limit: Option<nat>): seq<Row> {
    var start := Min(offset, |rows|);
    var end := if limit.Some? then Min(start + limit.value, |rows|) else |rows|;
    rows[start..end]
  }

  /** The scan without any accelerator. */
  function PlainScan(d: Dataset, scope: seq<nat>, filter: Option<Filter>, offset: nat, limit: Option<nat>): seq<Row> {
    Window(Keep(ScopeRows(d.fragments, scope), filter, None), offset, limit)
  }

  /** The rows of the scope are those of its fragments, fragment by fragment. */
  lemma {:induction false} ScopeRowsAre(fragments: seq<Fragment>, scope: seq<nat>)
    ensures ScopeRows(fragments, scope) == Flatten(RowsOf(FilterBy(fragments, (f: Fragment) => f.id in scope)))
  {
    if fragments != [] {
      ScopeRowsAre(fragments[1..], scope);
      var rest := FilterBy(fragments[1..], (f: Fragment) => f.id in scope);
      RowsOfHead(fragments[0], rest);
    }
  }

  function RowsOf(fragments: seq<Fragment>): seq<seq<Row>> {
    seq(|fragments|, i requires 0 <= i < |fragments| => fragments[i].rows)
  }

  lemma RowsOfHead(f: Fragment, rest: seq<Fragment>)
    ensures Flatten(RowsOf([f] + rest)) == f.rows + Flatten(RowsOf(rest))
    ensures Flatten(RowsOf([] + rest)) == [] + Flatten(RowsOf(rest))
  {
    assert RowsOf([f] + rest)[1..] == RowsOf(rest);
    assert [] + rest == rest;
  }

  /** A row is kept, in its place, exactly when the filter is TRUE on it and the mask selects it. */
  lemma {:induction false} KeepIsAFilter(rows: seq<Row>, filter: Option<Filter>, mask: Option<RowMask>)
    ensures Keep(rows, filter, mask) ==
            FilterBy(rows, (row: Row) => (filter.Some? ==> filter.value.truth(row) == True)
                                         && (mask.Some? ==> Selects(mask.value, row.rowId)))
  {
    if rows != [] { KeepIsAFilter(rows[1..], filter, mask); }
  }

  lemma WindowIsASlice(rows: seq<Row>, offset: nat, limit: Option<nat>)
    ensures var rest := if offset <= |rows| then |rows| - offset else 0;
            |Window(rows, offset, limit)| == if limit.Some? then Min(limit.value, rest) else rest
    ensures forall j | 0 <= j < |Window(rows, offset, limit)| :: Window(rows, offset, limit)[j] == rows[offset + j]
  {
  }

  /** The Lance scanner that the segment configures. */
  class Reader {
    const scope: seq<nat>
    const filter: Result<Option<Filter>, Failed>
    const offset: nat
    const limit: Option<nat>
    var useScalarIndex: bool
    var prefilter: Option<RowMask>

    constructor (scope: seq<nat>, filter: Result<Option<Filter>, Failed>, offset: nat, limit: Option<nat>)
      ensures this.scope == scope && this.filter == filter && this.offset == offset && this.limit == limit
      ensures prefilter == None
    {
      this.scope, this.filter, this.offset, this.limit := scope, filter, offset, limit;
      useScalarIndex, prefilter := true, None;
    }

    /** The prefilter only narrows what the complete filter is evaluated on. */
    function Scan(d: Dataset): seq<Row>
      requires filter.Success?
      reads this
    {
      var scoped := ScopeRows(d.fragments, scope);
      var rows := if useScalarIndex then (d.globalSearch)(filter.value, scoped) else scoped;
      Window(Keep(rows, filter.value, prefilter), offset, limit)
    }
  }

  // ---------------------------------------------------------------------------
  // Assumptions on Lance
  // ---------------------------------------------------------------------------

  /** UUIDs and field ids identify what they name. */
  ghost predicate IdsIdentify(d: Dataset) {
    && (forall x, y | x in d.indices && y in d.indices && x.uuid == y.uuid :: x == y)
    && (forall x, y | x in d.snapshot.fields && y in d.snapshot.fields && x.id == y.id :: x == y)
  }

  /** Without stable row ids, a row id is the row's address. */
  ghost predicate RowIdsAgree(d: Dataset) {
    !d.stableRowIds ==> forall f, row | f in d.fragments && row in f.rows :: row.rowId == row.address
  }

  /** The planner's index query is TRUE wherever the filter is, for filters without a truth
      test over stored columns. */
  ghost predicate PlannerSound(d: Dataset) {
    forall filter: Filter, row: Row |
      !filter.truthTests && filter.columns <= d.storedColumns && d.planner(filter).Some? ::
      filter.truth(row) == True ==> Eval(d.planner(filter).value, d.meaning(row)) == True
  }

  ghost predicate Searchable(d: Dataset, index: IndexMetadata, f: Fragment) {
    && f in d.fragments && !f.overlays && f.physicalRows.Some?
    && index.coverage.Some? && f.id <= U32_MAX && f.id in index.coverage.value
  }

  /** The row identifiers of a search result: addresses, or row ids. */
  function ResultId(segment: OpenedIndex, row: Row): nat {
    if segment.addresses then row.address else row.rowId
  }

  ghost predicate MissesNothing(d: Dataset, index: IndexMetadata, segment: OpenedIndex, e: Expr, upper: RowMask) {
    forall f, row | Searchable(d, index, f) && row in f.rows && Eval(e, d.meaning(row)) == True ::
      Selects(upper, ResultId(segment, row))
  }

  /** An exact search of a segment misses no row of a fragment it covers. */
  ghost predicate SearchSound(d: Dataset) {
    !d.legacyStorage && !d.fragmentReuse ==>
      forall index, e | index in d.indices && d.open(index.uuid).Some? ::
        var segment := d.open(index.uuid).value;
        var result := segment.search(e);
        segment.kind != OtherKind && result.Some? && result.value.exact ==>
          MissesNothing(d, index, segment, e, result.value.upper)
  }

  // ---------------------------------------------------------------------------
  // Configuration
  // ---------------------------------------------------------------------------

  datatype Failed =
    | MissingFragment | MissingSegment | NoKeyField | MissingField | InvalidFilter
    | MissingRuntimeIndex | OpenFailed | OutsideSegment | SearchFailed

  datatype Fallback =
    | Disabled | LegacyStorage | NestedField | UnknownCoverage | PartialCoverage | FragmentState | FragmentReuse
    | NoFilter | BooleanTruthTest | FilterSchema | NoDriver | Restriction(reason: Reason) | RuntimeCost
    | UnsupportedIndexType | RowIdDomain | InexactResult

  datatype PreparedScalarSegment = PreparedScalarSegment(
    dataset: Dataset, segmentUuid: nat, autoSelection: bool, fragmentIds: seq<nat>, useScalarIndex: bool)

  function FindByUuid(indices: seq<IndexMetadata>, uuid: nat): Option<IndexMetadata> {
    if indices == [] then None
    else if indices[0].uuid == uuid then Some(indices[0]) else FindByUuid(indices[1..], uuid)
  }

  predicate FragmentsVisible(d: Dataset, ids: seq<nat>) {
    forall id | id in ids :: exists f | f in d.fragments :: f.id == id
  }

  predicate FragmentsReady(d: Dataset, ids: seq<nat>) {
    forall f | f in d.fragments && f.id in ids :: !f.overlays && f.physicalRows.Some?
  }

  function PhysicalRows(fragments: seq<Fragment>, ids: seq<nat>): nat {
    if fragments == [] then 0
    else
      Min(PhysicalRows(fragments[1..], ids)
          + (if fragments[0].id in ids && fragments[0].physicalRows.Some? then fragments[0].physicalRows.value else 0),
          U64_MAX)
  }

  function TotalRows(fragments: seq<Fragment>): nat {
    if fragments == [] then 0
    else (if fragments[0].physicalRows.Some? then fragments[0].physicalRows.value else 0) + TotalRows(fragments[1..])
  }

  /** The rows of the read domain's fragments and of no other, as far as 64 bits go. */
  lemma {:induction false} PhysicalRowsAre(fragments: seq<Fragment>, ids: seq<nat>)
    ensures PhysicalRows(fragments, ids) ==
            Min(TotalRows(FilterBy(fragments, (f: Fragment) => f.id in ids)), 0xFFFF_FFFF_FFFF_FFFF)
  {
    if fragments != [] {
      PhysicalRowsAre(fragments[1..], ids);
      var rest := FilterBy(fragments[1..], (f: Fragment) => f.id in ids);
      assert ([fragments[0]] + rest)[1..] == rest;
      assert [] + rest == rest;
    }
  }

  /** The loader hands the one opened segment to every leaf, and refuses any other leaf. */
  function Evaluate(segment: OpenedIndex, loaded: Target, e: Expr): Result<SearchResult, Failed> {
    if exists leaf | leaf in Leaves(e) :: leaf.column != loaded.column || leaf.indexName != loaded.indexName
    then Failure(OutsideSegment)
    else match segment.search(e) case None => Failure(SearchFailed) case Some(result) => Success(result)
  }

  lemma {:induction false} FoundByUuid(indices: seq<IndexMetadata>, uuid: nat)
    ensures FindByUuid(indices, uuid).Some? ==>
              FindByUuid(indices, uuid).value in indices && FindByUuid(indices, uuid).value.uuid == uuid
    ensures FindByUuid(indices, uuid).None? ==> forall x | x in indices :: x.uuid != uuid
  {
    if indices != [] { FoundByUuid(indices[1..], uuid); }
  }

  lemma {:induction false} FoundField(fields: seq<Field>, id: int)
    ensures FieldById(fields, id).Some? ==>
              FieldById(fields, id).value in fields && FieldById(fields, id).value.id == id
    ensures TopLevelField(fields, id).Some? ==>
              TopLevelField(fields, id).value in fields && TopLevelField(fields, id).value.id == id
    ensures FieldById(fields, id).None? ==> TopLevelField(fields, id).None?
  {
    if fields != [] { FoundField(fields[1..], id); }
  }

  lemma {:induction false} InScope(fragments: seq<Fragment>, scope: seq<nat>, row: Row)
    requires row in ScopeRows(fragments, scope)
    ensures exists f | f in fragments :: f.id in scope && row in f.rows
  {
    if fragments[0].id in scope && row in fragments[0].rows {
    } else {
      InScope(fragments[1..], scope, row);
    }
  }

  /** A mask that misses no passing row changes nothing. */
  lemma {:induction false} MaskIsTransparent(rows: seq<Row>, filter: Option<Filter>, mask: RowMask)
    requires forall row | row in rows && Passes(filter, row) :: Selects(mask, row.rowId)
    ensures Keep(rows, filter, Some(mask)) == Keep(rows, filter, None)
  {
    if rows != [] {
      assert rows[0] in rows;
      MaskIsTransparent(rows[1..], filter, mask);
    }
  }

  /** The segment is in the listing, and its key is a top-level field. */
  predicate CanName(p: PreparedScalarSegment, index: IndexMetadata) {
    && index in p.dataset.indices && index.keyedField.Some?
    && TopLevelField(p.dataset.snapshot.fields, index.keyedField.value).Some?
  }

  /** The name of the segment and that of its key. */
  function NameOf(p: PreparedScalarSegment, index: IndexMetadata): Target
    requires CanName(p, index)
  {
    Target(index.name, TopLevelField(p.dataset.snapshot.fields, index.keyedField.value).value.name)
  }

  /** `index` covers the read domain and `e` is what it can answer of the index query. */
  ghost predicate Answers(p: PreparedScalarSegment, index: IndexMetadata, indexQuery: Expr, e: Expr) {
    && CanName(p, index)
    && index.coverage.Some? && Covers(index.coverage.value, p.fragmentIds)
    && ScopedExpression(indexQuery, NameOf(p, index), false, 0, MAX_EXPRESSION_NODES).result == Success(Some(e))
  }

  /** The segment can be opened and answers the expression exactly, in the domain of row ids. */
  ghost predicate CanMask(p: PreparedScalarSegment, index: IndexMetadata, e: Expr) {
    && p.dataset.open(index.uuid).Some?
    && var segment := p.dataset.open(index.uuid).value;
       && segment.kind != OtherKind && !(segment.addresses && p.dataset.stableRowIds)
       && segment.search(e).Some? && segment.search(e).value.exact
  }

  /** The search that produced an installed mask. */
  ghost predicate MaskFrom(p: PreparedScalarSegment, filter: Filter, mask: RowMask, index: IndexMetadata, e: Expr) {
    && p.dataset.planner(filter).Some?
    && Answers(p, index, p.dataset.planner(filter).value, e)
    && CanMask(p, index, e) && p.dataset.open(index.uuid).value.search(e).value.upper == mask
  }

  /** The guards that a search must have passed. */
  ghost predicate Guarded(p: PreparedScalarSegment, filter: Filter) {
    && p.useScalarIndex && !p.dataset.legacyStorage && !p.dataset.fragmentReuse
    && FragmentsReady(p.dataset, p.fragmentIds)
    && !filter.truthTests && filter.columns <= p.dataset.storedColumns
  }

  lemma CoveredRowIsSelected(p: PreparedScalarSegment, index: IndexMetadata, segment: OpenedIndex, e: Expr,
                             mask: RowMask, row: Row)
    requires RowIdsAgree(p.dataset) && FragmentsReady(p.dataset, p.fragmentIds)
    requires MissesNothing(p.dataset, index, segment, e, mask) && !(segment.addresses && p.dataset.stableRowIds)
    requires index.coverage.Some? && Covers(index.coverage.value, p.fragmentIds)
    requires row in ScopeRows(p.dataset.fragments, p.fragmentIds) && Eval(e, p.dataset.meaning(row)) == True
    ensures Selects(mask, row.rowId)
  {
    InScope(p.dataset.fragments, p.fragmentIds, row);
    var f :| f in p.dataset.fragments && f.id in p.fragmentIds && row in f.rows;
    assert Searchable(p.dataset, index, f);
  }

  lemma PassingRowIsSelected(p: PreparedScalarSegment, filter: Filter, mask: RowMask, index: IndexMetadata, e: Expr,
                             row: Row)
    requires RowIdsAgree(p.dataset) && PlannerSound(p.dataset) && SearchSound(p.dataset)
    requires Guarded(p, filter) && MaskFrom(p, filter, mask, index, e)
    requires row in ScopeRows(p.dataset.fragments, p.fragmentIds) && filter.truth(row) == True
    ensures Selects(mask, row.rowId)
  {
    var indexQuery := p.dataset.planner(filter).value;
    ScopedIsSuperset(indexQuery, NameOf(p, index), false, 0, MAX_EXPRESSION_NODES, p.dataset.meaning(row));
    CoveredRowIsSelected(p, index, p.dataset.open(index.uuid).value, e, mask, row);
  }

  /** The segment never changes the rows of the scan, their order or its window. */
  lemma {:induction false} AcceleratorIsTransparent(p: PreparedScalarSegment, filter: Filter, mask: RowMask,
                                                    index: IndexMetadata, e: Expr)
    requires RowIdsAgree(p.dataset) && PlannerSound(p.dataset) && SearchSound(p.dataset)
    requires Guarded(p, filter) && MaskFrom(p, filter, mask, index, e)
    ensures var rows := ScopeRows(p.dataset.fragments, p.fragmentIds);
            Keep(rows, Some(filter), Some(mask)) == Keep(rows, Some(filter), None)
  {
    var rows := ScopeRows(p.dataset.fragments, p.fragmentIds);
    forall row | row in rows && Passes(Some(filter), row) ensures Selects(mask, row.rowId) {
      PassingRowIsSelected(p, filter, mask, index, e, row);
    }
    MaskIsTransparent(rows, Some(filter), mask);
  }

  // ---------------------------------------------------------------------------
  // What stops the accelerator, in the order of precedence
  // ---------------------------------------------------------------------------

  datatype Obstacle = Fails(error: Failed) | Falls(reason: Fallback)

  /** Of several obstacles the one of the least rank is reported. */
  function Rank(o: Obstacle): nat {
    match o
    case Fails(MissingFragment) => 0
    case Fails(MissingSegment) => 1
    case Fails(NoKeyField) => 2
    case Fails(MissingField) => 3
    case Falls(Disabled) => 4
    case Falls(LegacyStorage) => 5
    case Falls(NestedField) => 6
    case Falls(UnknownCoverage) => 7
    case Falls(PartialCoverage) => 8
    case Falls(FragmentState) => 9
    case Falls(FragmentReuse) => 10
    case Fails(InvalidFilter) => 11
    case Falls(NoFilter) => 12
    case Falls(BooleanTruthTest) => 13
    case Falls(FilterSchema) => 14
    case Falls(NoDriver) => 15
    case Falls(Restriction(_)) => 15
    case Falls(RuntimeCost) => 16
    case Fails(MissingRuntimeIndex) => 17
    case Fails(OpenFailed) => 18
    case Falls(UnsupportedIndexType) => 19
    case Falls(RowIdDomain) => 20
    case Fails(OutsideSegment) => 21
    case Fails(SearchFailed) => 21
    case Falls(InexactResult) => 22
  }

  /** The order in which obstacles are looked for. */
  lemma PrecedenceIs(reason: Reason)
    ensures Rank(Fails(MissingFragment)) < Rank(Fails(MissingSegment)) < Rank(Fails(NoKeyField))
            < Rank(Fails(MissingField)) < Rank(Falls(Disabled)) < Rank(Falls(LegacyStorage))
            < Rank(Falls(NestedField)) < Rank(Falls(UnknownCoverage)) < Rank(Falls(PartialCoverage))
            < Rank(Falls(FragmentState)) < Rank(Falls(FragmentReuse)) < Rank(Fails(InvalidFilter))
            < Rank(Falls(NoFilter)) < Rank(Falls(BooleanTruthTest)) < Rank(Falls(FilterSchema))
            < Rank(Falls(NoDriver)) == Rank(Falls(Restriction(reason))) < Rank(Falls(RuntimeCost))
            < Rank(Fails(OpenFailed)) < Rank(Falls(UnsupportedIndexType)) < Rank(Falls(RowIdDomain))
            < Rank(Fails(SearchFailed)) < Rank(Falls(InexactResult))
  {
  }

  const LAST_SNAPSHOT_RANK: nat := 10
  const LAST_FILTER_RANK: nat := 15

  /** The segment that the caller named, and its key field. */
  function Named(p: PreparedScalarSegment): Option<IndexMetadata> {
    FindByUuid(p.dataset.indices, p.segmentUuid)
  }

  function NamedField(p: PreparedScalarSegment): Option<Field> {
    if Named(p).None? || Named(p).value.keyedField.None? then None
    else FieldById(p.dataset.snapshot.fields, Named(p).value.keyedField.value)
  }

  predicate SnapshotObstacle(p: PreparedScalarSegment, o: Obstacle) {
    match o
    case Fails(MissingFragment) => !FragmentsVisible(p.dataset, p.fragmentIds)
    case Fails(MissingSegment) => Named(p).None?
    case Fails(NoKeyField) => Named(p).Some? && Named(p).value.keyedField.None?
    case Fails(MissingField) => Named(p).Some? && NamedField(p).None?
    case Falls(Disabled) => !p.useScalarIndex
    case Falls(LegacyStorage) => p.dataset.legacyStorage
    case Falls(NestedField) =>
      NamedField(p).Some? && TopLevelField(p.dataset.snapshot.fields, NamedField(p).value.id).None?
    case Falls(UnknownCoverage) => Named(p).Some? && Named(p).value.coverage.None?
    case Falls(PartialCoverage) =>
      Named(p).Some? && Named(p).value.coverage.Some? && !Covers(Named(p).value.coverage.value, p.fragmentIds)
    case Falls(FragmentState) => !FragmentsReady(p.dataset, p.fragmentIds)
    case Falls(FragmentReuse) => p.dataset.fragmentReuse
    case _ => false
  }

  type FilterResult = Result<Option<Filter>, Failed>

  predicate HasFilter(f: FilterResult) {
    f.Success? && f.value.Some?
  }

  /** What the named segment can answer of the index query, once there is one. */
  function Restricted(p: PreparedScalarSegment, filter: Filter): Option<Result<Option<Expr>, Reason>> {
    if p.dataset.planner(filter).None? || NamedField(p).None? then None
    else
      Some(ScopedExpression(p.dataset.planner(filter).value, Target(Named(p).value.name, NamedField(p).value.name),
                            false, 0, MAX_EXPRESSION_NODES).result)
  }

  predicate FilterObstacle(p: PreparedScalarSegment, f: FilterResult, o: Obstacle) {
    match o
    case Fails(InvalidFilter) => f.Failure?
    case Falls(NoFilter) => f == Success(None)
    case Falls(BooleanTruthTest) => HasFilter(f) && f.value.value.truthTests
    case Falls(FilterSchema) => HasFilter(f) && !(f.value.value.columns <= p.dataset.storedColumns)
    case Falls(NoDriver) =>
      HasFilter(f) &&
      (p.dataset.planner(f.value.value).None? || Restricted(p, f.value.value) == Some(Success(None)))
    case Falls(Restriction(reason)) => HasFilter(f) && Restricted(p, f.value.value) == Some(Failure(reason))
    case _ => false
  }

  /** The outcome of the selection: the named segment, or with automatic selection the cheapest of
      the probes on what the session can get at. */
  ghost predicate IsSelected(p: PreparedScalarSegment, view: Snapshot, meta: IndexMetadata, metaExpr: Expr,
                             indexQuery: Expr, selected: Option<(IndexMetadata, Expr)>) {
    if !p.autoSelection || !IsBTreeExpression(metaExpr) then selected == Some((meta, metaExpr))
    else
      IsSelection(AllProbes(view, p.dataset.indices, meta, metaExpr, indexQuery, p.fragmentIds),
                  PhysicalRows(p.dataset.fragments, p.fragmentIds), selected)
  }

  ghost predicate SelectedFor(p: PreparedScalarSegment, view: Snapshot, filter: Filter,
                              selected: Option<(IndexMetadata, Expr)>) {
    && Restricted(p, filter).Some? && Restricted(p, filter).value.Success? && Restricted(p, filter).value.value.Some?
    && IsSelected(p, view, Named(p).value, Restricted(p, filter).value.value.value, p.dataset.planner(filter).value,
                  selected)
  }

  /** What can go wrong with the selected segment; `None` is the choice of a full scan. */
  predicate SelectedObstacle(p: PreparedScalarSegment, selected: Option<(IndexMetadata, Expr)>, o: Obstacle) {
    if selected.None? then o == Falls(RuntimeCost)
    else
      var opening := p.dataset.open(selected.value.0.uuid);
      match o
      case Fails(OpenFailed) => opening.None?
      case Falls(UnsupportedIndexType) => opening.Some? && opening.value.kind == OtherKind
      case Falls(RowIdDomain) => opening.Some? && opening.value.addresses && p.dataset.stableRowIds
      case Fails(SearchFailed) => opening.Some? && opening.value.search(selected.value.1).None?
      case Falls(InexactResult) =>
        opening.Some? && opening.value.search(selected.value.1).Some?
        && !opening.value.search(selected.value.1).value.exact
      case _ => false
  }

  ghost predicate SearchObstacle(p: PreparedScalarSegment, view: Snapshot, f: FilterResult, o: Obstacle) {
    HasFilter(f) &&
    exists selected :: SelectedFor(p, view, f.value.value, selected) && SelectedObstacle(p, selected, o)
  }

  ghost predicate Applies(p: PreparedScalarSegment, view: Snapshot, f: FilterResult, o: Obstacle) {
    SnapshotObstacle(p, o) || FilterObstacle(p, f, o) || SearchObstacle(p, view, f, o)
  }

  ghost predicate IsFirst(p: PreparedScalarSegment, view: Snapshot, f: FilterResult, o: Obstacle) {
    Applies(p, view, f, o) && forall x | Applies(p, view, f, x) :: Rank(o) <= Rank(x)
  }

  /** The result names the first obstacle, or there is none. */
  ghost predicate IsOutcome(p: PreparedScalarSegment, view: Snapshot, f: FilterResult,
                            r: Result<Option<Fallback>, Failed>) {
    match r
    case Failure(error) => IsFirst(p, view, f, Fails(error))
    case Success(Some(reason)) => IsFirst(p, view, f, Falls(reason))
    case Success(None) => forall x :: !Applies(p, view, f, x)
  }

  lemma SnapshotComesFirst(p: PreparedScalarSegment, o: Obstacle)
    ensures SnapshotObstacle(p, o) ==> Rank(o) <= LAST_SNAPSHOT_RANK
  {
  }

  lemma FilterComesSecond(p: PreparedScalarSegment, f: FilterResult, o: Obstacle)
    ensures FilterObstacle(p, f, o) ==> LAST_SNAPSHOT_RANK < Rank(o) <= LAST_FILTER_RANK
  {
  }

  lemma SelectedComesLast(p: PreparedScalarSegment, selected: Option<(IndexMetadata, Expr)>, o: Obstacle)
    ensures SelectedObstacle(p, selected, o) ==> LAST_FILTER_RANK < Rank(o)
  {
  }

  lemma StagesAreOrdered(p: PreparedScalarSegment, view: Snapshot, f: FilterResult, o: Obstacle)
    ensures SnapshotObstacle(p, o) ==> Rank(o) <= LAST_SNAPSHOT_RANK
    ensures FilterObstacle(p, f, o) ==> LAST_SNAPSHOT_RANK < Rank(o) <= LAST_FILTER_RANK
    ensures SearchObstacle(p, view, f, o) ==> LAST_FILTER_RANK < Rank(o)
  {
    SnapshotComesFirst(p, o);
    FilterComesSecond(p, f, o);
    if SearchObstacle(p, view, f, o) {
      var selected :| SelectedFor(p, view, f.value.value, selected) && SelectedObstacle(p, selected, o);
      SelectedComesLast(p, selected, o);
    }
  }

  lemma SelectionIsUnique(p: PreparedScalarSegment, view: Snapshot, filter: Filter,
                          x: Option<(IndexMetadata, Expr)>, y: Option<(IndexMetadata, Expr)>)
    requires SelectedFor(p, view, filter, x) && SelectedFor(p, view, filter, y)
    ensures x == y
  {
    var metaExpr := Restricted(p, filter).value.value.value;
    if p.autoSelection && IsBTreeExpression(metaExpr) {
      CheapestDecides(AllProbes(view, p.dataset.indices, Named(p).value, metaExpr, p.dataset.planner(filter).value,
                                p.fragmentIds),
                      PhysicalRows(p.dataset.fragments, p.fragmentIds), x, y);
    }
  }

  lemma AlternativeAnswers(p: PreparedScalarSegment, view: Snapshot, meta: IndexMetadata, indexQuery: Expr,
                           index: IndexMetadata, e: Expr)
    requires view.fields == p.dataset.snapshot.fields
    requires IsAlternative(view.fields, p.dataset.indices, meta, indexQuery, p.fragmentIds, index, e)
    ensures Answers(p, index, indexQuery, e)
  {
  }

  /** A selected segment covers the read domain and answers the index query if the named one does. */
  lemma SelectedAnswers(p: PreparedScalarSegment, view: Snapshot, meta: IndexMetadata, metaExpr: Expr, indexQuery: Expr,
                        index: IndexMetadata, e: Expr)
    requires view.fields == p.dataset.snapshot.fields && Answers(p, meta, indexQuery, metaExpr)
    requires IsSelected(p, view, meta, metaExpr, indexQuery, Some((index, e)))
    ensures Answers(p, index, indexQuery, e)
  {
    if p.autoSelection && IsBTreeExpression(metaExpr) {
      var domain := ReadDomain(p.fragmentIds, PhysicalRows(p.dataset.fragments, p.fragmentIds));
      SelectionIsSuitable(view, p.dataset.indices, meta, metaExpr, indexQuery, domain, index, e);
      if index != meta || e != metaExpr { AlternativeAnswers(p, view, meta, indexQuery, index, e); }
    }
  }

  /** The segment to search, or `None` for a scoped full scan. */
  method SelectSegment(p: PreparedScalarSegment, meta: IndexMetadata, metaExpr: Expr, indexQuery: Expr,
                       cache: LookupCache)
    returns (r: Option<(IndexMetadata, Expr)>)
    requires cache.Coherent(p.dataset.snapshot)
    modifies cache
    ensures cache.Coherent(p.dataset.snapshot) && cache.View(p.dataset.snapshot) == old(cache.View(p.dataset.snapshot))
    ensures IsSelected(p, cache.View(p.dataset.snapshot), meta, metaExpr, indexQuery, r)
  {
    if !p.autoSelection { return Some((meta, metaExpr)); }
    var domain := ReadDomain(p.fragmentIds, PhysicalRows(p.dataset.fragments, p.fragmentIds));
    ghost var candidates;
    r, candidates := Choose(p.dataset.snapshot, p.dataset.indices, meta, metaExpr, indexQuery, domain, cache);
  }

  /** The first obstacle of the search of `selected`, if there is one. */
  ghost predicate IsSearchOutcome(p: PreparedScalarSegment, selected: Option<(IndexMetadata, Expr)>,
                                  o: Option<Obstacle>) {
    match o
    case None => forall x :: !SelectedObstacle(p, selected, x)
    case Some(first) =>
      SelectedObstacle(p, selected, first) && forall x | SelectedObstacle(p, selected, x) :: Rank(first) <= Rank(x)
  }

  datatype Searched = Mask(mask: RowMask) | Stopped(obstacle: Obstacle)

  /** Finds the segment again by its UUID, and the field of its key. */
  method FindRuntimeIndex(p: PreparedScalarSegment, uuid: nat, ghost index: IndexMetadata)
    returns (loaded: Option<Target>)
    ensures IdsIdentify(p.dataset) && index.uuid == uuid && CanName(p, index) ==> loaded == Some(NameOf(p, index))
  {
    var found := FindByUuid(p.dataset.indices, uuid);
    FoundByUuid(p.dataset.indices, uuid);
    if found.None? || found.value.keyedField.None? { return None; }
    var field := FieldById(p.dataset.snapshot.fields, found.value.keyedField.value);
    FoundField(p.dataset.snapshot.fields, found.value.keyedField.value);
    if field.None? { return None; }
    return Some(Target(found.value.name, field.value.name));
  }

  /** What a segment answers never refers to another one. */
  lemma NoLeafIsOutside(p: PreparedScalarSegment, index: IndexMetadata, indexQuery: Expr, e: Expr, segment: OpenedIndex)
    requires Answers(p, index, indexQuery, e)
    ensures Evaluate(segment, NameOf(p, index), e) ==
            match segment.search(e) case None => Failure(SearchFailed) case Some(result) => Success(result)
  {
    ScopedNamesOnlyTheTarget(indexQuery, NameOf(p, index), false, 0, MAX_EXPRESSION_NODES);
  }

  datatype Opened = Ready(segment: OpenedIndex, target: Target) | Refused(obstacle: Obstacle)

  /** Opens the segment by its UUID and checks what kind it is. */
  method OpenSegment(p: PreparedScalarSegment, uuid: nat, e: Expr, ghost index: IndexMetadata) returns (r: Opened)
    ensures r.Refused? ==> r.obstacle in {Fails(MissingRuntimeIndex), Fails(OpenFailed),
                                          Falls(UnsupportedIndexType), Falls(RowIdDomain)}
    ensures r.Ready? ==>
              && p.dataset.open(uuid) == Some(r.segment) && r.segment.kind != OtherKind
              && !(r.segment.addresses && p.dataset.stableRowIds)
    ensures IdsIdentify(p.dataset) && index.uuid == uuid && CanName(p, index) ==>
              if r.Ready? then r.target == NameOf(p, index)
              else IsSearchOutcome(p, Some((index, e)), Some(r.obstacle))
  {
    var loaded := FindRuntimeIndex(p, uuid, index);
    if loaded.None? { return Refused(Fails(MissingRuntimeIndex)); }
    var segment := p.dataset.open(uuid);
    if segment.None? { return Refused(Fails(OpenFailed)); }
    if segment.value.kind == OtherKind { return Refused(Falls(UnsupportedIndexType)); }
    if segment.value.addresses && p.dataset.stableRowIds { return Refused(Falls(RowIdDomain)); }
    return Ready(segment.value, loaded.value);
  }

  /** Opens the segment and searches it. */
  method SearchSegment(p: PreparedScalarSegment, indexQuery: Expr, uuid: nat, e: Expr, ghost index: IndexMetadata)
    returns (r: Searched, searched: bool)
    ensures IdsIdentify(p.dataset) && index.uuid == uuid && Answers(p, index, indexQuery, e) ==>
              && IsSearchOutcome(p, Some((index, e)), if r.Stopped? then Some(r.obstacle) else None)
              && (r.Mask? ==> CanMask(p, index, e) && r.mask == p.dataset.open(uuid).value.search(e).value.upper)
    ensures searched <==> r.Mask? || r.obstacle == Falls(InexactResult)
    ensures r.Stopped? ==> r.obstacle != Fails(MissingFragment)
  {
    searched := false;
    var ready := OpenSegment(p, uuid, e, index);
    if ready.Refused? { return Stopped(ready.obstacle), searched; }
    if Answers(p, index, indexQuery, e) { NoLeafIsOutside(p, index, indexQuery, e, ready.segment); }
    var result := Evaluate(ready.segment, ready.target, e);
    if result.Failure? { return Stopped(Fails(result.error)), searched; }
    searched := true;
    if !result.value.exact { return Stopped(Falls(InexactResult)), searched; }
    return Mask(result.value.upper), searched;
  }

  ghost predicate IsFirstSnapshotObstacle(p: PreparedScalarSegment, o: Obstacle) {
    SnapshotObstacle(p, o) && forall x | Rank(x) < Rank(o) :: !SnapshotObstacle(p, x)
  }

  /** The checks of the snapshot, before the filter is looked at. */
  method CheckSnapshot(p: PreparedScalarSegment) returns (obstacle: Option<Obstacle>)
    ensures obstacle.Some? ==> IsFirstSnapshotObstacle(p, obstacle.value)
    ensures obstacle.None? ==> (forall x :: !SnapshotObstacle(p, x)) && NamedField(p).Some?
  {
    var d := p.dataset;
    if !FragmentsVisible(d, p.fragmentIds) { return Some(Fails(MissingFragment)); }
    var meta := FindByUuid(d.indices, p.segmentUuid);
    if meta.None? { return Some(Fails(MissingSegment)); }
    if meta.value.keyedField.None? { return Some(Fails(NoKeyField)); }
    var field := FieldById(d.snapshot.fields, meta.value.keyedField.value);
    if field.None? { return Some(Fails(MissingField)); }
    if !p.useScalarIndex { return Some(Falls(Disabled)); }
    if d.legacyStorage { return Some(Falls(LegacyStorage)); }
    if TopLevelField(d.snapshot.fields, field.value.id).None? { return Some(Falls(NestedField)); }
    if meta.value.coverage.None? { return Some(Falls(UnknownCoverage)); }
    if !Covers(meta.value.coverage.value, p.fragmentIds) { return Some(Falls(PartialCoverage)); }
    if !FragmentsReady(d, p.fragmentIds) { return Some(Falls(FragmentState)); }
    if d.fragmentReuse { return Some(Falls(FragmentReuse)); }
    return None;
  }

  ghost predicate IsFirstFilterObstacle(p: PreparedScalarSegment, f: FilterResult, o: Obstacle) {
    FilterObstacle(p, f, o) && forall x | Rank(x) < Rank(o) :: !FilterObstacle(p, f, x)
  }

  datatype Planned = PlannedQuery(filter: Filter, indexQuery: Expr, scoped: Expr) | Unplanned(obstacle: Obstacle)

  /** The checks of the filter, up to what the named segment can answer of it. */
  method PlanFilter(p: PreparedScalarSegment, f: FilterResult) returns (r: Planned)
    requires NamedField(p).Some?
    ensures r.Unplanned? ==> IsFirstFilterObstacle(p, f, r.obstacle)
    ensures r.PlannedQuery? ==>
              && (forall x :: !FilterObstacle(p, f, x))
              && f == Success(Some(r.filter)) && p.dataset.planner(r.filter) == Some(r.indexQuery)
              && Restricted(p, r.filter) == Some(Success(Some(r.scoped)))
  {
    if f.Failure? { return Unplanned(Fails(InvalidFilter)); }
    if f.value.None? { return Unplanned(Falls(NoFilter)); }
    var filter := f.value.value;
    if filter.truthTests { return Unplanned(Falls(BooleanTruthTest)); }
    if !(filter.columns <= p.dataset.storedColumns) { return Unplanned(Falls(FilterSchema)); }
    var indexQuery := p.dataset.planner(filter);
    if indexQuery.None? { return Unplanned(Falls(NoDriver)); }
    var scoped := ScopedExpression(indexQuery.value, Target(Named(p).value.name, NamedField(p).value.name),
                                   false, 0, MAX_EXPRESSION_NODES).result;
    if scoped.Failure? { return Unplanned(Falls(Restriction(scoped.error))); }
    if scoped.value.None? { return Unplanned(Falls(NoDriver)); }
    return PlannedQuery(filter, indexQuery.value, scoped.value.value);
  }

  /** Without an obstacle of the snapshot, the named segment answers what it was found to answer. */
  lemma NamedAnswers(p: PreparedScalarSegment, filter: Filter, metaExpr: Expr)
    requires IdsIdentify(p.dataset) && NamedField(p).Some? && forall x :: !SnapshotObstacle(p, x)
    requires Restricted(p, filter) == Some(Success(Some(metaExpr)))
    ensures Answers(p, Named(p).value, p.dataset.planner(filter).value, metaExpr)
  {
    FoundByUuid(p.dataset.indices, p.segmentUuid);
    FoundField(p.dataset.snapshot.fields, Named(p).value.keyedField.value);
    assert !SnapshotObstacle(p, Falls(NestedField)) && !SnapshotObstacle(p, Falls(UnknownCoverage));
    assert !SnapshotObstacle(p, Falls(PartialCoverage));
  }

  lemma NoObstacleGuards(p: PreparedScalarSegment, filter: Filter)
    requires forall x :: !SnapshotObstacle(p, x)
    requires forall x :: !FilterObstacle(p, Success(Some(filter)), x)
    ensures FragmentsVisible(p.dataset, p.fragmentIds) && Guarded(p, filter) && Named(p).Some? && NamedField(p).Some?
    ensures Restricted(p, filter).Some? && Restricted(p, filter).value.Success?
    ensures Restricted(p, filter).value.value.Some?
  {
    assert !SnapshotObstacle(p, Fails(MissingFragment)) && !SnapshotObstacle(p, Fails(MissingSegment));
    assert !SnapshotObstacle(p, Fails(MissingField)) && !SnapshotObstacle(p, Falls(Disabled));
    assert !SnapshotObstacle(p, Falls(LegacyStorage)) && !SnapshotObstacle(p, Falls(FragmentReuse));
    assert !SnapshotObstacle(p, Falls(FragmentState));
    var f: FilterResult := Success(Some(filter));
    assert !FilterObstacle(p, f, Falls(BooleanTruthTest)) && !FilterObstacle(p, f, Falls(FilterSchema));
    assert !FilterObstacle(p, f, Falls(NoDriver));
    var restricted := Restricted(p, filter);
    if restricted.Some? && restricted.value.Failure? {
      assert FilterObstacle(p, f, Falls(Restriction(restricted.value.error)));
    }
  }

  /** The obstacles of the search are those of the one selection. */
  lemma SearchObstacleIsSelected(p: PreparedScalarSegment, view: Snapshot, filter: Filter,
                                 selected: Option<(IndexMetadata, Expr)>, x: Obstacle)
    requires SelectedFor(p, view, filter, selected)
    ensures SearchObstacle(p, view, Success(Some(filter)), x) <==> SelectedObstacle(p, selected, x)
  {
    if SearchObstacle(p, view, Success(Some(filter)), x) {
      var y :| SelectedFor(p, view, filter, y) && SelectedObstacle(p, y, x);
      SelectionIsUnique(p, view, filter, selected, y);
    }
  }

  function ToResult(o: Option<Obstacle>): Result<Option<Fallback>, Failed> {
    match o
    case None => Success(None)
    case Some(Fails(error)) => Failure(error)
    case Some(Falls(reason)) => Success(Some(reason))
  }

  lemma SnapshotOutcome(p: PreparedScalarSegment, view: Snapshot, f: FilterResult, o: Obstacle)
    requires IsFirstSnapshotObstacle(p, o)
    ensures IsOutcome(p, view, f, ToResult(Some(o)))
  {
    StagesAreOrdered(p, view, f, o);
    forall x | Applies(p, view, f, x) ensures Rank(o) <= Rank(x) { StagesAreOrdered(p, view, f, x); }
  }

  lemma FilterOutcome(p: PreparedScalarSegment, view: Snapshot, f: FilterResult, o: Obstacle)
    requires (forall x :: !SnapshotObstacle(p, x)) && IsFirstFilterObstacle(p, f, o)
    ensures IsOutcome(p, view, f, ToResult(Some(o)))
  {
    StagesAreOrdered(p, view, f, o);
    forall x | Applies(p, view, f, x) ensures Rank(o) <= Rank(x) { StagesAreOrdered(p, view, f, x); }
  }

  lemma SearchOutcome(p: PreparedScalarSegment, view: Snapshot, filter: Filter,
                      selected: Option<(IndexMetadata, Expr)>, o: Option<Obstacle>)
    requires forall x :: !SnapshotObstacle(p, x)
    requires forall x :: !FilterObstacle(p, Success(Some(filter)), x)
    requires SelectedFor(p, view, filter, selected) && IsSearchOutcome(p, selected, o)
    ensures IsOutcome(p, view, Success(Some(filter)), ToResult(o))
  {
    var f: FilterResult := Success(Some(filter));
    forall x ensures Applies(p, view, f, x) <==> SelectedObstacle(p, selected, x) {
      SearchObstacleIsSelected(p, view, filter, selected, x);
    }
  }

  /** The segment narrows this scan: the named segment answers the index query, and the selected
      one, found from it, gives an exact mask. */
  ghost predicate Accelerates(p: PreparedScalarSegment, view: Snapshot, filter: Filter, index: IndexMetadata, e: Expr) {
    && FragmentsVisible(p.dataset, p.fragmentIds) && Guarded(p, filter)
    && SelectedFor(p, view, filter, Some((index, e)))
    && Answers(p, Named(p).value, p.dataset.planner(filter).value, Restricted(p, filter).value.value.value)
    && CanMask(p, index, e)
  }

  lemma AcceleratedHasNoObstacle(p: PreparedScalarSegment, view: Snapshot, filter: Filter, index: IndexMetadata,
                                 e: Expr, x: Obstacle)
    requires IdsIdentify(p.dataset) && Accelerates(p, view, filter, index, e)
    ensures !Applies(p, view, Success(Some(filter)), x)
  {
    FoundField(p.dataset.snapshot.fields, Named(p).value.keyedField.value);
    if SearchObstacle(p, view, Success(Some(filter)), x) {
      var y :| SelectedFor(p, view, filter, y) && SelectedObstacle(p, y, x);
      SelectionIsUnique(p, view, filter, Some((index, e)), y);
    }
  }

  lemma SelectionExists(p: PreparedScalarSegment, view: Snapshot, filter: Filter)
    returns (selected: Option<(IndexMetadata, Expr)>)
    requires Restricted(p, filter).Some? && Restricted(p, filter).value.Success?
    requires Restricted(p, filter).value.value.Some?
    ensures SelectedFor(p, view, filter, selected)
  {
    var meta, metaExpr := Named(p).value, Restricted(p, filter).value.value.value;
    selected := Some((meta, metaExpr));
    if p.autoSelection && IsBTreeExpression(metaExpr) {
      var indexQuery := p.dataset.planner(filter).value;
      selected := SomeSelection(view, p.dataset.indices, meta, metaExpr, indexQuery,
                                ReadDomain(p.fragmentIds, PhysicalRows(p.dataset.fragments, p.fragmentIds)));
    }
  }

  lemma NoObstacleSelects(p: PreparedScalarSegment, selected: Option<(IndexMetadata, Expr)>)
    requires forall x :: !SelectedObstacle(p, selected, x)
    ensures selected.Some? && CanMask(p, selected.value.0, selected.value.1)
  {
    assert !SelectedObstacle(p, selected, Falls(RuntimeCost));
    assert !SelectedObstacle(p, selected, Fails(OpenFailed)) && !SelectedObstacle(p, selected, Fails(SearchFailed));
    assert !SelectedObstacle(p, selected, Falls(UnsupportedIndexType));
    assert !SelectedObstacle(p, selected, Falls(RowIdDomain)) && !SelectedObstacle(p, selected, Falls(InexactResult));
  }

  lemma NoObstacleAccelerates(p: PreparedScalarSegment, view: Snapshot, filter: Filter)
    returns (index: IndexMetadata, e: Expr)
    requires IdsIdentify(p.dataset) && forall x :: !Applies(p, view, Success(Some(filter)), x)
    ensures Accelerates(p, view, filter, index, e)
  {
    var f: FilterResult := Success(Some(filter));
    forall x ensures !SnapshotObstacle(p, x) && !FilterObstacle(p, f, x) { assert !Applies(p, view, f, x); }
    NoObstacleGuards(p, filter);
    NamedAnswers(p, filter, Restricted(p, filter).value.value.value);
    var selected := SelectionExists(p, view, filter);
    forall x ensures !SelectedObstacle(p, selected, x) { assert !Applies(p, view, f, x); }
    NoObstacleSelects(p, selected);
    index, e := selected.value.0, selected.value.1;
    assert selected == Some((index, e));
  }

  /** In both modes a mask is installed if and only if the segment can narrow the scan: that is when
      no obstacle applies. */
  lemma NoObstacleIff(p: PreparedScalarSegment, view: Snapshot, filter: Filter)
    requires IdsIdentify(p.dataset)
    ensures (forall x :: !Applies(p, view, Success(Some(filter)), x)) <==>
            exists index, e :: Accelerates(p, view, filter, index, e)
  {
    var f: FilterResult := Success(Some(filter));
    if forall x :: !Applies(p, view, f, x) {
      var index, e := NoObstacleAccelerates(p, view, filter);
    }
    if index, e :| Accelerates(p, view, filter, index, e) {
      forall x ensures !Applies(p, view, f, x) { AcceleratedHasNoObstacle(p, view, filter, index, e, x); }
    }
  }

  /** The search of what was selected; `r` is the mask, or the obstacle that came first. */
  method SearchSelected(p: PreparedScalarSegment, q: Planned, ghost view: Snapshot,
                        selected: Option<(IndexMetadata, Expr)>)
    returns (r: Searched, searched: bool)
    requires q.PlannedQuery? && view.fields == p.dataset.snapshot.fields
    requires (forall x :: !SnapshotObstacle(p, x)) && NamedField(p).Some?
    requires p.dataset.planner(q.filter) == Some(q.indexQuery)
    requires Restricted(p, q.filter) == Some(Success(Some(q.scoped)))
    requires SelectedFor(p, view, q.filter, selected)
    ensures IdsIdentify(p.dataset) ==> IsSearchOutcome(p, selected, if r.Stopped? then Some(r.obstacle) else None)
    ensures r.Mask? ==> searched && selected.Some?
    ensures searched <==> r.Mask? || r.obstacle == Falls(InexactResult)
    ensures r.Stopped? ==> r.obstacle != Fails(MissingFragment)
    ensures IdsIdentify(p.dataset) && r.Mask? ==> MaskFrom(p, q.filter, r.mask, selected.value.0, selected.value.1)
  {
    if selected.None? { return Stopped(Falls(RuntimeCost)), false; }
    ghost var (index, e) := selected.value;
    if IdsIdentify(p.dataset) {
      NamedAnswers(p, q.filter, q.scoped);
      SelectedAnswers(p, view, Named(p).value, q.scoped, q.indexQuery, index, e);
    }
    r, searched := SearchSegment(p, q.indexQuery, selected.value.0.uuid, selected.value.1, index);
  }

  /** Every early return leaves the reader alone and names the obstacle of the least rank; the last
      one installs the mask, when there is no obstacle. */
  method ConfigureCandidates(p: PreparedScalarSegment, reader: Reader, cache: LookupCache)
    returns (r: Result<Option<Fallback>, Failed>, searched: bool)
    requires reader.scope == p.fragmentIds && cache.Coherent(p.dataset.snapshot)
    modifies reader`prefilter, cache
    ensures cache.View(p.dataset.snapshot) == old(cache.View(p.dataset.snapshot))
    ensures IdsIdentify(p.dataset) ==> IsOutcome(p, cache.View(p.dataset.snapshot), reader.filter, r)
    ensures searched <==> r == Success(None) || r == Success(Some(InexactResult))
    ensures r == Failure(MissingFragment) <==>
            exists id | id in p.fragmentIds :: forall f | f in p.dataset.fragments :: f.id != id
    ensures r.Success? ==> FragmentsVisible(p.dataset, p.fragmentIds)
    ensures r != Success(None) ==> reader.prefilter == old(reader.prefilter)
    ensures searched || r == Success(None) ==> HasFilter(reader.filter) && Guarded(p, reader.filter.value.value)
    ensures r == Success(None) ==>
              && searched && reader.prefilter.Some?
              && (IdsIdentify(p.dataset) ==> exists index, e ::
                    && SelectedFor(p, cache.View(p.dataset.snapshot), reader.filter.value.value, Some((index, e)))
                    && MaskFrom(p, reader.filter.value.value, reader.prefilter.value, index, e))
  {
    ghost var view := cache.View(p.dataset.snapshot);
    searched := false;
    var early := CheckSnapshot(p);
    if early.Some? {
      SnapshotOutcome(p, view, reader.filter, early.value);
      assert early.value != Fails(MissingFragment) ==> !SnapshotObstacle(p, Fails(MissingFragment));
      return ToResult(early), searched;
    }
    assert !SnapshotObstacle(p, Fails(MissingFragment));
    var q := PlanFilter(p, reader.filter);
    if q.Unplanned? {
      FilterOutcome(p, view, reader.filter, q.obstacle);
      return ToResult(Some(q.obstacle)), searched;
    }
    NoObstacleGuards(p, q.filter);
    var selected := SelectSegment(p, Named(p).value, q.scoped, q.indexQuery, cache);
    assert SelectedFor(p, view, q.filter, selected);
    var found;
    found, searched := SearchSelected(p, q, view, selected);
    ghost var stop := if found.Stopped? then Some(found.obstacle) else None;
    if IdsIdentify(p.dataset) { SearchOutcome(p, view, q.filter, selected, stop); }
    if found.Stopped? { return ToResult(Some(found.obstacle)), searched; }
    reader.prefilter := Some(found.mask);
    return Success(None), searched;
  }

  /** What the preparation adds to the statistics of the scan. */
  datatype Statistics = Statistics(requested: nat, fallback: Option<Fallback>, searched: bool)

  /** On every return path the reader yields the rows of the scoped scan with the complete
      filter. A fallback is recorded exactly when no mask was installed. */
  method Configure(p: PreparedScalarSegment, reader: Reader, cache: LookupCache)
    returns (r: Result<Statistics, Failed>)
    requires reader.scope == p.fragmentIds && reader.prefilter == None && cache.Coherent(p.dataset.snapshot)
    modifies reader, cache
    ensures !reader.useScalarIndex
    ensures r.Success? ==>
              && r.value.requested == 1
              && (r.value.fallback.None? <==> reader.prefilter.Some?)
              && (r.value.searched <==> r.value.fallback == None || r.value.fallback == Some(InexactResult))
    ensures IdsIdentify(p.dataset) ==>
              IsOutcome(p, old(cache.View(p.dataset.snapshot)), reader.filter,
                        if r.Success? then Success(r.value.fallback) else Failure(r.error))
    ensures reader.prefilter.Some? ==> r.Success?
    ensures && r.Success? && reader.filter.Success?
            && IdsIdentify(p.dataset) && RowIdsAgree(p.dataset) && PlannerSound(p.dataset) && SearchSound(p.dataset) ==>
              reader.Scan(p.dataset) ==
              PlainScan(p.dataset, p.fragmentIds, reader.filter.value, reader.offset, reader.limit)
  {
    reader.useScalarIndex := false;
    var reason, searched := ConfigureCandidates(p, reader, cache);
    if reason.Failure? { return Failure(reason.error); }
    ghost var d := p.dataset;
    if reason == Success(None) && IdsIdentify(d) && RowIdsAgree(d) && PlannerSound(d) && SearchSound(d) {
      var filter := reader.filter.value.value;
      var index, e :| MaskFrom(p, filter, reader.prefilter.value, index, e);
      AcceleratorIsTransparent(p, filter, reader.prefilter.value, index, e);
    }
    return Success(Statistics(1, reason.value, searched));
  }
}
