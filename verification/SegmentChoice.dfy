/** Bounded selection of the cheapest BTree segment (src/scalar_index_selection.rs). */
module SegmentChoice {
  import opened Common
  import opened ScalarExpression
  import opened PageEstimate
  import opened KeyOrder

  const MAX_CANDIDATES: nat := 8
  const MAX_LOOKUP_BYTES: nat := 8 * 1024 * 1024
  const MAX_DECODED_LOOKUP_BYTES: nat := 8 * 1024 * 1024
  const BTREE_LOOKUP_NAME: string := "page_lookup.lance"

  datatype IndexFile = IndexFile(path: string, sizeBytes: nat)

  datatype IndexMetadata = IndexMetadata(
    uuid: nat, name: string, keyedField: Option<int>, files: Option<seq<IndexFile>>, coverage: Option<set<nat>>)

  /** `width` is the fixed byte width of the field's type, if it has one. */
  datatype Field = Field(id: int, name: string, topLevel: bool, width: Option<nat>)

  datatype PageSize = Absent | Parsed(rows: nat) | Malformed

  /** The BTree lookup file of one segment, as storage holds it. */
  datatype StoredLookup = StoredLookup(widths: seq<Option<nat>>, pageSize: PageSize, batch: Batch)

  /** `lookups` are the immutable lookup files by segment; `readable` are the segments whose file
      opens and reads without an error at the time. */
  datatype Snapshot = Snapshot(
    fields: seq<Field>, lookups: map<nat, StoredLookup>, readable: set<nat>, defaultRowsPerPage: nat)

  /** The snapshot as a session sees it that has the lookups of `cached` at hand. */
  function Reach(s: Snapshot, cached: set<nat>): Snapshot {
    s.(readable := s.readable + cached)
  }

  datatype Lookup = Lookup(batch: Batch, rowsPerPage: nat, decodedBytes: nat)

  // ---------------------------------------------------------------------------
  // Decoded size
  // ---------------------------------------------------------------------------

  function DecodedLookupBytes(widths: seq<Option<nat>>, rows: nat, bytes: nat): Option<nat> {
    if widths == [] then Some(bytes)
    else if widths[0].None? then None
    else
      match CheckedMul(rows, widths[0].value)
      case None => None
      case Some(values) =>
        match CheckedAdd(bytes, values)
        case None => None
        case Some(withValues) =>
          match CheckedAdd(withValues, (rows + 7) / 8)
          case None => None
          case Some(withValidity) =>
            match CheckedAdd(withValidity, 1024)
            case None => None
            case Some(total) => DecodedLookupBytes(widths[1..], rows, total)
  }

  predicate WidthsKnown(widths: seq<Option<nat>>) {
    forall w | w in widths :: w.Some?
  }

  /** The size in unbounded arithmetic. */
  function TrueDecodedBytes(widths: seq<Option<nat>>, rows: nat): nat
    requires WidthsKnown(widths)
  {
    if widths == [] then 0
    else
      assert widths[0] in widths;
      rows * widths[0].value + (rows + 7) / 8 + 1024 + TrueDecodedBytes(widths[1..], rows)
  }

  lemma {:induction false} DecodedBytesExact(widths: seq<Option<nat>>, rows: nat, bytes: nat)
    requires bytes <= U64_MAX
    ensures DecodedLookupBytes(widths, rows, bytes) ==
            if WidthsKnown(widths) && bytes + TrueDecodedBytes(widths, rows) <= U64_MAX
            then Some(bytes + TrueDecodedBytes(widths, rows)) else None
  {
    if widths != [] {
      assert widths == [widths[0]] + widths[1..];
      assert WidthsKnown(widths) <==> widths[0].Some? && WidthsKnown(widths[1..]);
      if widths[0].Some? {
        var next := bytes + rows * widths[0].value + (rows + 7) / 8 + 1024;
        if next <= U64_MAX { DecodedBytesExact(widths[1..], rows, next); }
      }
    }
  }

  function SumOfWidths(widths: seq<Option<nat>>): nat
    requires WidthsKnown(widths)
  {
    if widths == [] then 0
    else
      assert widths[0] in widths;
      widths[0].value + SumOfWidths(widths[1..])
  }

  /** A row takes its widths; each column adds a validity bit a row, rounded up, and 1024 bytes. */
  lemma {:induction false} TrueBytesClosed(widths: seq<Option<nat>>, rows: nat)
    requires WidthsKnown(widths)
    ensures TrueDecodedBytes(widths, rows) == rows * SumOfWidths(widths) + |widths| * ((rows + 7) / 8 + 1024)
  {
    if widths != [] {
      assert widths[0] in widths;
      TrueBytesClosed(widths[1..], rows);
      var w, rest := widths[0].value, SumOfWidths(widths[1..]);
      assert rows * (w + rest) == rows * w + rows * rest;
      var c := (rows + 7) / 8 + 1024;
      assert |widths| * c == c + |widths[1..]| * c;
    }
  }

  // ---------------------------------------------------------------------------
  // One estimate
  // ---------------------------------------------------------------------------

  predicate IsBTreeExpression(e: Expr) {
    match e
    case Query(search) => search.indexKind == BTree
    case And(lhs, rhs) => IsBTreeExpression(lhs) && IsBTreeExpression(rhs)
    case Or(lhs, rhs) => IsBTreeExpression(lhs) && IsBTreeExpression(rhs)
    case Not(_) => false
  }

  function FieldById(fields: seq<Field>, id: int): Option<Field> {
    if fields == [] then None else if fields[0].id == id then Some(fields[0]) else FieldById(fields[1..], id)
  }

  function TopLevelField(fields: seq<Field>, id: int): Option<Field> {
    if fields == [] then None
    else if fields[0].topLevel && fields[0].id == id then Some(fields[0])
    else TopLevelField(fields[1..], id)
  }

  function LookupFileSize(files: seq<IndexFile>): Option<nat> {
    if files == [] then None
    else if files[0].path == BTREE_LOOKUP_NAME then Some(files[0].sizeBytes)
    else LookupFileSize(files[1..])
  }

  /** What loading the lookup of a segment gives, apart from the byte budget. */
  function DecodedLookup(s: Snapshot, uuid: nat): Option<Lookup> {
    if uuid !in s.lookups || uuid !in s.readable then None
    else
      var stored := s.lookups[uuid];
      var rows := |stored.batch.pages|;
      if rows > MAX_LOOKUP_PAGES then None
      else
        match DecodedLookupBytes(stored.widths, rows, 0)
        case None => None
        case Some(bytes) =>
          if stored.pageSize.Malformed? then None
          else
            var perPage := if stored.pageSize.Parsed? then stored.pageSize.rows else s.defaultRowsPerPage;
            if perPage == 0 then None else Some(Lookup(stored.batch, perPage, bytes))
  }

  datatype Budget = Budget(serialized: nat, decoded: nat)

  const FULL_BUDGET: Budget := Budget(MAX_LOOKUP_BYTES, MAX_DECODED_LOOKUP_BYTES)

  /** A budget is only ever consumed. */
  predicate Within(after: Budget, before: Budget) {
    after.serialized <= before.serialized && after.decoded <= before.decoded
  }

  datatype Estimate = Estimate(cost: nat, pages: nat)

  /** The serialized size of the lookup, when the segment may be probed at all. */
  function ProbeSize(fields: seq<Field>, index: IndexMetadata, e: Expr): Option<nat> {
    if !IsBTreeExpression(e) || index.keyedField.None? || index.files.None? then None
    else
      match FieldById(fields, index.keyedField.value)
      case None => None
      case Some(field) => if field.width.None? then None else LookupFileSize(index.files.value)
  }

  /** The estimate and the budget it leaves. The cache plays no part. */
  function EstimatedCost(s: Snapshot, index: IndexMetadata, e: Expr, budget: Budget): (r: (Option<Estimate>, Budget))
    ensures Within(r.1, budget)
  {
    match ProbeSize(s.fields, index, e)
    case None => (None, budget)
    case Some(size) =>
      if size > budget.serialized then (None, budget)
      else
        var charged := budget.(serialized := budget.serialized - size);
        match DecodedLookup(s, index.uuid)
        case None => (None, charged)
        case Some(lookup) =>
          if lookup.decodedBytes > charged.decoded then (None, charged)
          else
            var spent := charged.(decoded := charged.decoded - lookup.decodedBytes);
            match EstimatedPages(lookup.batch, e)
            case None => (None, spent)
            case Some(pages) => (Some(Estimate(SaturatingMul(lookup.rowsPerPage, pages), pages)), spent)
  }

  // ---------------------------------------------------------------------------
  // What an estimate takes and what it costs
  // ---------------------------------------------------------------------------

  lemma {:induction false} BTreeExpressionMeans(e: Expr)
    ensures IsBTreeExpression(e) <==> IsMonotone(e) && forall s | s in Leaves(e) :: s.indexKind == BTree
  {
    match e
    case Query(search) => assert search in Leaves(e);
    case And(lhs, rhs) =>
      BTreeExpressionMeans(lhs);
      BTreeExpressionMeans(rhs);
      assert forall s | s in Leaves(lhs) || s in Leaves(rhs) :: s in Leaves(e);
    case Or(lhs, rhs) =>
      BTreeExpressionMeans(lhs);
      BTreeExpressionMeans(rhs);
      assert forall s | s in Leaves(lhs) || s in Leaves(rhs) :: s in Leaves(e);
    case Not(_) =>
  }

  /** The first field with the id. */
  predicate IsFieldAt(fields: seq<Field>, id: int, topLevel: bool, i: int) {
    && 0 <= i < |fields| && fields[i].id == id && (topLevel ==> fields[i].topLevel)
    && forall j | 0 <= j < i :: !(fields[j].id == id && (topLevel ==> fields[j].topLevel))
  }

  lemma {:induction false} FieldIsFirst(fields: seq<Field>, id: int)
    ensures match FieldById(fields, id)
            case None => forall f | f in fields :: f.id != id
            case Some(f) => exists i :: IsFieldAt(fields, id, false, i) && fields[i] == f
    ensures match TopLevelField(fields, id)
            case None => forall f | f in fields :: !(f.topLevel && f.id == id)
            case Some(f) => exists i :: IsFieldAt(fields, id, true, i) && fields[i] == f
  {
    if fields != [] {
      var rest := fields[1..];
      FieldIsFirst(rest, id);
      assert fields == [fields[0]] + rest;
      if fields[0].id == id {
        assert IsFieldAt(fields, id, false, 0);
      } else if FieldById(rest, id).Some? {
        var i :| IsFieldAt(rest, id, false, i) && rest[i] == FieldById(rest, id).value;
        assert IsFieldAt(fields, id, false, i + 1);
      }
      if fields[0].topLevel && fields[0].id == id {
        assert IsFieldAt(fields, id, true, 0);
      } else if TopLevelField(rest, id).Some? {
        var i :| IsFieldAt(rest, id, true, i) && rest[i] == TopLevelField(rest, id).value;
        assert IsFieldAt(fields, id, true, i + 1);
      }
    }
  }

  /** The first file of that name. */
  lemma {:induction false} LookupFileIsFirst(files: seq<IndexFile>) returns (i: nat)
    ensures LookupFileSize(files).None? <==> forall f | f in files :: f.path != "page_lookup.lance"
    ensures LookupFileSize(files).Some? ==>
              && i < |files| && files[i] == IndexFile("page_lookup.lance", LookupFileSize(files).value)
              && forall j | 0 <= j < i :: files[j].path != "page_lookup.lance"
  {
    i := 0;
    if files != [] && files[0].path != BTREE_LOOKUP_NAME {
      var k := LookupFileIsFirst(files[1..]);
      assert files == [files[0]] + files[1..];
      i := k + 1;
    }
  }

  /** A lookup is there when its file is readable, has at most 65,536 pages, columns of known width whose
      size fits, and a positive page size: the parsed one, or the default where there is none. */
  lemma DecodedLookupMeans(s: Snapshot, uuid: nat)
    ensures DecodedLookup(s, uuid).Some? <==>
            && uuid in s.lookups && uuid in s.readable
            && var stored := s.lookups[uuid];
               && |stored.batch.pages| <= 65_536 && WidthsKnown(stored.widths)
               && TrueDecodedBytes(stored.widths, |stored.batch.pages|) <= 0xFFFF_FFFF_FFFF_FFFF
               && !stored.pageSize.Malformed?
               && (stored.pageSize.Parsed? ==> stored.pageSize.rows > 0)
               && (stored.pageSize.Absent? ==> s.defaultRowsPerPage > 0)
    ensures DecodedLookup(s, uuid).Some? ==>
              var stored, lookup := s.lookups[uuid], DecodedLookup(s, uuid).value;
              && lookup.batch == stored.batch
              && lookup.decodedBytes == TrueDecodedBytes(stored.widths, |stored.batch.pages|)
              && (stored.pageSize.Parsed? ==> lookup.rowsPerPage == stored.pageSize.rows)
              && (stored.pageSize.Absent? ==> lookup.rowsPerPage == s.defaultRowsPerPage)
  {
    if uuid in s.lookups { DecodedBytesExact(s.lookups[uuid].widths, |s.lookups[uuid].batch.pages|, 0); }
  }

  lemma ProbeSizeMeans(fields: seq<Field>, index: IndexMetadata, e: Expr, size: nat)
    ensures ProbeSize(fields, index, e) == Some(size) <==>
            && IsBTreeExpression(e) && index.keyedField.Some? && index.files.Some?
            && FieldById(fields, index.keyedField.value).Some?
            && FieldById(fields, index.keyedField.value).value.width.Some?
            && LookupFileSize(index.files.value) == Some(size)
  {
  }

  /** The lookup file is charged as soon as its size fits, the decoded lookup as soon as that fits too;
      there is an estimate when both fit and the pages can be counted. */
  lemma EstimatedCostMeans(s: Snapshot, index: IndexMetadata, e: Expr, budget: Budget)
    ensures var (estimate, left) := EstimatedCost(s, index, e, budget);
            var size := ProbeSize(s.fields, index, e);
            var admitted := size.Some? && size.value <= budget.serialized;
            var lookup := DecodedLookup(s, index.uuid);
            var loaded := admitted && lookup.Some? && lookup.value.decodedBytes <= budget.decoded;
            && left.serialized == budget.serialized - (if admitted then size.value else 0)
            && left.decoded == budget.decoded - (if loaded then lookup.value.decodedBytes else 0)
            && (estimate.Some? <==> loaded && EstimatedPages(lookup.value.batch, e).Some?)
            && (estimate.Some? ==>
                  && estimate.value.pages == EstimatedPages(lookup.value.batch, e).value
                  && var rows := lookup.value.rowsPerPage * estimate.value.pages;
                     estimate.value.cost == if rows <= 0xFFFF_FFFF_FFFF_FFFF then rows else 0xFFFF_FFFF_FFFF_FFFF)
  {
  }

  class ProbeBudget {
    var serializedBytes: nat
    var decodedBytes: nat

    constructor ()
      ensures View() == FULL_BUDGET && serializedBytes == 8_388_608 && decodedBytes == 8_388_608
    {
      serializedBytes, decodedBytes := MAX_LOOKUP_BYTES, MAX_DECODED_LOOKUP_BYTES;
    }

    function View(): Budget
      reads this
    {
      Budget(serializedBytes, decodedBytes)
    }
  }

  /** The session's metadata cache: it may hold, admit or refuse any lookup, and goes on holding
      one whose file can no longer be read. */
  class LookupCache {
    var entries: map<nat, Lookup>

    /** The lookups that a probe can get at, from the cache or from storage. */
    ghost function View(s: Snapshot): Snapshot
      reads this
    {
      Reach(s, entries.Keys)
    }

    ghost predicate Coherent(s: Snapshot)
      reads this
    {
      forall uuid | uuid in entries :: DecodedLookup(View(s), uuid) == Some(entries[uuid])
    }

    constructor ()
      ensures forall s :: Coherent(s) && View(s) == s
    {
      entries := map[];
    }

    /** A miss loads the file only when it can be read and its decoded size fits what is
        available. */
    method GetOrLoad(s: Snapshot, uuid: nat, available: nat) returns (r: Option<Lookup>)
      requires Coherent(s)
      modifies this
      ensures Coherent(s) && View(s) == old(View(s))
      ensures r.Some? ==> DecodedLookup(View(s), uuid) == r
      ensures r.None? ==>
                (DecodedLookup(View(s), uuid).Some? ==> DecodedLookup(View(s), uuid).value.decodedBytes > available)
    {
      if uuid in entries { return Some(entries[uuid]); }
      r := DecodedLookup(s, uuid);
      if r.Some? {
        if r.value.decodedBytes > available { return None; }
        if * {
          var evicted: set<nat> := *;
          entries := (entries - (evicted * s.readable))[uuid := r.value];
          assert View(s).readable == old(View(s).readable);
        }
      }
    }
  }

  /** A cached and a freshly loaded lookup are charged alike, so of the cache only those lookups
      matter that storage can no longer give. */
  method EstimateCost(s: Snapshot, index: IndexMetadata, e: Expr, budget: ProbeBudget, cache: LookupCache)
    returns (r: Option<Estimate>)
    requires cache.Coherent(s)
    modifies budget, cache
    ensures cache.Coherent(s) && cache.View(s) == old(cache.View(s))
    ensures r == EstimatedCost(cache.View(s), index, e, old(budget.View())).0
    ensures budget.View() == EstimatedCost(cache.View(s), index, e, old(budget.View())).1
  {
    var size := ProbeSize(s.fields, index, e);
    if size.None? || size.value > budget.serializedBytes { return None; }
    budget.serializedBytes := budget.serializedBytes - size.value;
    var lookup := cache.GetOrLoad(s, index.uuid, budget.decodedBytes);
    if lookup.None? { return None; }
    if lookup.value.decodedBytes > budget.decodedBytes { return None; }
    budget.decodedBytes := budget.decodedBytes - lookup.value.decodedBytes;
    var pages := EstimatePages(lookup.value.batch, e);
    if pages.None? { return None; }
    return Some(Estimate(SaturatingMul(lookup.value.rowsPerPage, pages.value), pages.value));
  }

  // ---------------------------------------------------------------------------
  // The choice
  // ---------------------------------------------------------------------------

  datatype ReadDomain = ReadDomain(fragmentIds: seq<nat>, physicalRows: nat)

  predicate Covers(coverage: set<nat>, fragmentIds: seq<nat>) {
    forall id | id in fragmentIds :: id <= U32_MAX && id in coverage
  }

  /** The expression an alternative segment would answer, when it may replace the grouping one. */
  function EligibleExpression(fields: seq<Field>, index: IndexMetadata, indexQuery: Expr,
                              fragmentIds: seq<nat>): Option<Expr> {
    if index.keyedField.None? then None
    else
      match TopLevelField(fields, index.keyedField.value)
      case None => None
      case Some(field) =>
        if index.coverage.None? || !Covers(index.coverage.value, fragmentIds) then None
        else
          match ScopedExpression(indexQuery, Target(index.name, field.name), false, 0, MAX_EXPRESSION_NODES).result
          case Success(Some(e)) => if IsBTreeExpression(e) then Some(e) else None
          case _ => None
  }

  datatype Probe = Probe(index: IndexMetadata, expr: Expr, estimate: Option<Estimate>, charged: Budget)

  function Charge(before: Budget, after: Budget): Budget
    requires Within(after, before)
  {
    Budget(before.serialized - after.serialized, before.decoded - after.decoded)
  }

  datatype Candidate = Candidate(index: IndexMetadata, expr: Expr)

  /** The first `limit` alternatives that may replace the grouping segment. */
  function Eligible(fields: seq<Field>, alternatives: seq<IndexMetadata>, indexQuery: Expr, fragmentIds: seq<nat>,
                    limit: int): seq<Candidate>
    decreases |alternatives|
  {
    if alternatives == [] || limit <= 0 then []
    else
      match EligibleExpression(fields, alternatives[0], indexQuery, fragmentIds)
      case None => Eligible(fields, alternatives[1..], indexQuery, fragmentIds, limit)
      case Some(e) =>
        [Candidate(alternatives[0], e)] + Eligible(fields, alternatives[1..], indexQuery, fragmentIds, limit - 1)
  }

  function ProbeOf(s: Snapshot, candidate: Candidate, budget: Budget): Probe {
    var (estimate, left) := EstimatedCost(s, candidate.index, candidate.expr, budget);
    Probe(candidate.index, candidate.expr, estimate, Charge(budget, left))
  }

  /** Probing candidates one after the other on a shared budget. */
  function Probes(s: Snapshot, candidates: seq<Candidate>, budget: Budget): (r: seq<Probe>)
    ensures |r| == |candidates|
    ensures forall i | 0 <= i < |r| :: r[i].index == candidates[i].index && r[i].expr == candidates[i].expr
  {
    if candidates == [] then []
    else
      [ProbeOf(s, candidates[0], budget)] +
      Probes(s, candidates[1..], EstimatedCost(s, candidates[0].index, candidates[0].expr, budget).1)
  }

  function IndexKey(index: IndexMetadata): Key {
    Key(index.name, index.uuid)
  }

  function Others(indices: seq<IndexMetadata>, uuid: nat): seq<IndexMetadata> {
    if indices == [] then []
    else (if indices[0].uuid != uuid then [indices[0]] else []) + Others(indices[1..], uuid)
  }

  function Alternatives(indices: seq<IndexMetadata>, grouping: IndexMetadata): seq<IndexMetadata> {
    SortByKey(IndexKey, Others(indices, grouping.uuid))
  }

  /** Every probe of one selection: the grouping segment, then the alternatives in order. */
  function AllProbes(s: Snapshot, indices: seq<IndexMetadata>, grouping: IndexMetadata, groupingExpr: Expr,
                     indexQuery: Expr, fragmentIds: seq<nat>): seq<Probe> {
    var first := Candidate(grouping, groupingExpr);
    if ProbeOf(s, first, FULL_BUDGET).estimate.None? then Probes(s, [first], FULL_BUDGET)
    else
      var alternatives := Alternatives(indices, grouping);
      Probes(s, [first] + Eligible(s.fields, alternatives, indexQuery, fragmentIds, MAX_CANDIDATES - 1), FULL_BUDGET)
  }

  /** `k` has the least estimate, and of several such it is the first. */
  predicate IsCheapest(probes: seq<Probe>, k: nat) {
    && k < |probes| && probes[k].estimate.Some?
    && (forall j | 0 <= j < |probes| && probes[j].estimate.Some? ::
          probes[k].estimate.value.cost <= probes[j].estimate.value.cost)
    && (forall j | 0 <= j < k && probes[j].estimate.Some? ::
          probes[k].estimate.value.cost < probes[j].estimate.value.cost)
  }

  /** `None` asks for a full scan of the read domain. */
  ghost predicate IsSelection(probes: seq<Probe>, physicalRows: nat, selected: Option<(IndexMetadata, Expr)>)
    requires probes != []
  {
    if probes[0].estimate.None? then selected == Some((probes[0].index, probes[0].expr))
    else
      exists k: nat :: IsCheapest(probes, k) && selected == Decision(probes[k], physicalRows)
  }

  function Decision(probe: Probe, physicalRows: nat): Option<(IndexMetadata, Expr)>
    requires probe.estimate.Some?
  {
    if probe.estimate.value.cost >= physicalRows then None else Some((probe.index, probe.expr))
  }

  /** The running minimum of the loop. */
  datatype Leader = Leader(index: IndexMetadata, expr: Expr, cost: nat)

  ghost predicate Leads(probes: seq<Probe>, leader: Leader) {
    exists k: nat :: IsCheapest(probes, k) &&
      leader == Leader(probes[k].index, probes[k].expr, probes[k].estimate.value.cost)
  }

  function NextLeader(leader: Leader, probe: Probe): Leader {
    if probe.estimate.Some? && probe.estimate.value.cost < leader.cost
    then Leader(probe.index, probe.expr, probe.estimate.value.cost) else leader
  }

  lemma NextLeaderLeads(probes: seq<Probe>, leader: Leader, probe: Probe)
    requires Leads(probes, leader)
    ensures Leads(probes + [probe], NextLeader(leader, probe))
  {
    var all := probes + [probe];
    var k: nat :| IsCheapest(probes, k) &&
      leader == Leader(probes[k].index, probes[k].expr, probes[k].estimate.value.cost);
    if probe.estimate.Some? && probe.estimate.value.cost < leader.cost {
      assert IsCheapest(all, |probes|);
    } else {
      assert IsCheapest(all, k);
    }
  }

  lemma EligibleAt(s: Snapshot, alternatives: seq<IndexMetadata>, i: nat, indexQuery: Expr, fragmentIds: seq<nat>,
                   limit: int)
    requires i < |alternatives| && limit > 0
    ensures Eligible(s.fields, alternatives[i..], indexQuery, fragmentIds, limit) ==
            match EligibleExpression(s.fields, alternatives[i], indexQuery, fragmentIds)
            case None => Eligible(s.fields, alternatives[i + 1..], indexQuery, fragmentIds, limit)
            case Some(e) =>
              [Candidate(alternatives[i], e)]
              + Eligible(s.fields, alternatives[i + 1..], indexQuery, fragmentIds, limit - 1)
  {
    assert alternatives[i..][1..] == alternatives[i + 1..];
  }

  /** The leader once all of `probes` were considered too. */
  function FinalLeader(leader: Leader, probes: seq<Probe>): Leader
    decreases |probes|
  {
    if probes == [] then leader else FinalLeader(NextLeader(leader, probes[0]), probes[1..])
  }

  lemma {:induction false} FinalLeaderLeads(done: seq<Probe>, leader: Leader, probes: seq<Probe>)
    requires Leads(done, leader)
    ensures Leads(done + probes, FinalLeader(leader, probes))
    decreases |probes|
  {
    if probes == [] {
      assert done + probes == done;
    } else {
      NextLeaderLeads(done, leader, probes[0]);
      FinalLeaderLeads(done + [probes[0]], NextLeader(leader, probes[0]), probes[1..]);
      assert done + probes == (done + [probes[0]]) + probes[1..];
    }
  }

  /** The same leader, computed while the budget is spent. */
  function LeaderAfter(s: Snapshot, leader: Leader, candidates: seq<Candidate>, budget: Budget): Leader
    decreases |candidates|
  {
    if candidates == [] then leader
    else
      LeaderAfter(s, NextLeader(leader, ProbeOf(s, candidates[0], budget)), candidates[1..],
                  EstimatedCost(s, candidates[0].index, candidates[0].expr, budget).1)
  }

  lemma {:induction false} LeaderAfterIsFinal(s: Snapshot, leader: Leader, candidates: seq<Candidate>, budget: Budget)
    ensures LeaderAfter(s, leader, candidates, budget) == FinalLeader(leader, Probes(s, candidates, budget))
    decreases |candidates|
  {
    if candidates != [] {
      var probe := ProbeOf(s, candidates[0], budget);
      var left := EstimatedCost(s, candidates[0].index, candidates[0].expr, budget).1;
      LeaderAfterIsFinal(s, NextLeader(leader, probe), candidates[1..], left);
      assert Probes(s, candidates, budget)[1..] == Probes(s, candidates[1..], left);
    }
  }

  /** One turn of the minimising loop: pass the alternative over, or probe it. */
  method Consider(s: Snapshot, alternatives: seq<IndexMetadata>, i: nat, indexQuery: Expr, fragmentIds: seq<nat>,
                  leader: Leader, candidates: int, budget: ProbeBudget, cache: LookupCache)
    returns (next: Leader, made: int)
    requires cache.Coherent(s) && i < |alternatives| && candidates < MAX_CANDIDATES
    modifies budget, cache
    ensures cache.Coherent(s) && cache.View(s) == old(cache.View(s))
    ensures var before := Eligible(s.fields, alternatives[i..], indexQuery, fragmentIds, MAX_CANDIDATES - candidates);
            var after := Eligible(s.fields, alternatives[i + 1..], indexQuery, fragmentIds, MAX_CANDIDATES - made);
            && made + |after| == candidates + |before|
            && LeaderAfter(cache.View(s), next, after, budget.View()) ==
               LeaderAfter(cache.View(s), leader, before, old(budget.View()))
  {
    EligibleAt(s, alternatives, i, indexQuery, fragmentIds, MAX_CANDIDATES - candidates);
    next, made := leader, candidates;
    var e := EligibleExpression(s.fields, alternatives[i], indexQuery, fragmentIds);
    if e.Some? {
      made := candidates + 1;
      var estimate := EstimateCost(s, alternatives[i], e.value, budget, cache);
      if estimate.Some? && estimate.value.cost < leader.cost {
        next := Leader(alternatives[i], e.value, estimate.value.cost);
      }
    }
  }

  /** The minimising loop over the alternatives, after the grouping segment was probed. */
  method ProbeAlternatives(s: Snapshot, alternatives: seq<IndexMetadata>, indexQuery: Expr, fragmentIds: seq<nat>,
                           first: Leader, budget: ProbeBudget, cache: LookupCache)
    returns (leader: Leader, candidates: int)
    requires cache.Coherent(s)
    modifies budget, cache
    ensures cache.Coherent(s) && cache.View(s) == old(cache.View(s))
    ensures var eligible := Eligible(s.fields, alternatives, indexQuery, fragmentIds, MAX_CANDIDATES - 1);
            candidates == 1 + |eligible| && leader == LeaderAfter(cache.View(s), first, eligible, old(budget.View()))
  {
    leader, candidates := first, 1;
    ghost var eligible := Eligible(s.fields, alternatives, indexQuery, fragmentIds, MAX_CANDIDATES - 1);
    ghost var view := cache.View(s);
    ghost var final := LeaderAfter(view, first, eligible, budget.View());
    assert alternatives[0..] == alternatives;
    var i := 0;
    while i < |alternatives| && candidates < MAX_CANDIDATES
      invariant 0 <= i <= |alternatives|
      invariant cache.Coherent(s) && cache.View(s) == view
      invariant var rest := Eligible(s.fields, alternatives[i..], indexQuery, fragmentIds, MAX_CANDIDATES - candidates);
                candidates + |rest| == 1 + |eligible| && LeaderAfter(view, leader, rest, budget.View()) == final
    {
      leader, candidates := Consider(s, alternatives, i, indexQuery, fragmentIds, leader, candidates, budget, cache);
      i := i + 1;
    }
  }

  /** The final leader is the cheapest of all probes. */
  lemma FinalLeaderLeadsAll(s: Snapshot, indices: seq<IndexMetadata>, grouping: IndexMetadata, groupingExpr: Expr,
                            indexQuery: Expr, fragmentIds: seq<nat>)
    requires EstimatedCost(s, grouping, groupingExpr, FULL_BUDGET).0.Some?
    ensures var (estimate, left) := EstimatedCost(s, grouping, groupingExpr, FULL_BUDGET);
            var alternatives := Alternatives(indices, grouping);
            var more := Eligible(s.fields, alternatives, indexQuery, fragmentIds, MAX_CANDIDATES - 1);
            var probes := AllProbes(s, indices, grouping, groupingExpr, indexQuery, fragmentIds);
            |probes| == 1 + |more| && probes[0].estimate.Some? &&
            Leads(probes, LeaderAfter(s, Leader(grouping, groupingExpr, estimate.value.cost), more, left))
  {
    var (estimate, left) := EstimatedCost(s, grouping, groupingExpr, FULL_BUDGET);
    var more := Eligible(s.fields, Alternatives(indices, grouping), indexQuery, fragmentIds, MAX_CANDIDATES - 1);
    var first := Candidate(grouping, groupingExpr);
    var probe := ProbeOf(s, first, FULL_BUDGET);
    assert IsCheapest([probe], 0);
    LeaderAfterIsFinal(s, Leader(grouping, groupingExpr, estimate.value.cost), more, left);
    FinalLeaderLeads([probe], Leader(grouping, groupingExpr, estimate.value.cost), Probes(s, more, left));
    assert ([first] + more)[1..] == more;
  }

  method Choose(s: Snapshot, indices: seq<IndexMetadata>, grouping: IndexMetadata, groupingExpr: Expr,
                indexQuery: Expr, domain: ReadDomain, cache: LookupCache)
    returns (selected: Option<(IndexMetadata, Expr)>, candidates: int)
    requires cache.Coherent(s)
    modifies cache
    ensures cache.Coherent(s) && cache.View(s) == old(cache.View(s))
    ensures !IsBTreeExpression(groupingExpr) ==> selected == Some((grouping, groupingExpr)) && candidates == 0
    ensures IsBTreeExpression(groupingExpr) ==>
              var probes := AllProbes(cache.View(s), indices, grouping, groupingExpr, indexQuery, domain.fragmentIds);
              candidates == |probes| && IsSelection(probes, domain.physicalRows, selected)
  {
    if !IsBTreeExpression(groupingExpr) { return Some((grouping, groupingExpr)), 0; }
    var budget := new ProbeBudget();
    var best := EstimateCost(s, grouping, groupingExpr, budget, cache);
    if best.None? { return Some((grouping, groupingExpr)), 1; }
    var first := Leader(grouping, groupingExpr, best.value.cost);
    ghost var left := budget.View();
    var leader;
    leader, candidates :=
      ProbeAlternatives(s, Alternatives(indices, grouping), indexQuery, domain.fragmentIds, first, budget, cache);
    FinalLeaderLeadsAll(cache.View(s), indices, grouping, groupingExpr, indexQuery, domain.fragmentIds);
    if leader.cost >= domain.physicalRows { return None, candidates; }
    return Some((leader.index, leader.expr)), candidates;
  }

  // ---------------------------------------------------------------------------
  // Bounds, coverage and independence of the listing order
  // ---------------------------------------------------------------------------

  function SumSerialized(probes: seq<Probe>): nat {
    if probes == [] then 0 else probes[0].charged.serialized + SumSerialized(probes[1..])
  }

  function SumDecoded(probes: seq<Probe>): nat {
    if probes == [] then 0 else probes[0].charged.decoded + SumDecoded(probes[1..])
  }

  lemma {:induction false} ProbesWithinBudget(s: Snapshot, candidates: seq<Candidate>, budget: Budget)
    ensures SumSerialized(Probes(s, candidates, budget)) <= budget.serialized
    ensures SumDecoded(Probes(s, candidates, budget)) <= budget.decoded
  {
    if candidates != [] {
      ProbesWithinBudget(s, candidates[1..], EstimatedCost(s, candidates[0].index, candidates[0].expr, budget).1);
    }
  }

  lemma {:induction false} EligibleIsLimited(s: Snapshot, alternatives: seq<IndexMetadata>, indexQuery: Expr,
                                             fragmentIds: seq<nat>, limit: int)
    ensures |Eligible(s.fields, alternatives, indexQuery, fragmentIds, limit)| <= Max(limit, 0)
    decreases |alternatives|
  {
    if alternatives != [] && limit > 0 {
      EligibleIsLimited(s, alternatives[1..], indexQuery, fragmentIds, limit);
      EligibleIsLimited(s, alternatives[1..], indexQuery, fragmentIds, limit - 1);
    }
  }

  /** What may replace the grouping segment. */
  lemma EligibleExpressionMeans(fields: seq<Field>, index: IndexMetadata, indexQuery: Expr, fragmentIds: seq<nat>,
                                e: Expr)
    ensures EligibleExpression(fields, index, indexQuery, fragmentIds) == Some(e) <==>
            && index.keyedField.Some? && TopLevelField(fields, index.keyedField.value).Some?
            && index.coverage.Some?
            && (forall id | id in fragmentIds :: id <= 0xFFFF_FFFF && id in index.coverage.value)
            && IsBTreeExpression(e)
            && var field := TopLevelField(fields, index.keyedField.value).value;
               ScopedExpression(indexQuery, Target(index.name, field.name), false, 0, 128).result == Success(Some(e))
  {
  }

  function AllEligible(fields: seq<Field>, alternatives: seq<IndexMetadata>, indexQuery: Expr,
                       fragmentIds: seq<nat>): seq<Candidate> {
    if alternatives == [] then []
    else
      var e := EligibleExpression(fields, alternatives[0], indexQuery, fragmentIds);
      (if e.Some? then [Candidate(alternatives[0], e.value)] else [])
      + AllEligible(fields, alternatives[1..], indexQuery, fragmentIds)
  }

  /** The candidates are the first of all eligible alternatives, up to the limit. */
  lemma {:induction false} EligibleAreTheFirst(fields: seq<Field>, alternatives: seq<IndexMetadata>, indexQuery: Expr,
                                               fragmentIds: seq<nat>, limit: int)
    requires limit >= 0
    ensures var all := AllEligible(fields, alternatives, indexQuery, fragmentIds);
            Eligible(fields, alternatives, indexQuery, fragmentIds, limit) ==
            if |all| <= limit then all else all[..limit]
    decreases |alternatives|
  {
    if alternatives != [] && limit > 0 {
      var e := EligibleExpression(fields, alternatives[0], indexQuery, fragmentIds);
      var rest := AllEligible(fields, alternatives[1..], indexQuery, fragmentIds);
      if e.None? {
        EligibleAreTheFirst(fields, alternatives[1..], indexQuery, fragmentIds, limit);
        assert [] + rest == rest;
      } else {
        EligibleAreTheFirst(fields, alternatives[1..], indexQuery, fragmentIds, limit - 1);
        var c := Candidate(alternatives[0], e.value);
        if |rest| > limit - 1 { assert ([c] + rest)[..limit] == [c] + rest[..limit - 1]; }
      }
    }
  }

  function Indices(candidates: seq<Candidate>): seq<IndexMetadata> {
    seq(|candidates|, k requires 0 <= k < |candidates| => candidates[k].index)
  }

  /** And these are the alternatives that are eligible, in their order, none lost and none repeated. */
  lemma {:induction false} EligibleIsAFilter(fields: seq<Field>, alternatives: seq<IndexMetadata>, indexQuery: Expr,
                                             fragmentIds: seq<nat>)
    ensures Indices(AllEligible(fields, alternatives, indexQuery, fragmentIds)) ==
            FilterBy(alternatives, x => EligibleExpression(fields, x, indexQuery, fragmentIds).Some?)
  {
    if alternatives != [] {
      var rest := AllEligible(fields, alternatives[1..], indexQuery, fragmentIds);
      EligibleIsAFilter(fields, alternatives[1..], indexQuery, fragmentIds);
      IndicesOfHead(alternatives[0], EligibleExpression(fields, alternatives[0], indexQuery, fragmentIds), rest);
    }
  }

  lemma IndicesOfHead(index: IndexMetadata, e: Option<Expr>, rest: seq<Candidate>)
    ensures Indices((if e.Some? then [Candidate(index, e.value)] else []) + rest) ==
            (if e.Some? then [index] else []) + Indices(rest)
  {
  }

  lemma ProbesOfMore(s: Snapshot, first: Candidate, more: seq<Candidate>)
    ensures var probes := Probes(s, [first] + more, FULL_BUDGET);
            && |probes| == 1 + |more| && probes[0] == ProbeOf(s, first, FULL_BUDGET)
            && forall i | 1 <= i < |probes| :: Candidate(probes[i].index, probes[i].expr) == more[i - 1]
  {
    var probes := Probes(s, [first] + more, FULL_BUDGET);
    forall i | 1 <= i < |probes| ensures Candidate(probes[i].index, probes[i].expr) == more[i - 1] {
      assert ([first] + more)[i] == more[i - 1];
    }
  }

  /** When the grouping segment has an estimate, it and the first seven eligible alternatives in the order
      of name and UUID are probed, and otherwise it alone. */
  lemma TheProbesAre(s: Snapshot, indices: seq<IndexMetadata>, grouping: IndexMetadata, groupingExpr: Expr,
                     indexQuery: Expr, fragmentIds: seq<nat>)
    ensures var probes := AllProbes(s, indices, grouping, groupingExpr, indexQuery, fragmentIds);
            var all := AllEligible(s.fields, Alternatives(indices, grouping), indexQuery, fragmentIds);
            && probes != [] && probes[0] == ProbeOf(s, Candidate(grouping, groupingExpr), FULL_BUDGET)
            && |probes| == (if probes[0].estimate.None? then 1 else 1 + Min(7, |all|))
            && forall i | 1 <= i < |probes| :: Candidate(probes[i].index, probes[i].expr) == all[i - 1]
  {
    var first := Candidate(grouping, groupingExpr);
    var alternatives := Alternatives(indices, grouping);
    var more := Eligible(s.fields, alternatives, indexQuery, fragmentIds, MAX_CANDIDATES - 1);
    EligibleAreTheFirst(s.fields, alternatives, indexQuery, fragmentIds, MAX_CANDIDATES - 1);
    ProbesOfMore(s, first, more);
    ProbesOfMore(s, first, []);
    assert [first] + [] == [first];
  }

  lemma ProbeMeans(s: Snapshot, candidate: Candidate, budget: Budget)
    ensures var probe := ProbeOf(s, candidate, budget);
            var (estimate, left) := EstimatedCost(s, candidate.index, candidate.expr, budget);
            && probe.index == candidate.index && probe.expr == candidate.expr && probe.estimate == estimate
            && probe.charged.serialized == budget.serialized - left.serialized
            && probe.charged.decoded == budget.decoded - left.decoded
  {
  }

  /** What the first probes have left of the budget. */
  function LeftAfter(budget: Budget, probes: seq<Probe>): Budget
    requires SumSerialized(probes) <= budget.serialized && SumDecoded(probes) <= budget.decoded
  {
    Budget(budget.serialized - SumSerialized(probes), budget.decoded - SumDecoded(probes))
  }

  lemma {:induction false} PrefixOfProbes(s: Snapshot, candidates: seq<Candidate>, budget: Budget, i: nat)
    requires i <= |candidates|
    ensures Probes(s, candidates, budget)[..i] == Probes(s, candidates[..i], budget)
  {
    if i > 0 {
      var left := EstimatedCost(s, candidates[0].index, candidates[0].expr, budget).1;
      PrefixOfProbes(s, candidates[1..], left, i - 1);
      assert candidates[..i][1..] == candidates[1..][..i - 1];
      var probes := Probes(s, candidates, budget);
      assert probes[..i] == [probes[0]] + probes[1..][..i - 1];
    }
  }

  lemma {:induction false} LastProbe(s: Snapshot, candidates: seq<Candidate>, budget: Budget)
    requires candidates != []
    ensures var before := Probes(s, candidates[..|candidates| - 1], budget);
            && SumSerialized(before) <= budget.serialized && SumDecoded(before) <= budget.decoded
            && Probes(s, candidates, budget)[|candidates| - 1] ==
               ProbeOf(s, candidates[|candidates| - 1], LeftAfter(budget, before))
  {
    var init := candidates[..|candidates| - 1];
    ProbesWithinBudget(s, init, budget);
    if |candidates| > 1 {
      var left := EstimatedCost(s, candidates[0].index, candidates[0].expr, budget).1;
      LastProbe(s, candidates[1..], left);
      assert init[1..] == candidates[1..][..|candidates[1..]| - 1];
      var before := Probes(s, init, budget);
      assert before[1..] == Probes(s, init[1..], left);
      assert LeftAfter(budget, before) == LeftAfter(left, before[1..]);
    }
  }

  /** Each candidate is probed with what the earlier ones have left of the budget. */
  lemma ProbesShareTheBudget(s: Snapshot, candidates: seq<Candidate>, budget: Budget, i: nat)
    requires i < |candidates|
    ensures var probes := Probes(s, candidates, budget);
            && SumSerialized(probes[..i]) <= budget.serialized && SumDecoded(probes[..i]) <= budget.decoded
            && probes[i] == ProbeOf(s, candidates[i], LeftAfter(budget, probes[..i]))
  {
    PrefixOfProbes(s, candidates, budget, i);
    PrefixOfProbes(s, candidates, budget, i + 1);
    var some := candidates[..i + 1];
    LastProbe(s, some, budget);
    assert some[..i] == candidates[..i];
    assert Probes(s, candidates, budget)[i] == Probes(s, candidates, budget)[..i + 1][i];
  }

  /** A full scan is chosen exactly when no probe is cheaper than the rows of the domain, and otherwise
      the first of the cheapest probes. */
  lemma SelectionMeans(probes: seq<Probe>, physicalRows: nat, selected: Option<(IndexMetadata, Expr)>)
    requires probes != [] && IsSelection(probes, physicalRows, selected)
    ensures probes[0].estimate.None? ==> selected == Some((probes[0].index, probes[0].expr))
    ensures probes[0].estimate.Some? ==>
              (selected.None? <==>
                 forall i | 0 <= i < |probes| && probes[i].estimate.Some? ::
                   probes[i].estimate.value.cost >= physicalRows)
    ensures probes[0].estimate.Some? && selected.Some? ==>
              exists k | 0 <= k < |probes| ::
                && selected.value == (probes[k].index, probes[k].expr) && probes[k].estimate.Some?
                && (forall j | 0 <= j < |probes| && probes[j].estimate.Some? ::
                      probes[k].estimate.value.cost <= probes[j].estimate.value.cost)
                && forall j | 0 <= j < k && probes[j].estimate.Some? ::
                     probes[k].estimate.value.cost < probes[j].estimate.value.cost
  {
    if probes[0].estimate.Some? {
      var k: nat :| IsCheapest(probes, k) && selected == Decision(probes[k], physicalRows);
    }
  }

  /** One preparation probes at most eight segments, and all of them together are charged
      at most the two byte budgets. */
  lemma SelectionWithinBudget(s: Snapshot, indices: seq<IndexMetadata>, grouping: IndexMetadata, groupingExpr: Expr,
                              indexQuery: Expr, fragmentIds: seq<nat>)
    ensures var probes := AllProbes(s, indices, grouping, groupingExpr, indexQuery, fragmentIds);
            && |probes| <= 8
            && SumSerialized(probes) <= 8_388_608
            && SumDecoded(probes) <= 8_388_608
  {
    var first := Candidate(grouping, groupingExpr);
    var more := Eligible(s.fields, Alternatives(indices, grouping), indexQuery, fragmentIds, MAX_CANDIDATES - 1);
    EligibleIsLimited(s, Alternatives(indices, grouping), indexQuery, fragmentIds, MAX_CANDIDATES - 1);
    ProbesWithinBudget(s, [first], FULL_BUDGET);
    ProbesWithinBudget(s, [first] + more, FULL_BUDGET);
  }

  lemma {:induction false} OthersAre(indices: seq<IndexMetadata>, uuid: nat, x: IndexMetadata)
    ensures multiset(Others(indices, uuid))[x] == if x.uuid != uuid then multiset(indices)[x] else 0
  {
    if indices != [] {
      assert indices == [indices[0]] + indices[1..];
      OthersAre(indices[1..], uuid, x);
    }
  }

  lemma MemberByCount<T>(s: seq<T>, x: T)
    ensures x in s <==> multiset(s)[x] > 0
  {
  }

  lemma AlternativesAre(indices: seq<IndexMetadata>, grouping: IndexMetadata)
    ensures forall x | x in Alternatives(indices, grouping) :: x in indices && x.uuid != grouping.uuid
    ensures Sorted(IndexKey, Alternatives(indices, grouping))
  {
    SortByKeySorts(IndexKey, Others(indices, grouping.uuid));
    forall x | x in Alternatives(indices, grouping) ensures x in indices && x.uuid != grouping.uuid {
      MemberByCount(Alternatives(indices, grouping), x);
      MemberByCount(indices, x);
      OthersAre(indices, grouping.uuid, x);
    }
  }

  lemma {:induction false} EligibleAreAlternatives(s: Snapshot, alternatives: seq<IndexMetadata>, indexQuery: Expr,
                                                   fragmentIds: seq<nat>, limit: int)
    ensures forall c | c in Eligible(s.fields, alternatives, indexQuery, fragmentIds, limit) ::
              c.index in alternatives && EligibleExpression(s.fields, c.index, indexQuery, fragmentIds) == Some(c.expr)
    decreases |alternatives|
  {
    if alternatives != [] && limit > 0 {
      EligibleAreAlternatives(s, alternatives[1..], indexQuery, fragmentIds, limit);
      EligibleAreAlternatives(s, alternatives[1..], indexQuery, fragmentIds, limit - 1);
    }
  }

  predicate InKeyOrder(candidates: seq<Candidate>) {
    forall i, j | 0 <= i < j < |candidates| :: KeyLeq(IndexKey(candidates[i].index), IndexKey(candidates[j].index))
  }

  lemma InKeyOrderCons(c: Candidate, rest: seq<Candidate>)
    requires InKeyOrder(rest)
    requires forall d | d in rest :: KeyLeq(IndexKey(c.index), IndexKey(d.index))
    ensures InKeyOrder([c] + rest)
  {
  }

  lemma {:induction false} EligibleInOrder(s: Snapshot, alternatives: seq<IndexMetadata>, indexQuery: Expr,
                                           fragmentIds: seq<nat>, limit: int)
    requires Sorted(IndexKey, alternatives)
    ensures InKeyOrder(Eligible(s.fields, alternatives, indexQuery, fragmentIds, limit))
    decreases |alternatives|
  {
    if alternatives != [] && limit > 0 {
      var e := EligibleExpression(s.fields, alternatives[0], indexQuery, fragmentIds);
      if e.None? {
        EligibleInOrder(s, alternatives[1..], indexQuery, fragmentIds, limit);
      } else {
        var rest := Eligible(s.fields, alternatives[1..], indexQuery, fragmentIds, limit - 1);
        EligibleInOrder(s, alternatives[1..], indexQuery, fragmentIds, limit - 1);
        EligibleAreAlternatives(s, alternatives[1..], indexQuery, fragmentIds, limit - 1);
        InKeyOrderCons(Candidate(alternatives[0], e.value), rest);
      }
    }
  }

  /** Ties fall to the grouping segment and then to the smallest name and UUID, because that
      is the order of the probes; and every alternative covers the whole read domain. */
  lemma ProbeOrderAndCoverage(s: Snapshot, indices: seq<IndexMetadata>, grouping: IndexMetadata, groupingExpr: Expr,
                              indexQuery: Expr, fragmentIds: seq<nat>)
    ensures var probes := AllProbes(s, indices, grouping, groupingExpr, indexQuery, fragmentIds);
            && probes[0].index == grouping && probes[0].expr == groupingExpr
            && (forall i | 1 <= i < |probes| ::
                  IsAlternative(s.fields, indices, grouping, indexQuery, fragmentIds, probes[i].index, probes[i].expr))
            && (forall i, j | 1 <= i < j < |probes| :: KeyLeq(IndexKey(probes[i].index), IndexKey(probes[j].index)))
  {
    var probes := AllProbes(s, indices, grouping, groupingExpr, indexQuery, fragmentIds);
    var eligible := Eligible(s.fields, Alternatives(indices, grouping), indexQuery, fragmentIds, MAX_CANDIDATES - 1);
    AlternativesAre(indices, grouping);
    EligibleAreAlternatives(s, Alternatives(indices, grouping), indexQuery, fragmentIds, MAX_CANDIDATES - 1);
    EligibleInOrder(s, Alternatives(indices, grouping), indexQuery, fragmentIds, MAX_CANDIDATES - 1);
    forall i | 1 <= i < |probes|
      ensures probes[i].index == eligible[i - 1].index
      ensures IsAlternative(s.fields, indices, grouping, indexQuery, fragmentIds, probes[i].index, probes[i].expr)
    {
      assert eligible[i - 1] in eligible;
    }
  }

  predicate IsAlternative(fields: seq<Field>, indices: seq<IndexMetadata>, grouping: IndexMetadata, indexQuery: Expr,
                          fragmentIds: seq<nat>, index: IndexMetadata, e: Expr) {
    && index in indices && index.uuid != grouping.uuid
    && EligibleExpression(fields, index, indexQuery, fragmentIds) == Some(e)
    && index.coverage.Some? && Covers(index.coverage.value, fragmentIds)
  }

  lemma OthersIgnoreOrder(a: seq<IndexMetadata>, b: seq<IndexMetadata>, uuid: nat)
    requires multiset(a) == multiset(b)
    ensures multiset(Others(a, uuid)) == multiset(Others(b, uuid))
    ensures forall x | x in Others(a, uuid) :: x in a
  {
    forall x ensures multiset(Others(a, uuid))[x] == multiset(Others(b, uuid))[x] {
      OthersAre(a, uuid, x);
      OthersAre(b, uuid, x);
    }
    forall x | x in Others(a, uuid) ensures x in a {
      OthersAre(a, uuid, x);
      MemberByCount(Others(a, uuid), x);
      MemberByCount(a, x);
    }
  }

  lemma ListingOrderIsIrrelevant(s: Snapshot, a: seq<IndexMetadata>, b: seq<IndexMetadata>, grouping: IndexMetadata,
                                 groupingExpr: Expr, indexQuery: Expr, fragmentIds: seq<nat>)
    requires multiset(a) == multiset(b) && KeysIdentify(IndexKey, a)
    ensures AllProbes(s, a, grouping, groupingExpr, indexQuery, fragmentIds) ==
            AllProbes(s, b, grouping, groupingExpr, indexQuery, fragmentIds)
  {
    OthersIgnoreOrder(a, b, grouping.uuid);
    SortIgnoresOrder(IndexKey, Others(a, grouping.uuid), Others(b, grouping.uuid));
    assert Alternatives(a, grouping) == Alternatives(b, grouping);
  }

  lemma SelectionIsAProbe(probes: seq<Probe>, physicalRows: nat, index: IndexMetadata, e: Expr) returns (k: nat)
    requires probes != [] && IsSelection(probes, physicalRows, Some((index, e)))
    ensures k < |probes| && probes[k].index == index && probes[k].expr == e
  {
    k := 0;
    if probes[0].estimate.Some? {
      k :| IsCheapest(probes, k) && Some((index, e)) == Decision(probes[k], physicalRows);
    }
  }

  /** A selected segment is the grouping one, or an alternative that covers the read domain. */
  lemma SelectionIsSuitable(s: Snapshot, indices: seq<IndexMetadata>, grouping: IndexMetadata, groupingExpr: Expr,
                            indexQuery: Expr, domain: ReadDomain, index: IndexMetadata, e: Expr)
    requires IsSelection(AllProbes(s, indices, grouping, groupingExpr, indexQuery, domain.fragmentIds),
                         domain.physicalRows, Some((index, e)))
    ensures (index == grouping && e == groupingExpr) ||
            IsAlternative(s.fields, indices, grouping, indexQuery, domain.fragmentIds, index, e)
  {
    var probes := AllProbes(s, indices, grouping, groupingExpr, indexQuery, domain.fragmentIds);
    ProbeOrderAndCoverage(s, indices, grouping, groupingExpr, indexQuery, domain.fragmentIds);
    var k := SelectionIsAProbe(probes, domain.physicalRows, index, e);
  }

  // ---------------------------------------------------------------------------
  // Independence of the cache, and its limit
  // ---------------------------------------------------------------------------

  /** Storage gives the segment's lookup, or two sessions agree on having it at hand. */
  predicate SameAtHand(s: Snapshot, a: set<nat>, b: set<nat>, uuid: nat) {
    uuid in s.readable || (uuid in a <==> uuid in b)
  }

  /** The lookup that a probe gets is the same for all cache contents if and only if its file can be
      read, or would not decode anyway. */
  lemma CacheIsInvisibleIff(s: Snapshot, uuid: nat)
    ensures (forall a, b :: DecodedLookup(Reach(s, a), uuid) == DecodedLookup(Reach(s, b), uuid)) <==>
            uuid in s.readable || DecodedLookup(Reach(s, {uuid}), uuid).None?
  {
    if forall a, b :: DecodedLookup(Reach(s, a), uuid) == DecodedLookup(Reach(s, b), uuid) {
      assert DecodedLookup(Reach(s, {}), uuid) == DecodedLookup(Reach(s, {uuid}), uuid);
    }
  }

  lemma EstimateIgnoresCache(s: Snapshot, a: set<nat>, b: set<nat>, index: IndexMetadata, e: Expr, budget: Budget)
    requires SameAtHand(s, a, b, index.uuid)
    ensures EstimatedCost(Reach(s, a), index, e, budget) == EstimatedCost(Reach(s, b), index, e, budget)
  {
    assert DecodedLookup(Reach(s, a), index.uuid) == DecodedLookup(Reach(s, b), index.uuid);
  }

  lemma {:induction false} ProbesIgnoreCache(s: Snapshot, a: set<nat>, b: set<nat>, candidates: seq<Candidate>,
                                             budget: Budget)
    requires forall c | c in candidates :: SameAtHand(s, a, b, c.index.uuid)
    ensures Probes(Reach(s, a), candidates, budget) == Probes(Reach(s, b), candidates, budget)
  {
    if candidates != [] {
      var first := candidates[0];
      assert first in candidates;
      EstimateIgnoresCache(s, a, b, first.index, first.expr, budget);
      assert ProbeOf(Reach(s, a), first, budget) == ProbeOf(Reach(s, b), first, budget);
      ProbesIgnoreCache(s, a, b, candidates[1..], EstimatedCost(Reach(s, a), first.index, first.expr, budget).1);
    }
  }

  lemma CachesAgree(s: Snapshot, a: set<nat>, b: set<nat>, indices: seq<IndexMetadata>, grouping: IndexMetadata,
                    groupingExpr: Expr, indexQuery: Expr, fragmentIds: seq<nat>)
    requires SameAtHand(s, a, b, grouping.uuid) && forall x | x in indices :: SameAtHand(s, a, b, x.uuid)
    ensures AllProbes(Reach(s, a), indices, grouping, groupingExpr, indexQuery, fragmentIds) ==
            AllProbes(Reach(s, b), indices, grouping, groupingExpr, indexQuery, fragmentIds)
  {
    var first := Candidate(grouping, groupingExpr);
    var more := Eligible(s.fields, Alternatives(indices, grouping), indexQuery, fragmentIds, MAX_CANDIDATES - 1);
    AlternativesAre(indices, grouping);
    EligibleAreAlternatives(s, Alternatives(indices, grouping), indexQuery, fragmentIds, MAX_CANDIDATES - 1);
    ProbesIgnoreCache(s, a, b, [first], FULL_BUDGET);
    ProbesIgnoreCache(s, a, b, [first] + more, FULL_BUDGET);
    assert Probes(Reach(s, a), [first], FULL_BUDGET)[0] == ProbeOf(Reach(s, a), first, FULL_BUDGET);
    assert Probes(Reach(s, b), [first], FULL_BUDGET)[0] == ProbeOf(Reach(s, b), first, FULL_BUDGET);
  }

  /** Whatever the manifest's order, and whatever the two caches held of the lookups that storage
      can give, two selections agree. */
  lemma SelectionIsDetermined(s: Snapshot, cacheA: set<nat>, cacheB: set<nat>, a: seq<IndexMetadata>,
                              b: seq<IndexMetadata>, grouping: IndexMetadata, groupingExpr: Expr, indexQuery: Expr,
                              domain: ReadDomain, x: Option<(IndexMetadata, Expr)>, y: Option<(IndexMetadata, Expr)>)
    requires multiset(a) == multiset(b) && KeysIdentify(IndexKey, a)
    requires SameAtHand(s, cacheA, cacheB, grouping.uuid)
    requires forall i | i in a :: SameAtHand(s, cacheA, cacheB, i.uuid)
    requires IsSelection(AllProbes(Reach(s, cacheA), a, grouping, groupingExpr, indexQuery, domain.fragmentIds),
                         domain.physicalRows, x)
    requires IsSelection(AllProbes(Reach(s, cacheB), b, grouping, groupingExpr, indexQuery, domain.fragmentIds),
                         domain.physicalRows, y)
    ensures x == y
  {
    CachesAgree(s, cacheA, cacheB, a, grouping, groupingExpr, indexQuery, domain.fragmentIds);
    ListingOrderIsIrrelevant(Reach(s, cacheB), a, b, grouping, groupingExpr, indexQuery, domain.fragmentIds);
    CheapestDecides(AllProbes(Reach(s, cacheA), a, grouping, groupingExpr, indexQuery, domain.fragmentIds),
                    domain.physicalRows, x, y);
  }

  /** Without the grouping lookup the selection keeps the grouping segment. So when its file can no
      longer be read, a session that has the lookup at hand and one that has not agree if and only if
      the warm one keeps the grouping segment too: for every index list, query and domain, and
      whatever else the two caches hold. */
  lemma UnreadableGroupingIff(s: Snapshot, warm: set<nat>, cold: set<nat>, a: seq<IndexMetadata>,
                              b: seq<IndexMetadata>, grouping: IndexMetadata, groupingExpr: Expr, indexQuery: Expr,
                              domain: ReadDomain, x: Option<(IndexMetadata, Expr)>, y: Option<(IndexMetadata, Expr)>)
    requires grouping.uuid !in s.readable && grouping.uuid in warm && grouping.uuid !in cold
    requires IsSelection(AllProbes(Reach(s, warm), a, grouping, groupingExpr, indexQuery, domain.fragmentIds),
                         domain.physicalRows, x)
    requires IsSelection(AllProbes(Reach(s, cold), b, grouping, groupingExpr, indexQuery, domain.fragmentIds),
                         domain.physicalRows, y)
    ensures y == Some((grouping, groupingExpr))
    ensures x == y <==> x == Some((grouping, groupingExpr))
    ensures EstimatedCost(Reach(s, warm), grouping, groupingExpr, FULL_BUDGET).0.None? ==> x == y
  {
    var first := Candidate(grouping, groupingExpr);
    assert DecodedLookup(Reach(s, cold), grouping.uuid) == None;
    assert ProbeOf(Reach(s, cold), first, FULL_BUDGET).estimate == None;
  }

  lemma ThreeColumnBytes()
    ensures DecodedLookupBytes([Some(8), Some(8), Some(4)], 1, 0) == Some(3095)
  {
    var widths: seq<Option<nat>> := [Some(8), Some(8), Some(4)];
    DecodedBytesExact(widths, 1, 0);
    assert widths[1..][1..] == [Some(4)] && widths[1..][1..][1..] == [];
    assert TrueDecodedBytes([Some(4)], 1) == 1029;
    assert TrueDecodedBytes(widths[1..], 1) == 1033 + 1029;
  }

  /** That is a real limit: the grouping segment covers the domain, its lookup file was read once and
      cannot be read again; the warm session plans a full scan, a fresh one keeps the segment. */
  lemma UnreadableLookupSplitsSessions(grouping: IndexMetadata, e: Expr, s: Snapshot)
    requires grouping == IndexMetadata(1, "i", Some(0), Some([IndexFile(BTREE_LOOKUP_NAME, 10)]), Some({0}))
    requires e == Query(Search("x", "i", BTree, IsNull))
    requires s == Snapshot(
      [Field(0, "x", true, Some(8))],
      map[1 := StoredLookup([Some(8), Some(8), Some(4)], Parsed(100), Batch(3, true, [Some(Page(Null, Null, 7))]))],
      {}, 4096)
    ensures Covers(grouping.coverage.value, [0])
    ensures EligibleExpression(s.fields, grouping, e, [0]) == Some(e)
    ensures IsSelection(AllProbes(Reach(s, {1}), [grouping], grouping, e, e, [0]), 50, None)
    ensures IsSelection(AllProbes(Reach(s, {}), [grouping], grouping, e, e, [0]), 50, Some((grouping, e)))
  {
    var first := Candidate(grouping, e);
    assert Others([grouping], 1) == [];
    assert |multiset(Alternatives([grouping], grouping))| == 0;
    assert Alternatives([grouping], grouping) == [];
    assert [first] + [] == [first];
    assert ProbeSize(s.fields, grouping, e) == Some(10);
    var warm := Reach(s, {1});
    var stored := s.lookups[1];
    ThreeColumnBytes();
    assert DecodedLookup(warm, 1) == Some(Lookup(stored.batch, 100, 3095));
    assert MatchesPage(e, Page(Null, Null, 7)) == Some(true);
    assert CountMatching(stored.batch.pages, e) == Some(1);
    assert EstimatedPages(stored.batch, e) == Some(1);
    var probes := AllProbes(warm, [grouping], grouping, e, e, [0]);
    assert ProbeOf(warm, first, FULL_BUDGET).estimate == Some(Estimate(100, 1));
    assert probes == [ProbeOf(warm, first, FULL_BUDGET)];
    assert IsCheapest(probes, 0) && Decision(probes[0], 50) == None;
    assert DecodedLookup(Reach(s, {}), 1) == None;
  }

  lemma SomeSelection(s: Snapshot, indices: seq<IndexMetadata>, grouping: IndexMetadata, groupingExpr: Expr,
                      indexQuery: Expr, domain: ReadDomain) returns (selected: Option<(IndexMetadata, Expr)>)
    ensures IsSelection(AllProbes(s, indices, grouping, groupingExpr, indexQuery, domain.fragmentIds),
                        domain.physicalRows, selected)
  {
    var probes := AllProbes(s, indices, grouping, groupingExpr, indexQuery, domain.fragmentIds);
    if probes[0].estimate.None? {
      selected := Some((probes[0].index, probes[0].expr));
    } else {
      FinalLeaderLeadsAll(s, indices, grouping, groupingExpr, indexQuery, domain.fragmentIds);
      var k: nat :| IsCheapest(probes, k);
      selected := Decision(probes[k], domain.physicalRows);
    }
  }

  lemma CheapestDecides(probes: seq<Probe>, physicalRows: nat,
                        x: Option<(IndexMetadata, Expr)>, y: Option<(IndexMetadata, Expr)>)
    requires probes != [] && IsSelection(probes, physicalRows, x) && IsSelection(probes, physicalRows, y)
    ensures x == y
  {
    if probes[0].estimate.Some? {
      var j: nat :| IsCheapest(probes, j) && x == Decision(probes[j], physicalRows);
      var k: nat :| IsCheapest(probes, k) && y == Decision(probes[k], physicalRows);
      assert j == k;
    }
  }
}
