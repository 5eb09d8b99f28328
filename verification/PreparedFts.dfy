/** Prepared full-text queries: the coverage of a context's segments and how workers split them
    (src/fts_query.rs), and the rewriting of the planner's tree (src/scanner.rs). */
module PreparedFts {
  import opened Common

  // ---------------------------------------------------------------------------
  // Segment UUIDs on the wire
  // ---------------------------------------------------------------------------

  type Byte = bv8
  type Uuid = seq<Byte>

  const ISIZE_MAX: int := 0x7FFF_FFFF_FFFF_FFFF
  const UUID_BYTES: int := 16

  datatype WireError = NullUuids | TooManyUuids | DuplicateUuids

  predicate AllDistinct<T(==)>(s: seq<T>) {
    forall i, j | 0 <= i < j < |s| :: s[i] != s[j]
  }

  /** Bytes of the i-th UUID. */
  function UuidAt(bytes: seq<Byte>, i: int): Uuid
    requires 0 <= i && i * UUID_BYTES + UUID_BYTES <= |bytes|
  {
    bytes[i * UUID_BYTES..i * UUID_BYTES + UUID_BYTES]
  }

  lemma {:induction false} CountOfDistinct<T>(s: seq<T>)
    ensures |set x | x in s| <= |s|
    ensures |set x | x in s| == |s| <==> AllDistinct(s)
  {
    if s != [] {
      var k := |s| - 1;
      var rest := s[..k];
      CountOfDistinct(rest);
      assert s == rest + [s[k]];
      var before, all := set x | x in rest, set x | x in s;
      assert all == before + {s[k]};
      if s[k] in rest {
        assert all == before;
        var i :| 0 <= i < k && rest[i] == s[k];
        assert s[i] == s[k];
      } else {
        assert |all| == |before| + 1;
        assert AllDistinct(s) <==> AllDistinct(rest) by {
          if AllDistinct(s) {
            forall i, j | 0 <= i < j < k ensures rest[i] != rest[j] { assert s[i] != s[j]; }
          }
          if AllDistinct(rest) {
            forall i, j | 0 <= i < j < |s| ensures s[i] != s[j] {
              if j < k { assert rest[i] != rest[j]; } else { assert rest[i] in rest; }
            }
          }
        }
      }
    }
  }

  /** `bytes` is the memory that the caller hands over, or `None` for a null address. */
  method ParseSegmentUuids(bytes: Option<seq<Byte>>, len: int) returns (r: Result<seq<Uuid>, WireError>)
    requires 0 <= len && (bytes.Some? && len <= ISIZE_MAX / UUID_BYTES ==> |bytes.value| >= len * UUID_BYTES)
    ensures bytes.None? && len > 0 ==> r == Failure(NullUuids)
    ensures bytes.None? && len == 0 ==> r == Success([])
    ensures bytes.Some? && len > ISIZE_MAX / UUID_BYTES ==> r == Failure(TooManyUuids)
    ensures r == Failure(TooManyUuids) <==> bytes.Some? && len > 0x7FFF_FFFF_FFFF_FFFF / 16
    ensures r.Success? && bytes.Some? ==> |r.value| == len && forall i | 0 <= i < len :: |r.value[i]| == 16
    ensures bytes.Some? && len <= ISIZE_MAX / UUID_BYTES ==>
              var uuids := seq(len, i requires 0 <= i < len => UuidAt(bytes.value, i));
              r == if AllDistinct(uuids) then Success(uuids) else Failure(DuplicateUuids)
  {
    if bytes.None? && len > 0 { return Failure(NullUuids); }
    if len > ISIZE_MAX / UUID_BYTES { return Failure(TooManyUuids); }
    var uuids: seq<Uuid> := [];
    var position := 0;
    while position < len
      invariant 0 <= position <= len && |uuids| == position
      invariant forall i | 0 <= i < position :: uuids[i] == UuidAt(bytes.value, i)
    {
      uuids := uuids + [UuidAt(bytes.value, position)];
      position := position + 1;
    }
    var unique := set uuid | uuid in uuids;
    CountOfDistinct(uuids);
    if bytes.Some? {
      assert uuids == seq(len, i requires 0 <= i < len => UuidAt(bytes.value, i));
    } else {
      assert uuids == [];
    }
    if |unique| != |uuids| { return Failure(DuplicateUuids); }
    return Success(uuids);
  }

  function ToBytes(uuids: seq<Uuid>): seq<Byte> {
    if uuids == [] then [] else ToBytes(uuids[..|uuids| - 1]) + uuids[|uuids| - 1]
  }

  /** The wire form of UUIDs is read back as these UUIDs, in order. */
  lemma {:induction false} UuidsRoundTrip(uuids: seq<Uuid>, i: int)
    requires forall u | u in uuids :: |u| == UUID_BYTES
    ensures |ToBytes(uuids)| == |uuids| * UUID_BYTES
    ensures 0 <= i < |uuids| ==> UuidAt(ToBytes(uuids), i) == uuids[i]
  {
    if uuids != [] {
      var k := |uuids| - 1;
      UuidsRoundTrip(uuids[..k], if i < k then i else -1);
      assert uuids[k] in uuids;
      if 0 <= i < k { assert uuids[..k][i] == uuids[i]; }
    }
  }

  // ---------------------------------------------------------------------------
  // Coverage of a context
  // ---------------------------------------------------------------------------

  datatype Segment = Segment(uuid: Uuid, fields: seq<int>, coverage: Option<set<nat>>)

  datatype CoverageMode = StrictCoverage | IndexOnly

  datatype CoverageError =
    | NoSegments | InconsistentFields(uuid: Uuid) | FragmentTooLarge(id: nat)
    | UnknownCoverage(uuid: Uuid) | Unindexed(fragments: set<nat>)

  /** The union of the segments' coverage. */
  function Covered(segments: seq<Segment>): set<nat> {
    if segments == [] then {}
    else
      var k := |segments| - 1;
      Covered(segments[..k]) + (if segments[k].coverage.Some? then segments[k].coverage.value else {})
  }

  predicate Covers(s: Segment, f: nat) {
    s.coverage.Some? && f in s.coverage.value
  }

  lemma {:induction false} CoveredBySome(segments: seq<Segment>, f: nat)
    ensures f in Covered(segments) <==> exists s | s in segments :: Covers(s, f)
  {
    if segments != [] {
      var k := |segments| - 1;
      CoveredBySome(segments[..k], f);
      assert segments == segments[..k] + [segments[k]];
      assert segments[k] in segments;
    }
  }

  function ToSet<T>(s: seq<T>): set<T> {
    set x | x in s
  }

  /** The segments agree on their fields, every current fragment id fits 32 bits and every
      segment's coverage is known. */
  predicate WellCovered(fragments: seq<nat>, segments: seq<Segment>) {
    && segments != []
    && (forall s | s in segments :: s.fields == segments[0].fields)
    && (forall f | f in fragments :: f <= U32_MAX)
    && forall s | s in segments :: s.coverage.Some?
  }

  method CheckFields(segments: seq<Segment>) returns (r: Option<Uuid>)
    requires segments != []
    ensures r.None? <==> forall s | s in segments :: s.fields == segments[0].fields
    ensures r.Some? ==> exists s | s in segments :: s.uuid == r.value && s.fields != segments[0].fields
  {
    var i := 0;
    while i < |segments|
      invariant 0 <= i <= |segments|
      invariant forall j | 0 <= j < i :: segments[j].fields == segments[0].fields
    {
      if segments[i].fields != segments[0].fields {
        assert segments[i] in segments;
        return Some(segments[i].uuid);
      }
      i := i + 1;
    }
    return None;
  }

  method CurrentIds(fragments: seq<nat>) returns (r: Result<set<nat>, CoverageError>)
    ensures r.Success? <==> forall f | f in fragments :: f <= U32_MAX
    ensures r.Success? ==> r.value == ToSet(fragments)
    ensures r.Failure? ==> exists f | f in fragments :: f > U32_MAX && r.error == FragmentTooLarge(f)
  {
    var ids := {};
    var i := 0;
    while i < |fragments|
      invariant 0 <= i <= |fragments|
      invariant ids == ToSet(fragments[..i]) && forall f | f in fragments[..i] :: f <= U32_MAX
    {
      if fragments[i] > U32_MAX {
        assert fragments[i] in fragments;
        return Failure(FragmentTooLarge(fragments[i]));
      }
      assert fragments[..i + 1] == fragments[..i] + [fragments[i]];
      ids := ids + {fragments[i]};
      i := i + 1;
    }
    assert fragments[..i] == fragments;
    return Success(ids);
  }

  method IndexedIds(segments: seq<Segment>, current: set<nat>) returns (r: Result<set<nat>, CoverageError>)
    ensures r.Success? <==> forall s | s in segments :: s.coverage.Some?
    ensures r.Success? ==> r.value == Covered(segments) * current
    ensures r.Failure? ==> exists s | s in segments :: s.coverage.None? && r.error == UnknownCoverage(s.uuid)
  {
    var indexed := {};
    var i := 0;
    while i < |segments|
      invariant 0 <= i <= |segments|
      invariant indexed == Covered(segments[..i]) * current
      invariant forall j | 0 <= j < i :: segments[j].coverage.Some?
    {
      if segments[i].coverage.None? {
        assert segments[i] in segments;
        return Failure(UnknownCoverage(segments[i].uuid));
      }
      assert segments[..i + 1][..i] == segments[..i];
      indexed := indexed + set f | f in segments[i].coverage.value && f in current;
      i := i + 1;
    }
    assert segments[..i] == segments;
    return Success(indexed);
  }

  /** Succeeds with the current fragments that no segment covers; in STRICT mode there must be
      none. */
  method PrepareCoverage(fragments: seq<nat>, segments: seq<Segment>, mode: CoverageMode)
    returns (r: Result<set<nat>, CoverageError>)
    ensures r.Success? <==>
              && WellCovered(fragments, segments)
              && (mode == StrictCoverage ==> ToSet(fragments) <= Covered(segments))
    ensures r.Success? <==>
              && segments != [] && (forall s | s in segments :: s.fields == segments[0].fields && s.coverage.Some?)
              && (forall f | f in fragments :: f <= 0xFFFF_FFFF)
              && (mode == StrictCoverage ==> forall f | f in fragments :: exists s | s in segments :: Covers(s, f))
    ensures segments == [] ==> r == Failure(NoSegments)
    ensures r.Success? ==> r.value == ToSet(fragments) - Covered(segments)
    ensures r.Success? ==> forall f ::
              f in r.value <==> f in fragments && !(exists s | s in segments :: Covers(s, f))
    ensures r.Failure? && WellCovered(fragments, segments) ==>
              r.error == Unindexed(ToSet(fragments) - Covered(segments))
  {
    forall f ensures f in Covered(segments) <==> exists s | s in segments :: Covers(s, f) {
      CoveredBySome(segments, f);
    }
    if segments == [] { return Failure(NoSegments); }
    var odd := CheckFields(segments);
    if odd.Some? { return Failure(InconsistentFields(odd.value)); }
    var current := CurrentIds(fragments);
    if current.Failure? { return Failure(current.error); }
    var indexed := IndexedIds(segments, current.value);
    if indexed.Failure? { return Failure(indexed.error); }
    var unindexed := current.value - indexed.value;
    assert unindexed == ToSet(fragments) - Covered(segments);
    if mode == StrictCoverage && unindexed != {} {
      var f :| f in unindexed;
      assert f in fragments && f !in Covered(segments);
      return Failure(Unindexed(unindexed));
    }
    forall f | mode == StrictCoverage && f in fragments ensures f in Covered(segments) {
      assert f in ToSet(fragments) && f !in unindexed;
    }
    return Success(unindexed);
  }

  // ---------------------------------------------------------------------------
  // A worker's segments and fragments
  // ---------------------------------------------------------------------------

  datatype Context = Context(fragments: seq<nat>, segments: seq<Segment>, mode: CoverageMode)

  predicate DistinctUuids(segments: seq<Segment>) {
    forall i, j | 0 <= i < j < |segments| :: segments[i].uuid != segments[j].uuid
  }

  /** What preparation has checked, and that an index lists no segment twice. */
  predicate Prepared(c: Context) {
    && WellCovered(c.fragments, c.segments) && DistinctUuids(c.segments)
    && (c.mode == StrictCoverage ==> ToSet(c.fragments) <= Covered(c.segments))
  }

  datatype SelectError = NotInContext(uuid: Uuid) | EmptySubset | LostCoverage(uuid: Uuid) | OutsideU32(id: nat)

  predicate IsListed(segments: seq<Segment>, uuid: Uuid) {
    exists s | s in segments :: s.uuid == uuid
  }

  /** The chosen segments, in the order of the UUIDs. */
  predicate Chooses(c: Context, uuids: seq<Uuid>, chosen: seq<Segment>) {
    |chosen| == |uuids| && forall i | 0 <= i < |uuids| :: chosen[i] in c.segments && chosen[i].uuid == uuids[i]
  }

  method FindSegment(segments: seq<Segment>, uuid: Uuid) returns (r: Option<Segment>)
    ensures r.Some? <==> IsListed(segments, uuid)
    ensures r.Some? ==> r.value in segments && r.value.uuid == uuid
  {
    var i := 0;
    while i < |segments|
      invariant 0 <= i <= |segments|
      invariant forall j | 0 <= j < i :: segments[j].uuid != uuid
    {
      if segments[i].uuid == uuid { return Some(segments[i]); }
      i := i + 1;
    }
    return None;
  }

  method SelectFtsSegments(c: Context, uuids: Option<seq<Uuid>>) returns (r: Result<seq<Segment>, SelectError>)
    ensures uuids.None? ==> r == Success(c.segments)
    ensures uuids.Some? ==>
              (r.Success? <==> uuids.value != [] && forall u | u in uuids.value :: IsListed(c.segments, u))
    ensures uuids.Some? && r.Success? ==> Chooses(c, uuids.value, r.value)
    ensures uuids.Some? && r.Failure? ==>
              if uuids.value == [] then r.error == EmptySubset
              else r.error.NotInContext? && r.error.uuid in uuids.value && !IsListed(c.segments, r.error.uuid)
  {
    if uuids.None? { return Success(c.segments); }
    var selected: seq<Segment> := [];
    while |selected| < |uuids.value|
      invariant |selected| <= |uuids.value|
      invariant forall i | 0 <= i < |selected| ::
                  && selected[i] in c.segments && selected[i].uuid == uuids.value[i]
                  && IsListed(c.segments, uuids.value[i])
    {
      var uuid := uuids.value[|selected|];
      assert uuid in uuids.value;
      var found := FindSegment(c.segments, uuid);
      if found.None? { return Failure(NotInContext(uuid)); }
      selected := selected + [found.value];
    }
    if selected == [] { return Failure(EmptySubset); }
    return Success(selected);
  }

  method CoverageOf(segments: seq<Segment>) returns (r: Result<set<nat>, SelectError>)
    ensures r.Success? <==> forall s | s in segments :: s.coverage.Some?
    ensures r.Success? ==> r.value == Covered(segments)
  {
    var ids := {};
    var i := 0;
    while i < |segments|
      invariant 0 <= i <= |segments|
      invariant ids == Covered(segments[..i])
      invariant forall j | 0 <= j < i :: segments[j].coverage.Some?
    {
      if segments[i].coverage.None? {
        assert segments[i] in segments;
        return Failure(LostCoverage(segments[i].uuid));
      }
      assert segments[..i + 1][..i] == segments[..i];
      ids := ids + segments[i].coverage.value;
      i := i + 1;
    }
    assert segments[..i] == segments;
    return Success(ids);
  }

  /** The current fragments that the segments cover, in the order of the dataset. */
  method SelectedCurrentFtsFragments(fragments: seq<nat>, segments: seq<Segment>)
    returns (r: Result<seq<nat>, SelectError>)
    ensures r.Success? <==> (forall s | s in segments :: s.coverage.Some?) && forall f | f in fragments :: f <= U32_MAX
    ensures r.Success? ==> r.value == Filtered(fragments, Covered(segments))
    ensures r.Success? ==> exists at ::
              && Picks(fragments, r.value, at)
              && forall i | 0 <= i < |fragments| ::
                   i in at <==> exists s | s in segments :: Covers(s, fragments[i])
  {
    var ids := CoverageOf(segments);
    if ids.Failure? { return Failure(ids.error); }
    var selected: seq<nat> := [];
    var i := 0;
    while i < |fragments|
      invariant 0 <= i <= |fragments|
      invariant selected == Filtered(fragments[..i], ids.value)
      invariant forall j | 0 <= j < i :: fragments[j] <= U32_MAX
    {
      if fragments[i] > U32_MAX {
        assert fragments[i] in fragments;
        return Failure(OutsideU32(fragments[i]));
      }
      assert fragments[..i + 1][..i] == fragments[..i];
      if fragments[i] in ids.value { selected := selected + [fragments[i]]; }
      i := i + 1;
    }
    assert fragments[..i] == fragments;
    ghost var at := FilteredPicks(fragments, ids.value);
    forall j | 0 <= j < |fragments| ensures j in at <==> exists s | s in segments :: Covers(s, fragments[j]) {
      CoveredBySome(segments, fragments[j]);
    }
    return Success(selected);
  }

  function Filtered(fragments: seq<nat>, ids: set<nat>): seq<nat> {
    if fragments == [] then []
    else
      var k := |fragments| - 1;
      Filtered(fragments[..k], ids) + (if fragments[k] in ids then [fragments[k]] else [])
  }

  lemma {:induction false} FilteredHolds(fragments: seq<nat>, ids: set<nat>)
    ensures forall f :: f in Filtered(fragments, ids) <==> f in fragments && f in ids
  {
    if fragments != [] {
      var k := |fragments| - 1;
      FilteredHolds(fragments[..k], ids);
      assert fragments == fragments[..k] + [fragments[k]];
    }
  }

  /** The fragments stand where they stood, none is lost and none repeated. */
  lemma {:induction false} FilteredPicks(fragments: seq<nat>, ids: set<nat>) returns (at: seq<int>)
    ensures Picks(fragments, Filtered(fragments, ids), at)
    ensures forall i | 0 <= i < |fragments| :: i in at <==> fragments[i] in ids
  {
    if fragments == [] {
      at := [];
    } else {
      var k := |fragments| - 1;
      var before := FilteredPicks(fragments[..k], ids);
      at := PicksLast(fragments[..k], fragments[k], Filtered(fragments[..k], ids), before, fragments[k] in ids);
      assert fragments == fragments[..k] + [fragments[k]];
      assert forall i | 0 <= i < k :: fragments[..k][i] == fragments[i];
    }
  }

  // ---------------------------------------------------------------------------
  // Splitting the segments among workers
  // ---------------------------------------------------------------------------

  /** The worker that was given these UUIDs searches the fragment. To be given none at all clears
      the selection, and selects every segment. */
  predicate Searches(c: Context, uuids: seq<Uuid>, f: nat) {
    f in c.fragments && exists s | s in c.segments :: Covers(s, f) && (uuids == [] || s.uuid in uuids)
  }

  lemma ChosenSearch(c: Context, uuids: seq<Uuid>, chosen: seq<Segment>, f: nat)
    requires DistinctUuids(c.segments) && Chooses(c, uuids, chosen) && uuids != []
    ensures f in c.fragments && f in Covered(chosen) <==> Searches(c, uuids, f)
  {
    CoveredBySome(chosen, f);
    if f in Covered(chosen) {
      var s :| s in chosen && Covers(s, f);
      var i :| 0 <= i < |chosen| && chosen[i] == s;
      assert s in c.segments && s.uuid == uuids[i];
    }
    if Searches(c, uuids, f) {
      var s :| s in c.segments && Covers(s, f) && s.uuid in uuids;
      var i :| 0 <= i < |uuids| && uuids[i] == s.uuid;
      assert chosen[i] in c.segments;
      assert chosen[i] == s && s in chosen;
    }
  }

  /** One worker, from the setter to the fragments of its scan. */
  method WorkerFragments(c: Context, uuids: seq<Uuid>) returns (r: Result<seq<nat>, SelectError>)
    requires Prepared(c)
    ensures r.Success? <==> forall u | u in uuids :: IsListed(c.segments, u)
    ensures r.Failure? ==> r.error.NotInContext? && r.error.uuid in uuids
    ensures r.Success? ==> forall f :: f in r.value <==> Searches(c, uuids, f)
    ensures r.Success? ==> exists ids :: r.value == Filtered(c.fragments, ids)
    ensures uuids == [] ==> r.Success? && forall f :: f in r.value <==> f in c.fragments && f in Covered(c.segments)
  {
    var selection := if |uuids| == 0 then None else Some(uuids);
    var chosen := SelectFtsSegments(c, selection);
    if chosen.Failure? { return Failure(chosen.error); }
    r := SelectedCurrentFtsFragments(c.fragments, chosen.value);
    FilteredHolds(c.fragments, Covered(chosen.value));
    forall f ensures f in c.fragments && f in Covered(chosen.value) <==> Searches(c, uuids, f) {
      if uuids == [] { CoveredBySome(c.segments, f); } else { ChosenSearch(c, uuids, chosen.value, f); }
    }
  }

  predicate IsAssigned(parts: seq<seq<Uuid>>, uuid: Uuid) {
    exists w | 0 <= w < |parts| :: uuid in parts[w]
  }

  predicate SomeWorkerSearches(c: Context, parts: seq<seq<Uuid>>, f: nat) {
    exists w | 0 <= w < |parts| :: Searches(c, parts[w], f)
  }

  /** When every segment is assigned to some worker, the workers together search exactly the
      current fragments that the index covers: all current fragments, in STRICT mode. */
  lemma WorkersLoseNothing(c: Context, parts: seq<seq<Uuid>>, f: nat)
    requires Prepared(c) && forall s | s in c.segments :: IsAssigned(parts, s.uuid)
    ensures SomeWorkerSearches(c, parts, f) <==> f in c.fragments && f in Covered(c.segments)
    ensures c.mode == StrictCoverage ==> (SomeWorkerSearches(c, parts, f) <==> f in c.fragments)
  {
    CoveredBySome(c.segments, f);
    if f in c.fragments && f in Covered(c.segments) {
      var s :| s in c.segments && Covers(s, f);
      var w :| 0 <= w < |parts| && s.uuid in parts[w];
      assert Searches(c, parts[w], f);
    }
    if c.mode == StrictCoverage && f in c.fragments { assert f in ToSet(c.fragments); }
  }

  predicate OverlapFree(segments: seq<Segment>) {
    forall s, t, f | s in segments && t in segments && s != t && s.coverage.Some? && f in s.coverage.value ::
      !Covers(t, f)
  }

  /** Two workers with disjoint nonempty assignments share a fragment exactly when two segments,
      one of each, both cover it; so they share none when the segments' coverage is disjoint. */
  lemma WorkersOverlap(c: Context, p: seq<Uuid>, q: seq<Uuid>, f: nat)
    requires p != [] && q != [] && forall u | u in p :: u !in q
    ensures Searches(c, p, f) && Searches(c, q, f) <==>
            f in c.fragments && exists s, t | s in c.segments && t in c.segments ::
              s.uuid in p && t.uuid in q && Covers(s, f) && Covers(t, f)
    ensures OverlapFree(c.segments) ==> !(Searches(c, p, f) && Searches(c, q, f))
  {
    if Searches(c, p, f) && Searches(c, q, f) {
      var s :| s in c.segments && Covers(s, f) && s.uuid in p;
      var t :| t in c.segments && Covers(t, f) && t.uuid in q;
      assert s != t;
    }
  }

  // ---------------------------------------------------------------------------
  // The plan tree
  // ---------------------------------------------------------------------------

  type Schema = seq<string>

  datatype SearchKind = MatchQuery | PhraseQuery

  /** What a rebuilt search is bound to: the selected segments, the shared scorer and the external
      row mask. A planned search is bound to nothing yet. */
  datatype Binding = Binding(segments: seq<Segment>, scorer: nat, mask: Option<nat>)

  datatype Plan =
    | FlatMatch(schema: Schema, children: seq<Plan>)
    | Search(kind: SearchKind, schema: Schema, query: nat, binding: Option<Binding>, children: seq<Plan>)
    | Empty(schema: Schema, children: seq<Plan>)
    | Node(op: nat, schema: Schema, children: seq<Plan>)

  datatype Counts = Counts(indexed: nat, flat: nat)

  /** The prepared query, of one kind, with what its searches are bound to. */
  datatype Execution = Execution(kind: SearchKind, binding: Binding, hasCurrent: bool)

  datatype PlanError = KindMismatch(prepared: SearchKind) | UnexpectedPlan(counts: Counts)

  /** `Empty` and `FlatMatch` are as deep as the planner made them; the empty nodes that the
      rewriting puts in have no children. */
  function EmptyExec(schema: Schema): Plan {
    Empty(schema, [])
  }

  /** The reference: what the tree becomes, node by node. */
  function Expected(x: Execution, p: Plan): Plan {
    match p
    case FlatMatch(schema, _) => EmptyExec(schema)
    case Search(kind, schema, query, _, children) =>
      if x.hasCurrent then Search(kind, schema, query, Some(x.binding), ExpectedAll(x, children)) else EmptyExec(schema)
    case Empty(schema, children) => Empty(schema, ExpectedAll(x, children))
    case Node(op, schema, children) => Node(op, schema, ExpectedAll(x, children))
  }

  function ExpectedAll(x: Execution, s: seq<Plan>): (r: seq<Plan>)
    ensures |r| == |s|
  {
    if s == [] then [] else ExpectedAll(x, s[..|s| - 1]) + [Expected(x, s[|s| - 1])]
  }

  /** The nodes that do not lie beneath a flat node; a flat node itself counts. */
  function Visible(p: Plan): Counts {
    if p.FlatMatch? then Counts(0, 1)
    else
      var below := VisibleAll(p.children);
      Counts(below.indexed + (if p.Search? then 1 else 0), below.flat)
  }

  function VisibleAll(s: seq<Plan>): Counts {
    if s == [] then Counts(0, 0)
    else
      var rest := VisibleAll(s[..|s| - 1]);
      var last := Visible(s[|s| - 1]);
      Counts(rest.indexed + last.indexed, rest.flat + last.flat)
  }

  // ---------------------------------------------------------------------------
  // What is counted: positions in the tree
  // ---------------------------------------------------------------------------

  /** A position: which child to take at each node on the way down. */
  type Path = seq<int>

  function NodeAt(p: Plan, path: Path): Option<Plan>
    decreases |path|
  {
    if path == [] then Some(p)
    else if 0 <= path[0] < |p.children| then NodeAt(p.children[path[0]], path[1..])
    else None
  }

  /** No node strictly above the position is a flat node. */
  predicate NoFlatAbove(p: Plan, path: Path) {
    forall k | 0 <= k < |path| :: NodeAt(p, path[..k]).Some? ==> !NodeAt(p, path[..k]).value.FlatMatch?
  }

  predicate LeadsToSearch(p: Plan, path: Path) {
    NodeAt(p, path).Some? && NodeAt(p, path).value.Search? && NoFlatAbove(p, path)
  }

  predicate LeadsToFlat(p: Plan, path: Path) {
    NodeAt(p, path).Some? && NodeAt(p, path).value.FlatMatch? && NoFlatAbove(p, path)
  }

  predicate LeadsTo(p: Plan, path: Path, flat: bool) {
    if flat then LeadsToFlat(p, path) else LeadsToSearch(p, path)
  }

  ghost predicate AreSearches(p: Plan, paths: set<Path>) {
    forall path :: path in paths <==> LeadsToSearch(p, path)
  }

  ghost predicate AreFlats(p: Plan, paths: set<Path>) {
    forall path :: path in paths <==> LeadsToFlat(p, path)
  }

  function Under(k: int, paths: seq<Path>): seq<Path> {
    seq(|paths|, j requires 0 <= j < |paths| => [k] + paths[j])
  }

  /** The positions of one sort, listed. */
  function Paths(p: Plan, flat: bool): seq<Path> {
    if p.FlatMatch? then (if flat then [[]] else [])
    else (if p.Search? && !flat then [[]] else []) + PathsAll(p.children, flat)
  }

  function PathsAll(s: seq<Plan>, flat: bool): seq<Path> {
    if s == [] then [] else PathsAll(s[..|s| - 1], flat) + Under(|s| - 1, Paths(s[|s| - 1], flat))
  }

  lemma {:induction false} PathsAreCounted(p: Plan, flat: bool)
    ensures |Paths(p, flat)| == if flat then Visible(p).flat else Visible(p).indexed
    decreases p, |p.children| + 1
  {
    if !p.FlatMatch? { ForestPathsAreCounted(p, p.children, flat); }
  }

  lemma {:induction false} ForestPathsAreCounted(p: Plan, s: seq<Plan>, flat: bool)
    requires forall c | c in s :: c in p.children
    ensures |PathsAll(s, flat)| == if flat then VisibleAll(s).flat else VisibleAll(s).indexed
    decreases p, |s|
  {
    if s != [] {
      var k := |s| - 1;
      ForestPathsAreCounted(p, s[..k], flat);
      assert s[k] in p.children;
      PathsAreCounted(s[k], flat);
    }
  }

  /** Below a node that is not flat, a position is the choice of a child and a position in it. */
  lemma LeadsBelow(p: Plan, path: Path, flat: bool)
    requires path != []
    ensures LeadsTo(p, path, flat) <==>
            !p.FlatMatch? && 0 <= path[0] < |p.children| && LeadsTo(p.children[path[0]], path[1..], flat)
  {
    var rest := path[1..];
    assert path[..0] == [];
    if 0 <= path[0] < |p.children| {
      var c := p.children[path[0]];
      forall k | 0 <= k < |rest| ensures NodeAt(p, path[..k + 1]) == NodeAt(c, rest[..k]) {
        assert path[..k + 1][1..] == rest[..k];
      }
      if NoFlatAbove(p, path) {
        forall k | 0 <= k < |rest| && NodeAt(c, rest[..k]).Some? ensures !NodeAt(c, rest[..k]).value.FlatMatch? {
          assert NodeAt(p, path[..k + 1]) == NodeAt(c, rest[..k]);
        }
        assert NodeAt(p, path[..0]) == Some(p);
      }
      if !p.FlatMatch? && NoFlatAbove(c, rest) {
        forall k | 0 <= k < |path| && NodeAt(p, path[..k]).Some? ensures !NodeAt(p, path[..k]).value.FlatMatch? {
          if k > 0 { assert NodeAt(p, path[..k - 1 + 1]) == NodeAt(c, rest[..k - 1]); }
        }
      }
    }
  }

  lemma UnderHolds(k: int, paths: seq<Path>, path: Path)
    ensures path in Under(k, paths) <==> path != [] && path[0] == k && path[1..] in paths
  {
    if path in Under(k, paths) {
      var j :| 0 <= j < |paths| && Under(k, paths)[j] == path;
      assert path[1..] == paths[j];
    }
    if path != [] && path[0] == k && path[1..] in paths {
      var j :| 0 <= j < |paths| && paths[j] == path[1..];
      assert Under(k, paths)[j] == [k] + path[1..] == path;
    }
  }

  lemma {:induction false} PathsLead(p: Plan, path: Path, flat: bool)
    ensures path in Paths(p, flat) <==> LeadsTo(p, path, flat)
    decreases p, |p.children| + 1
  {
    if path == [] {
      if !p.FlatMatch? { ForestPathsLead(p, p.children, path, flat); }
    } else {
      LeadsBelow(p, path, flat);
      if !p.FlatMatch? { ForestPathsLead(p, p.children, path, flat); }
    }
  }

  lemma {:induction false} ForestPathsLead(p: Plan, s: seq<Plan>, path: Path, flat: bool)
    requires forall c | c in s :: c in p.children
    ensures path in PathsAll(s, flat) <==>
            path != [] && 0 <= path[0] < |s| && LeadsTo(s[path[0]], path[1..], flat)
    decreases p, |s|
  {
    if s != [] {
      var k := |s| - 1;
      ForestPathsLead(p, s[..k], path, flat);
      UnderHolds(k, Paths(s[k], flat), path);
      assert s[k] in p.children;
      if path != [] { PathsLead(s[k], path[1..], flat); }
    }
  }

  lemma {:induction false} PathsAreDistinct(p: Plan, flat: bool)
    ensures AllDistinct(Paths(p, flat))
    decreases p, |p.children| + 1
  {
    if !p.FlatMatch? {
      ForestPathsAreDistinct(p, p.children, flat);
      ForestPathsLead(p, p.children, [], flat);
      var below := PathsAll(p.children, flat);
      forall j | 0 <= j < |below| ensures below[j] != [] { assert below[j] in below; }
    }
  }

  lemma {:induction false} ForestPathsAreDistinct(p: Plan, s: seq<Plan>, flat: bool)
    requires forall c | c in s :: c in p.children
    ensures AllDistinct(PathsAll(s, flat))
    decreases p, |s|
  {
    if s != [] {
      var k := |s| - 1;
      var a, b := PathsAll(s[..k], flat), Paths(s[k], flat);
      ForestPathsAreDistinct(p, s[..k], flat);
      assert s[k] in p.children;
      PathsAreDistinct(s[k], flat);
      forall i, j | 0 <= i < j < |b| ensures Under(k, b)[i] != Under(k, b)[j] {
        assert Under(k, b)[i][1..] == b[i] && Under(k, b)[j][1..] == b[j];
      }
      forall i, j | 0 <= i < |a| && 0 <= j < |b| ensures a[i] != Under(k, b)[j] {
        assert a[i] in a;
        ForestPathsLead(p, s[..k], a[i], flat);
      }
    }
  }

  lemma PositionsOf(p: Plan, flat: bool) returns (paths: set<Path>)
    ensures forall path :: path in paths <==> LeadsTo(p, path, flat)
    ensures |paths| == if flat then Visible(p).flat else Visible(p).indexed
  {
    var all := Paths(p, flat);
    paths := set path | path in all;
    forall path ensures path in paths <==> LeadsTo(p, path, flat) { PathsLead(p, path, flat); }
    PathsAreDistinct(p, flat);
    CountOfDistinct(all);
    PathsAreCounted(p, flat);
  }

  /** The counts are the numbers of positions that lead to a search of either kind, and to a flat node,
      with no flat node above. */
  lemma CountsArePositions(p: Plan, searches: set<Path>, flats: set<Path>)
    requires AreSearches(p, searches) && AreFlats(p, flats)
    ensures Visible(p) == Counts(|searches|, |flats|)
  {
    var s := PositionsOf(p, false);
    var f := PositionsOf(p, true);
    forall path ensures path in s <==> path in searches { assert LeadsTo(p, path, false) <==> LeadsToSearch(p, path); }
    forall path ensures path in f <==> path in flats { assert LeadsTo(p, path, true) <==> LeadsToFlat(p, path); }
    assert s == searches && f == flats;
  }

  /** There are such sets, so what is said of all of them is never vacuous. */
  lemma PositionsExist(p: Plan) returns (searches: set<Path>, flats: set<Path>)
    ensures AreSearches(p, searches) && AreFlats(p, flats)
  {
    searches := PositionsOf(p, false);
    flats := PositionsOf(p, true);
    forall path ensures path in searches <==> LeadsToSearch(p, path) {
      assert LeadsTo(p, path, false) <==> LeadsToSearch(p, path);
    }
    forall path ensures path in flats <==> LeadsToFlat(p, path) {
      assert LeadsTo(p, path, true) <==> LeadsToFlat(p, path);
    }
  }

  /** Every visible search is of this kind. */
  predicate AllOfKind(kind: SearchKind, p: Plan) {
    p.FlatMatch? || ((p.Search? ==> p.kind == kind) && forall c | c in p.children :: AllOfKind(kind, c))
  }

  lemma {:induction false} AllOfKindAt(kind: SearchKind, p: Plan, path: Path)
    requires AllOfKind(kind, p) && LeadsToSearch(p, path)
    ensures NodeAt(p, path).value.kind == kind
    decreases |path|
  {
    if path != [] {
      LeadsBelow(p, path, false);
      assert LeadsTo(p, path, false) && LeadsTo(p.children[path[0]], path[1..], false);
      assert p.children[path[0]] in p.children;
      AllOfKindAt(kind, p.children[path[0]], path[1..]);
    }
  }

  lemma {:induction false} OtherKindAt(kind: SearchKind, p: Plan) returns (path: Path)
    requires !AllOfKind(kind, p)
    ensures LeadsToSearch(p, path) && NodeAt(p, path).value.kind != kind
  {
    if p.Search? && p.kind != kind {
      path := [];
    } else {
      var i :| 0 <= i < |p.children| && !AllOfKind(kind, p.children[i]);
      assert p.children[i] in p.children;
      var rest := OtherKindAt(kind, p.children[i]);
      path := [i] + rest;
      assert path[1..] == rest && LeadsTo(p.children[i], rest, false);
      LeadsBelow(p, path, false);
      assert LeadsTo(p, path, false);
    }
  }

  /** The kinds that matter are those of the searches without a flat node above. */
  lemma KindsArePositions(kind: SearchKind, p: Plan)
    ensures AllOfKind(kind, p) <==> forall path | LeadsToSearch(p, path) :: NodeAt(p, path).value.kind == kind
  {
    if AllOfKind(kind, p) {
      forall path | LeadsToSearch(p, path) ensures NodeAt(p, path).value.kind == kind { AllOfKindAt(kind, p, path); }
    } else {
      var path := OtherKindAt(kind, p);
    }
  }

  /** The children in order, with their counts added up. */
  method RewriteChildren(x: Execution, p: Plan) returns (r: Result<(seq<Plan>, Counts), PlanError>)
    ensures r.Success? <==> !x.hasCurrent || forall c | c in p.children :: AllOfKind(x.kind, c)
    ensures r.Success? ==> r.value == (ExpectedAll(x, p.children), VisibleAll(p.children))
    ensures r.Failure? ==> r.error == KindMismatch(x.kind)
    decreases p, 0
  {
    var counts := Counts(0, 0);
    var children: seq<Plan> := [];
    while |children| < |p.children|
      invariant |children| <= |p.children|
      invariant x.hasCurrent ==> forall j | 0 <= j < |children| :: AllOfKind(x.kind, p.children[j])
      invariant children == ExpectedAll(x, p.children[..|children|])
      invariant counts == VisibleAll(p.children[..|children|])
    {
      var k := |children|;
      var child := RewritePlan(x, p.children[k]);
      if child.Failure? {
        assert p.children[k] in p.children;
        return Failure(child.error);
      }
      assert p.children[..k + 1][..k] == p.children[..k];
      children := children + [child.value.0];
      counts := Counts(counts.indexed + child.value.1.indexed, counts.flat + child.value.1.flat);
    }
    assert p.children[..|children|] == p.children;
    return Success((children, counts));
  }

  /** It fails exactly when the selected segments have current fragments and some visible search is
      not of the prepared kind, and otherwise returns the reference tree and the visible nodes. */
  method RewritePlan(x: Execution, p: Plan) returns (r: Result<(Plan, Counts), PlanError>)
    ensures r.Success? <==> !x.hasCurrent || AllOfKind(x.kind, p)
    ensures r.Success? ==> r.value == (Expected(x, p), Visible(p))
    ensures r.Success? ==> forall searches, flats | AreSearches(p, searches) && AreFlats(p, flats) ::
              r.value.1 == Counts(|searches|, |flats|)
    ensures r.Failure? ==> r.error == KindMismatch(x.kind)
    decreases p, 1
  {
    forall searches, flats | AreSearches(p, searches) && AreFlats(p, flats)
      ensures Visible(p) == Counts(|searches|, |flats|)
    {
      CountsArePositions(p, searches, flats);
    }
    if p.FlatMatch? { return Success((EmptyExec(p.schema), Counts(0, 1))); }
    var below := RewriteChildren(x, p);
    if below.Failure? { return Failure(below.error); }
    var (children, counts) := below.value;
    var rebuilt := p.(children := children);
    if !rebuilt.Search? { return Success((rebuilt, counts)); }
    counts := counts.(indexed := counts.indexed + 1);
    if !x.hasCurrent { return Success((EmptyExec(rebuilt.schema), counts)); }
    if rebuilt.kind != x.kind { return Failure(KindMismatch(x.kind)); }
    return Success((rebuilt.(binding := Some(x.binding)), counts));
  }

  // ---------------------------------------------------------------------------
  // What the rewritten tree means
  // ---------------------------------------------------------------------------

  predicate NoFlatMatch(p: Plan) {
    !p.FlatMatch? && forall c | c in p.children :: NoFlatMatch(c)
  }

  /** Every search is bound to the selection, and there is none when it has no current fragments. */
  predicate Bound(x: Execution, p: Plan) {
    && (p.Search? ==> x.hasCurrent && p.binding == Some(x.binding))
    && forall c | c in p.children :: Bound(x, c)
  }

  /** The same operator with the same parameters; a search may be bound anew. */
  predicate SameOperator(p: Plan, q: Plan) {
    match p
    case FlatMatch(schema, _) => q.FlatMatch? && q.schema == schema
    case Search(kind, schema, query, _, _) => q.Search? && q.kind == kind && q.schema == schema && q.query == query
    case Empty(schema, _) => q.Empty? && q.schema == schema
    case Node(op, schema, _) => q.Node? && q.op == op && q.schema == schema
  }

  /** The nodes that the rewriting empties: flat searches, and searches over a selection without
      current fragments. */
  predicate IsEmptied(x: Execution, p: Plan) {
    p.FlatMatch? || (p.Search? && !x.hasCurrent)
  }

  /** Node by node, an emptied node becomes an empty one with its schema, and every other node stays
      what it is, with as many children. */
  predicate KeepsShape(x: Execution, p: Plan, q: Plan) {
    if IsEmptied(x, p) then q == EmptyExec(p.schema)
    else
      && SameOperator(p, q) && |q.children| == |p.children|
      && forall i | 0 <= i < |p.children| :: KeepsShape(x, p.children[i], q.children[i])
  }

  lemma {:induction false} RewriteKeepsTheTree(x: Execution, p: Plan)
    ensures NoFlatMatch(Expected(x, p)) && Bound(x, Expected(x, p)) && KeepsShape(x, p, Expected(x, p))
    decreases p, |p.children| + 1
  {
    if !p.FlatMatch? { RewriteKeepsTheForest(x, p, p.children); }
  }

  lemma {:induction false} RewriteKeepsTheForest(x: Execution, p: Plan, s: seq<Plan>)
    requires forall c | c in s :: c in p.children
    ensures |ExpectedAll(x, s)| == |s|
    ensures forall i | 0 <= i < |s| ::
              var q := ExpectedAll(x, s)[i];
              NoFlatMatch(q) && Bound(x, q) && KeepsShape(x, s[i], q)
    decreases p, |s|
  {
    if s != [] {
      var k := |s| - 1;
      RewriteKeepsTheForest(x, p, s[..k]);
      assert s[k] in p.children;
      RewriteKeepsTheTree(x, s[k]);
    }
  }

  /** How Lance executes a tree, for any domain of results. */
  datatype Engine<!D> = Engine(
    none: Schema -> D,
    flat: (Schema, seq<D>) -> D,
    search: (SearchKind, Schema, nat, Option<Binding>, seq<D>) -> D,
    other: (nat, Schema, seq<D>) -> D)

  function Run<D>(e: Engine<D>, p: Plan): D {
    match p
    case FlatMatch(schema, children) => (e.flat)(schema, RunAll(e, children))
    case Search(kind, schema, query, binding, children) => (e.search)(kind, schema, query, binding, RunAll(e, children))
    case Empty(schema, _) => (e.none)(schema)
    case Node(op, schema, children) => (e.other)(op, schema, RunAll(e, children))
  }

  function RunAll<D>(e: Engine<D>, s: seq<Plan>): seq<D> {
    if s == [] then [] else RunAll(e, s[..|s| - 1]) + [Run(e, s[|s| - 1])]
  }

  /** The engine that a prepared scan stands for: no flat search, and every indexed search over the
      selection with its scorer and mask, or over nothing. */
  function Scoped<D>(e: Engine<D>, x: Execution): Engine<D> {
    Engine(
      e.none,
      (schema, _) => (e.none)(schema),
      (kind, schema, query, _, inputs) =>
        if x.hasCurrent then (e.search)(kind, schema, query, Some(x.binding), inputs) else (e.none)(schema),
      e.other)
  }

  /** Running the rewritten tree is running the planned tree on the scoped engine. */
  lemma {:induction false} RewritePreservesMeaning<D>(e: Engine<D>, x: Execution, p: Plan)
    ensures Run(e, Expected(x, p)) == Run(Scoped(e, x), p)
    decreases p, |p.children| + 1
  {
    match p
    case FlatMatch(_, _) =>
    case Empty(_, _) =>
    case Search(_, _, _, _, children) => ForestKeepsMeaning(e, x, p, children);
    case Node(_, _, children) => ForestKeepsMeaning(e, x, p, children);
  }

  lemma {:induction false} ForestKeepsMeaning<D>(e: Engine<D>, x: Execution, p: Plan, s: seq<Plan>)
    requires forall c | c in s :: c in p.children
    ensures RunAll(e, ExpectedAll(x, s)) == RunAll(Scoped(e, x), s)
    decreases p, |s|
  {
    if s != [] {
      var k := |s| - 1;
      ForestKeepsMeaning(e, x, p, s[..k]);
      assert s[k] in p.children;
      RewritePreservesMeaning(e, x, s[k]);
      assert ExpectedAll(x, s)[..k] == ExpectedAll(x, s[..k]);
    }
  }

  // ---------------------------------------------------------------------------
  // The shape that is accepted
  // ---------------------------------------------------------------------------

  /** The rewritten plan, if the counts are those of one prepared query. */
  method PreparePlan(x: Execution, p: Plan) returns (r: Result<Plan, PlanError>)
    ensures r.Success? <==>
              var n := Visible(p);
              && (!x.hasCurrent || AllOfKind(x.kind, p))
              && n.indexed <= 1 && n.flat <= 1 && n.indexed + n.flat != 0 && (x.hasCurrent ==> n.indexed == 1)
    ensures forall searches, flats | AreSearches(p, searches) && AreFlats(p, flats) ::
              r.Success? <==>
                && (!x.hasCurrent || AllOfKind(x.kind, p))
                && |searches| <= 1 && |flats| <= 1 && |searches| + |flats| != 0
                && (x.hasCurrent ==> |searches| == 1)
    ensures r.Success? ==> r.value == Expected(x, p)
  {
    forall searches, flats | AreSearches(p, searches) && AreFlats(p, flats)
      ensures Visible(p) == Counts(|searches|, |flats|)
    {
      CountsArePositions(p, searches, flats);
    }
    var rewritten := RewritePlan(x, p);
    if rewritten.Failure? { return Failure(rewritten.error); }
    var (plan, counts) := rewritten.value;
    if counts.indexed > 1 || counts.flat > 1 || counts.indexed + counts.flat == 0
      || (x.hasCurrent && counts.indexed != 1)
    {
      return Failure(UnexpectedPlan(counts));
    }
    return Success(plan);
  }

  lemma {:induction false} SearchesAfterRewrite(x: Execution, p: Plan)
    ensures Visible(Expected(x, p)) == Counts(if x.hasCurrent then Visible(p).indexed else 0, 0)
    decreases p, |p.children| + 1
  {
    if !p.FlatMatch? { SearchesAfterRewriteOfForest(x, p, p.children); }
  }

  lemma {:induction false} SearchesAfterRewriteOfForest(x: Execution, p: Plan, s: seq<Plan>)
    requires forall c | c in s :: c in p.children
    ensures VisibleAll(ExpectedAll(x, s)) == Counts(if x.hasCurrent then VisibleAll(s).indexed else 0, 0)
    decreases p, |s|
  {
    if s != [] {
      var k := |s| - 1;
      SearchesAfterRewriteOfForest(x, p, s[..k]);
      assert s[k] in p.children;
      SearchesAfterRewrite(x, s[k]);
      assert ExpectedAll(x, s)[..k] == ExpectedAll(x, s[..k]);
    }
  }

  /** An accepted plan runs exactly one search, on the selection, when that has current fragments,
      and none otherwise. */
  lemma AcceptedPlanSearchesOnce(x: Execution, p: Plan, searches: set<Path>, left: set<Path>)
    requires AreSearches(p, searches) && (x.hasCurrent ==> |searches| == 1)
    requires AreSearches(Expected(x, p), left)
    ensures |left| == if x.hasCurrent then 1 else 0
    ensures forall path | NodeAt(Expected(x, p), path).Some? ::
              !NodeAt(Expected(x, p), path).value.FlatMatch?
    ensures forall path | path in left :: NodeAt(Expected(x, p), path).value.binding == Some(x.binding)
  {
    SearchesAfterRewrite(x, p);
    RewriteKeepsTheTree(x, p);
    var _, flats := PositionsExist(p);
    CountsArePositions(p, searches, flats);
    var _, flatsLeft := PositionsExist(Expected(x, p));
    CountsArePositions(Expected(x, p), left, flatsLeft);
    forall path | NodeAt(Expected(x, p), path).Some?
      ensures NoFlatMatch(NodeAt(Expected(x, p), path).value) && Bound(x, NodeAt(Expected(x, p), path).value)
    {
      EverywhereBelow(x, Expected(x, p), path);
    }
  }

  lemma {:induction false} EverywhereBelow(x: Execution, p: Plan, path: Path)
    requires NoFlatMatch(p) && Bound(x, p) && NodeAt(p, path).Some?
    ensures NoFlatMatch(NodeAt(p, path).value) && Bound(x, NodeAt(p, path).value)
    decreases |path|
  {
    if path != [] {
      assert p.children[path[0]] in p.children;
      EverywhereBelow(x, p.children[path[0]], path[1..]);
    }
  }
}
