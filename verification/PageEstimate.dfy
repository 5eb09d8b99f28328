/** Estimating how many BTree pages an expression can touch, from the pages' minimum,
    maximum and null count (src/scalar_index_selection.rs). */
module PageEstimate {
  import opened Common
  import opened ScalarExpression

  const MAX_LOOKUP_PAGES: nat := 65_536
  const MAX_IN_VALUES: nat := 256
  const MAX_ESTIMATE_COMPARISONS: nat := 1_000_000

  datatype Page = Page(min: Scalar, max: Scalar, nulls: nat)

  /** One decoded lookup file. `None` is a page whose extrema cannot be read as scalars. */
  datatype Batch = Batch(columns: nat, nullsAreUInt32: bool, pages: seq<Option<Page>>)

  /** The sign of the difference, when the two scalars are comparable. */
  function Compare(a: Scalar, b: Scalar): Option<int> {
    if a.Value? && b.Value? && a.kind == b.kind then Some(a.number - b.number) else None
  }

  function Contains(page: Page, value: Scalar): Option<bool> {
    if value.Null? then Some(page.nulls != 0)
    else if page.min.Null? || page.max.Null? then Some(false)
    else
      match Compare(page.min, value)
      case None => None
      case Some(low) =>
        if low > 0 then Some(false)
        else match Compare(page.max, value) case None => None case Some(high) => Some(high >= 0)
  }

  function ContainsAny(page: Page, values: seq<Scalar>): Option<bool> {
    if values == [] then Some(false)
    else
      match Contains(page, values[0])
      case None => None
      case Some(true) => Some(true)
      case Some(false) => ContainsAny(page, values[1..])
  }

  function AboveLower(page: Page, start: Bound): Option<bool> {
    match start
    case Unbounded => Some(true)
    case Included(v) =>
      if v.Null? then None else (match Compare(page.max, v) case None => None case Some(c) => Some(c >= 0))
    case Excluded(v) =>
      if v.Null? then None else (match Compare(page.max, v) case None => None case Some(c) => Some(c > 0))
  }

  function BelowUpper(page: Page, end: Bound): Option<bool> {
    match end
    case Unbounded => Some(true)
    case Included(v) =>
      if v.Null? then None else (match Compare(page.min, v) case None => None case Some(c) => Some(c <= 0))
    case Excluded(v) =>
      if v.Null? then None else (match Compare(page.min, v) case None => None case Some(c) => Some(c < 0))
  }

  function Overlaps(page: Page, query: IndexQuery): Option<bool> {
    match query
    case Equals(value) => Contains(page, value)
    case IsNull => Some(page.nulls != 0)
    case IsIn(values) => if |values| <= MAX_IN_VALUES then ContainsAny(page, values) else None
    case Range(start, end) =>
      if page.min.Null? || page.max.Null? then Some(false)
      else
        (match (AboveLower(page, start), BelowUpper(page, end))
         case (Some(above), Some(below)) => Some(above && below)
         case _ => None)
    case Opaque(_) => None
  }

  function MatchesPage(e: Expr, page: Page): Option<bool> {
    match e
    case Query(search) => Overlaps(page, search.query)
    case And(lhs, rhs) =>
      (match MatchesPage(lhs, page)
       case None => None
       case Some(false) => Some(false)
       case Some(true) => MatchesPage(rhs, page))
    case Or(lhs, rhs) =>
      (match MatchesPage(lhs, page)
       case None => None
       case Some(true) => Some(true)
       case Some(false) => MatchesPage(rhs, page))
    case Not(_) => None
  }

  function ComparisonsPerPage(e: Expr): Option<nat> {
    match e
    case Query(search) =>
      (match search.query
       case IsIn(values) => if |values| <= MAX_IN_VALUES then Some(Max(|values|, 1)) else None
       case Opaque(_) => None
       case _ => Some(1))
    case And(lhs, rhs) =>
      (match (ComparisonsPerPage(lhs), ComparisonsPerPage(rhs))
       case (Some(l), Some(r)) => CheckedAdd(l, r)
       case _ => None)
    case Or(lhs, rhs) =>
      (match (ComparisonsPerPage(lhs), ComparisonsPerPage(rhs))
       case (Some(l), Some(r)) => CheckedAdd(l, r)
       case _ => None)
    case Not(_) => None
  }

  /** The number of pages that may match, unless some page is undecided. */
  function CountMatching(pages: seq<Option<Page>>, e: Expr): Option<nat> {
    if pages == [] then Some(0)
    else if pages[0].None? then None
    else
      match (MatchesPage(e, pages[0].value), CountMatching(pages[1..], e))
      case (Some(hit), Some(n)) => Some((if hit then 1 else 0) + n)
      case _ => None
  }

  predicate WithinWorkLimit(pages: nat, e: Expr) {
    match ComparisonsPerPage(e)
    case None => false
    case Some(c) => CheckedMul(pages, c).Some? && pages * c <= MAX_ESTIMATE_COMPARISONS
  }

  function EstimatedPages(batch: Batch, e: Expr): Option<nat> {
    if batch.columns < 3 || |batch.pages| > MAX_LOOKUP_PAGES then None
    else if !WithinWorkLimit(|batch.pages|, e) then None
    else if !batch.nullsAreUInt32 then None
    else CountMatching(batch.pages, e)
  }

  lemma EstimateMeans(batch: Batch, e: Expr)
    ensures EstimatedPages(batch, e).Some? <==>
              && batch.columns >= 3 && |batch.pages| <= 65_536 && batch.nullsAreUInt32
              && ComparisonsPerPage(e).Some? && |batch.pages| * ComparisonsPerPage(e).value <= 1_000_000
              && forall i | 0 <= i < |batch.pages| :: IsDecided(batch.pages, e, i)
    ensures EstimatedPages(batch, e).Some? ==> exists matching, at ::
              && Picks(batch.pages, matching, at) && |at| == EstimatedPages(batch, e).value
              && forall i | 0 <= i < |batch.pages| :: i in at <==> Matches(batch.pages, e, i)
  {
    if CountMatching(batch.pages, e).Some? {
      forall i | 0 <= i < |batch.pages| ensures IsDecided(batch.pages, e, i) { DecidedWhenCounted(batch.pages, e, i); }
      var matching, at := CountIsTheNumber(batch.pages, e);
    } else if forall i | 0 <= i < |batch.pages| :: IsDecided(batch.pages, e, i) {
      CountedWhenDecided(batch.pages, e);
      assert false;
    }
  }

  /** The counting loop, with its early returns. */
  method EstimatePages(batch: Batch, e: Expr) returns (r: Option<nat>)
    ensures r == EstimatedPages(batch, e)
    ensures r.Some? ==> r.value <= |batch.pages| <= MAX_LOOKUP_PAGES
    ensures r.Some? <==>
              && batch.columns >= 3 && |batch.pages| <= 65_536 && batch.nullsAreUInt32
              && ComparisonsPerPage(e).Some? && |batch.pages| * ComparisonsPerPage(e).value <= 1_000_000
              && forall i | 0 <= i < |batch.pages| :: IsDecided(batch.pages, e, i)
    ensures r.Some? ==> exists matching, at ::
              && Picks(batch.pages, matching, at) && |at| == r.value
              && forall i | 0 <= i < |batch.pages| :: i in at <==> Matches(batch.pages, e, i)
  {
    EstimateMeans(batch, e);
    if batch.columns < 3 || |batch.pages| > MAX_LOOKUP_PAGES { return None; }
    if !WithinWorkLimit(|batch.pages|, e) { return None; }
    if !batch.nullsAreUInt32 { return None; }
    var pages, row := 0, 0;
    while row < |batch.pages|
      invariant 0 <= row <= |batch.pages| && pages <= row
      invariant CountMatching(batch.pages, e) ==
                match CountMatching(batch.pages[row..], e) case Some(n) => Some(pages + n) case None => None
    {
      assert batch.pages[row..][1..] == batch.pages[row + 1..];
      if batch.pages[row].None? { return None; }
      match MatchesPage(e, batch.pages[row].value) {
        case None => return None;
        case Some(hit) => pages := pages + if hit then 1 else 0;
      }
      row := row + 1;
    }
    return Some(pages);
  }

  // ---------------------------------------------------------------------------
  // What the rows of a page give
  // ---------------------------------------------------------------------------

  function EqualsTruth(value: Scalar, key: Scalar): Truth {
    if value.Null? then (if key.Null? then True else False)
    else if key.Null? || key.kind != value.kind then Unknown
    else if key.number == value.number then True else False
  }

  function IsInTruth(values: seq<Scalar>, key: Scalar): Truth {
    if values == [] then False else KleeneOr(EqualsTruth(values[0], key), IsInTruth(values[1..], key))
  }

  function BoundTruth(bound: Bound, key: Scalar, lower: bool): Truth {
    if bound.Unbounded? then True
    else if key.Null? || bound.value.Null? || key.kind != bound.value.kind then Unknown
    else
      var difference := if lower then key.number - bound.value.number else bound.value.number - key.number;
      if difference > 0 || (difference == 0 && bound.Included?) then True else False
  }

  /** A range never selects a null key, even when it has no bound. */
  function RangeTruth(start: Bound, end: Bound, key: Scalar): Truth {
    if key.Null? then Unknown else KleeneAnd(BoundTruth(start, key, true), BoundTruth(end, key, false))
  }

  /** A bound on comparable values: an included one admits its own value. */
  lemma BoundsMean(value: Scalar, key: Scalar)
    requires value.Value? && key.Value? && value.kind == key.kind
    ensures BoundTruth(Included(value), key, true) == (if key.number >= value.number then True else False)
    ensures BoundTruth(Excluded(value), key, true) == (if key.number > value.number then True else False)
    ensures BoundTruth(Included(value), key, false) == (if key.number <= value.number then True else False)
    ensures BoundTruth(Excluded(value), key, false) == (if key.number < value.number then True else False)
    ensures BoundTruth(Unbounded, key, true) == BoundTruth(Unbounded, key, false) == True
  {
  }

  /** A range selects the keys within both bounds, and no null. */
  lemma RangeMeans(start: Bound, end: Bound, key: Scalar)
    ensures RangeTruth(start, end, key) == True <==>
            key.Value? && BoundTruth(start, key, true) == True && BoundTruth(end, key, false) == True
  {
  }

  /** How queries outside the cost model answer. */
  type Oracle = (nat, Scalar) -> Truth

  function QueryTruth(query: IndexQuery, key: Scalar, oracle: Oracle): Truth {
    match query
    case Equals(value) => EqualsTruth(value, key)
    case IsNull => if key.Null? then True else False
    case IsIn(values) => IsInTruth(values, key)
    case Range(start, end) => RangeTruth(start, end, key)
    case Opaque(id) => oracle(id, key)
  }

  /** All leaves of a restricted expression look at the one key of a row. */
  function KeyRow(key: Scalar, oracle: Oracle): Valuation {
    (search: Search) => QueryTruth(search.query, key, oracle)
  }

  /** The statistics are right about every row of the page. */
  predicate StatisticsHold(page: Page, rows: seq<Scalar>) {
    forall key | key in rows ::
      if key.Null? then page.nulls > 0
      else
        && page.min.Value? && page.max.Value?
        && page.min.kind == key.kind == page.max.kind
        && page.min.number <= key.number <= page.max.number
  }

  lemma {:induction false} IsInNotMissed(page: Page, values: seq<Scalar>, key: Scalar)
    requires StatisticsHold(page, [key])
    requires IsInTruth(values, key) == True
    ensures ContainsAny(page, values).Some? ==> ContainsAny(page, values).value
  {
    assert key in [key];
    if EqualsTruth(values[0], key) != True {
      IsInNotMissed(page, values[1..], key);
    }
  }

  /** A page is never ruled out while it holds a row the expression selects: the
      short-circuits of AND and OR skip only what cannot change the answer. */
  lemma {:induction false} PageNotMissed(e: Expr, page: Page, key: Scalar, oracle: Oracle)
    requires StatisticsHold(page, [key])
    requires Eval(e, KeyRow(key, oracle)) == True
    ensures MatchesPage(e, page).Some? ==> MatchesPage(e, page).value
  {
    assert key in [key];
    match e
    case Query(search) =>
      if search.query.IsIn? && |search.query.values| <= MAX_IN_VALUES {
        IsInNotMissed(page, search.query.values, key);
      }
    case And(lhs, rhs) =>
      PageNotMissed(lhs, page, key, oracle);
      PageNotMissed(rhs, page, key, oracle);
    case Or(lhs, rhs) =>
      if Eval(lhs, KeyRow(key, oracle)) == True {
        PageNotMissed(lhs, page, key, oracle);
      } else {
        PageNotMissed(rhs, page, key, oracle);
      }
    case Not(_) =>
  }

  function MatchingRows(rows: seq<Scalar>, e: Expr, oracle: Oracle): nat {
    if rows == [] then 0
    else (if Eval(e, KeyRow(rows[0], oracle)) == True then 1 else 0) + MatchingRows(rows[1..], e, oracle)
  }

  function TotalMatching(contents: seq<seq<Scalar>>, e: Expr, oracle: Oracle): nat {
    if contents == [] then 0 else MatchingRows(contents[0], e, oracle) + TotalMatching(contents[1..], e, oracle)
  }

  /** `contents` are the keys stored in the pages of the file. */
  predicate Describes(pages: seq<Option<Page>>, contents: seq<seq<Scalar>>, rowsPerPage: nat) {
    && |pages| == |contents|
    && forall i | 0 <= i < |pages| ::
         |contents[i]| <= rowsPerPage && (pages[i].Some? ==> StatisticsHold(pages[i].value, contents[i]))
  }

  lemma {:induction false} MatchingRowsOfPage(page: Page, rows: seq<Scalar>, e: Expr, oracle: Oracle)
    requires StatisticsHold(page, rows)
    ensures MatchingRows(rows, e, oracle) <= |rows|
    ensures MatchesPage(e, page) == Some(false) ==> MatchingRows(rows, e, oracle) == 0
  {
    if rows != [] {
      forall key | key in rows[1..] ensures key in rows {}
      MatchingRowsOfPage(page, rows[1..], e, oracle);
      if Eval(e, KeyRow(rows[0], oracle)) == True {
        assert StatisticsHold(page, [rows[0]]) by { assert rows[0] in rows; }
        PageNotMissed(e, page, rows[0], oracle);
      }
    }
  }

  lemma OnePageMore(pages: nat, rowsPerPage: nat)
    ensures (1 + pages) * rowsPerPage == rowsPerPage + pages * rowsPerPage
  {
  }

  lemma {:induction false} CountBoundsRows(pages: seq<Option<Page>>, contents: seq<seq<Scalar>>, rowsPerPage: nat,
                                           e: Expr, oracle: Oracle)
    requires Describes(pages, contents, rowsPerPage)
    requires CountMatching(pages, e).Some?
    ensures TotalMatching(contents, e, oracle) <= CountMatching(pages, e).value * rowsPerPage
  {
    if pages != [] {
      CountBoundsRows(pages[1..], contents[1..], rowsPerPage, e, oracle);
      MatchingRowsOfPage(pages[0].value, contents[0], e, oracle);
      OnePageMore(CountMatching(pages[1..], e).value, rowsPerPage);
    }
  }

  function SaturatingMul(x: nat, y: nat): nat {
    Common.Min(x * y, U64_MAX)
  }

  lemma SaturatingBound(rows: nat, pages: nat, rowsPerPage: nat)
    requires rows <= pages * rowsPerPage
    ensures rows <= SaturatingMul(rowsPerPage, pages) <==> rows <= U64_MAX
  {
  }

  lemma {:induction false} DecidedWhenCounted(pages: seq<Option<Page>>, e: Expr, i: nat)
    requires CountMatching(pages, e).Some? && i < |pages|
    ensures pages[i].Some? && MatchesPage(e, pages[i].value).Some?
  {
    if i > 0 { DecidedWhenCounted(pages[1..], e, i - 1); }
  }

  /** Every page with a matching row is among the counted ones. */
  lemma MatchingPageIsCounted(pages: seq<Option<Page>>, contents: seq<seq<Scalar>>, rowsPerPage: nat,
                              e: Expr, oracle: Oracle, i: nat, key: Scalar)
    requires Describes(pages, contents, rowsPerPage)
    requires CountMatching(pages, e).Some?
    requires i < |contents| && key in contents[i] && Eval(e, KeyRow(key, oracle)) == True
    ensures pages[i].Some? && MatchesPage(e, pages[i].value).Some? && MatchesPage(e, pages[i].value).value
  {
    DecidedWhenCounted(pages, e, i);
    PageNotMissed(e, pages[i].value, key, oracle);
  }

  /** The row cost of the counted pages is an upper bound on the matching rows. The product
      saturates, so it stays one precisely as long as the number of matching rows is a `u64`. */
  lemma CostIsUpperBound(batch: Batch, contents: seq<seq<Scalar>>, rowsPerPage: nat, e: Expr, oracle: Oracle)
    requires Describes(batch.pages, contents, rowsPerPage)
    requires EstimatedPages(batch, e).Some?
    ensures var cost := SaturatingMul(rowsPerPage, EstimatedPages(batch, e).value);
            var rows := TotalMatching(contents, e, oracle);
            rows <= cost <==> rows <= U64_MAX
  {
    CountBoundsRows(batch.pages, contents, rowsPerPage, e, oracle);
    SaturatingBound(TotalMatching(contents, e, oracle), EstimatedPages(batch, e).value, rowsPerPage);
  }

  // ---------------------------------------------------------------------------
  // No page is counted without a reason
  // ---------------------------------------------------------------------------

  /** The page may hold this key, by its statistics. */
  predicate IsPossible(page: Page, key: Scalar) {
    if key.Null? then page.nulls > 0
    else
      && page.min.Value? && page.max.Value? && page.min.kind == key.kind == page.max.kind
      && page.min.number <= key.number <= page.max.number
  }

  /** The extrema of some keys, or none. */
  predicate HasExtrema(page: Page) {
    page.min.Value? && page.max.Value? ==> page.min.kind == page.max.kind && page.min.number <= page.max.number
  }

  /** Some possible key satisfies the query; for a range, some key each of its bounds. */
  ghost predicate CanHold(page: Page, query: IndexQuery) {
    match query
    case Equals(value) => exists key :: IsPossible(page, key) && EqualsTruth(value, key) == True
    case IsNull => exists key :: IsPossible(page, key) && key == Null
    case IsIn(values) => exists key :: IsPossible(page, key) && IsInTruth(values, key) == True
    case Range(start, end) =>
      && (exists key :: IsPossible(page, key) && key.Value? && BoundTruth(start, key, true) == True)
      && (exists key :: IsPossible(page, key) && key.Value? && BoundTruth(end, key, false) == True)
    case Opaque(_) => false
  }

  lemma ContainsIsTight(page: Page, value: Scalar)
    requires HasExtrema(page) && Contains(page, value).Some?
    ensures Contains(page, value).value <==> IsPossible(page, value)
  {
  }

  lemma EqualIsTheSame(value: Scalar, key: Scalar)
    ensures EqualsTruth(value, key) == True <==> key == value
  {
  }

  lemma {:induction false} InMeansMember(values: seq<Scalar>, key: Scalar)
    ensures IsInTruth(values, key) == True <==> key in values
  {
    if values != [] {
      EqualIsTheSame(values[0], key);
      InMeansMember(values[1..], key);
      assert values == [values[0]] + values[1..];
    }
  }

  lemma {:induction false} ContainsAnyIsTight(page: Page, values: seq<Scalar>)
    requires HasExtrema(page) && ContainsAny(page, values).Some?
    ensures ContainsAny(page, values).value <==> exists v | v in values :: IsPossible(page, v)
  {
    if values != [] {
      ContainsIsTight(page, values[0]);
      assert values == [values[0]] + values[1..];
      assert values[0] in values;
      if Contains(page, values[0]) == Some(false) { ContainsAnyIsTight(page, values[1..]); }
    }
  }

  lemma BoundsAreTight(page: Page, start: Bound, end: Bound)
    requires HasExtrema(page) && page.min.Value? && page.max.Value?
    ensures AboveLower(page, start).Some? ==>
              (AboveLower(page, start).value <==>
                 exists key :: IsPossible(page, key) && key.Value? && BoundTruth(start, key, true) == True)
    ensures BelowUpper(page, end).Some? ==>
              (BelowUpper(page, end).value <==>
                 exists key :: IsPossible(page, key) && key.Value? && BoundTruth(end, key, false) == True)
  {
    assert IsPossible(page, page.min) && IsPossible(page, page.max);
  }

  /** A decided answer is exact: the page overlaps the query if and only if it can hold a match. */
  lemma OverlapsIsTight(page: Page, query: IndexQuery)
    requires HasExtrema(page) && Overlaps(page, query).Some?
    ensures Overlaps(page, query).value <==> CanHold(page, query)
  {
    match query
    case Equals(value) =>
      ContainsIsTight(page, value);
      EqualIsTheSame(value, value);
      forall key | EqualsTruth(value, key) == True ensures key == value { EqualIsTheSame(value, key); }
    case IsNull => assert IsPossible(page, Null) <==> page.nulls > 0;
    case IsIn(values) =>
      ContainsAnyIsTight(page, values);
      forall key ensures IsInTruth(values, key) == True <==> key in values { InMeansMember(values, key); }
    case Range(start, end) => if page.min.Value? && page.max.Value? { BoundsAreTight(page, start, end); }
    case Opaque(_) =>
  }

  predicate IsComparable(page: Page, value: Scalar) {
    page.min.Value? && page.max.Value? && value.Value? ==> page.min.kind == value.kind == page.max.kind
  }

  predicate IsBoundOn(page: Page, bound: Bound) {
    bound.Unbounded? || (bound.value.Value? && IsComparable(page, bound.value))
  }

  /** The queries that the statistics can decide. */
  predicate IsDecidable(page: Page, query: IndexQuery) {
    match query
    case Equals(value) => IsComparable(page, value)
    case IsNull => true
    case IsIn(values) => |values| <= 256 && forall v | v in values :: IsComparable(page, v)
    case Range(start, end) => page.min.Null? || page.max.Null? || (IsBoundOn(page, start) && IsBoundOn(page, end))
    case Opaque(_) => false
  }

  lemma {:induction false} ContainsAnyDecides(page: Page, values: seq<Scalar>)
    requires forall v | v in values :: IsComparable(page, v)
    ensures ContainsAny(page, values).Some?
  {
    if values != [] {
      assert values[0] in values;
      ContainsAnyDecides(page, values[1..]);
    }
  }

  lemma DecidableIsDecided(page: Page, query: IndexQuery)
    requires IsDecidable(page, query)
    ensures Overlaps(page, query).Some?
  {
    if query.IsIn? { ContainsAnyDecides(page, query.values); }
  }

  /** What the statistics say of each leaf. */
  function PageRow(page: Page): Valuation {
    (search: Search) =>
      match Overlaps(page, search.query) case None => Unknown case Some(true) => True case Some(false) => False
  }

  /** A decided page has the Kleene value of its leaves; it is decided if there is no NOT and every leaf
      is. */
  lemma {:induction false} MatchesPageIsKleene(e: Expr, page: Page)
    ensures MatchesPage(e, page) == Some(true) ==> Eval(e, PageRow(page)) == True
    ensures MatchesPage(e, page) == Some(false) ==> Eval(e, PageRow(page)) == False
    ensures IsMonotone(e) && (forall s | s in Leaves(e) :: Overlaps(page, s.query).Some?) ==> MatchesPage(e, page).Some?
  {
    match e
    case Query(search) => assert search in Leaves(e);
    case And(lhs, rhs) => MatchesPageIsKleene(lhs, page); MatchesPageIsKleene(rhs, page);
    case Or(lhs, rhs) => MatchesPageIsKleene(lhs, page); MatchesPageIsKleene(rhs, page);
    case Not(_) =>
  }

  predicate IsMonotone(e: Expr) {
    match e
    case Query(_) => true
    case And(lhs, rhs) => IsMonotone(lhs) && IsMonotone(rhs)
    case Or(lhs, rhs) => IsMonotone(lhs) && IsMonotone(rhs)
    case Not(_) => false
  }

  predicate Matches(pages: seq<Option<Page>>, e: Expr, i: int) {
    0 <= i < |pages| && pages[i].Some? && MatchesPage(e, pages[i].value) == Some(true)
  }

  predicate IsDecided(pages: seq<Option<Page>>, e: Expr, i: int)
    requires 0 <= i < |pages|
  {
    pages[i].Some? && MatchesPage(e, pages[i].value).Some?
  }

  lemma {:induction false} CountedWhenDecided(pages: seq<Option<Page>>, e: Expr)
    requires forall i | 0 <= i < |pages| :: IsDecided(pages, e, i)
    ensures CountMatching(pages, e).Some?
  {
    if pages != [] {
      assert IsDecided(pages, e, 0);
      forall i | 0 <= i < |pages[1..]| ensures IsDecided(pages[1..], e, i) { assert IsDecided(pages, e, i + 1); }
      CountedWhenDecided(pages[1..], e);
    }
  }

  /** The count is the number of pages that match: `at` are their positions, in order. */
  lemma {:induction false} CountIsTheNumber(pages: seq<Option<Page>>, e: Expr)
    returns (matching: seq<Option<Page>>, at: seq<int>)
    requires CountMatching(pages, e).Some?
    ensures Picks(pages, matching, at) && |at| == CountMatching(pages, e).value
    ensures forall i | 0 <= i < |pages| :: i in at <==> Matches(pages, e, i)
  {
    if pages == [] {
      matching, at := [], [];
    } else {
      var rest := pages[1..];
      var some, later := CountIsTheNumber(rest, e);
      var hit := Matches(pages, e, 0);
      at := PicksHead(pages[0], rest, some, later, hit);
      matching := (if hit then [pages[0]] else []) + some;
      assert pages == [pages[0]] + rest;
      forall i | 0 <= i < |pages| ensures i in at <==> Matches(pages, e, i) {
        if i > 0 {
          assert rest[i - 1] == pages[i] && (i - 1 in later <==> i - 1 + 1 in at);
          assert Matches(rest, e, i - 1) <==> Matches(pages, e, i);
        }
      }
    }
  }

  // ---------------------------------------------------------------------------
  // Bounded work
  // ---------------------------------------------------------------------------

  function MembershipChecks(page: Page, values: seq<Scalar>): nat {
    if values == [] then 0
    else 1 + if Contains(page, values[0]) == Some(false) then MembershipChecks(page, values[1..]) else 0
  }

  /** The predicate checks that deciding one page makes, with its short-circuits. */
  function Checks(e: Expr, page: Page): nat {
    match e
    case Query(search) =>
      if search.query.IsIn? then
        (if |search.query.values| <= MAX_IN_VALUES then MembershipChecks(page, search.query.values) else 0)
      else 1
    case And(lhs, rhs) => Checks(lhs, page) + if MatchesPage(lhs, page) == Some(true) then Checks(rhs, page) else 0
    case Or(lhs, rhs) => Checks(lhs, page) + if MatchesPage(lhs, page) == Some(false) then Checks(rhs, page) else 0
    case Not(_) => 0
  }

  function TotalChecks(pages: seq<Option<Page>>, e: Expr): nat {
    if pages == [] || pages[0].None? then 0
    else
      Checks(e, pages[0].value) +
      if MatchesPage(e, pages[0].value).None? then 0 else TotalChecks(pages[1..], e)
  }

  function LeafList(e: Expr): seq<Search> {
    match e
    case Query(search) => [search]
    case And(lhs, rhs) => LeafList(lhs) + LeafList(rhs)
    case Or(lhs, rhs) => LeafList(lhs) + LeafList(rhs)
    case Not(inner) => LeafList(inner)
  }

  predicate IsCosted(query: IndexQuery) {
    match query case IsIn(values) => |values| <= 256 case Opaque(_) => false case _ => true
  }

  function LeafCost(query: IndexQuery): nat {
    if query.IsIn? && |query.values| > 0 then |query.values| else 1
  }

  function TotalCost(leaves: seq<Search>): nat {
    if leaves == [] then 0 else LeafCost(leaves[0].query) + TotalCost(leaves[1..])
  }

  lemma {:induction false} TotalOfConcat(a: seq<Search>, b: seq<Search>)
    ensures TotalCost(a + b) == TotalCost(a) + TotalCost(b)
  {
    if a == [] {
      assert a + b == b;
    } else {
      assert (a + b)[1..] == a[1..] + b;
      TotalOfConcat(a[1..], b);
    }
  }

  /** The work per page is one check a leaf, or one a member of its list. */
  lemma {:induction false} ComparisonsAreExact(e: Expr)
    ensures ComparisonsPerPage(e).Some? <==>
            && IsMonotone(e) && (forall s | s in LeafList(e) :: IsCosted(s.query)) && TotalCost(LeafList(e)) <= U64_MAX
    ensures ComparisonsPerPage(e).Some? ==> ComparisonsPerPage(e).value == TotalCost(LeafList(e))
  {
    match e
    case Query(search) => assert LeafList(e)[1..] == [] && search in LeafList(e);
    case And(lhs, rhs) =>
      ComparisonsAreExact(lhs);
      ComparisonsAreExact(rhs);
      TotalOfConcat(LeafList(lhs), LeafList(rhs));
    case Or(lhs, rhs) =>
      ComparisonsAreExact(lhs);
      ComparisonsAreExact(rhs);
      TotalOfConcat(LeafList(lhs), LeafList(rhs));
    case Not(_) =>
  }

  lemma {:induction false} MembershipChecksBounded(page: Page, values: seq<Scalar>)
    ensures MembershipChecks(page, values) <= |values|
  {
    if values != [] { MembershipChecksBounded(page, values[1..]); }
  }

  lemma {:induction false} ChecksBounded(e: Expr, page: Page)
    requires ComparisonsPerPage(e).Some?
    ensures Checks(e, page) <= ComparisonsPerPage(e).value
  {
    match e
    case Query(search) =>
      if search.query.IsIn? { MembershipChecksBounded(page, search.query.values); }
    case And(lhs, rhs) => ChecksBounded(lhs, page); ChecksBounded(rhs, page);
    case Or(lhs, rhs) => ChecksBounded(lhs, page); ChecksBounded(rhs, page);
    case Not(_) =>
  }

  lemma {:induction false} TotalChecksBounded(pages: seq<Option<Page>>, e: Expr)
    requires ComparisonsPerPage(e).Some?
    ensures TotalChecks(pages, e) <= |pages| * ComparisonsPerPage(e).value
  {
    if pages != [] && pages[0].Some? {
      var c := ComparisonsPerPage(e).value;
      ChecksBounded(e, pages[0].value);
      TotalChecksBounded(pages[1..], e);
      assert |pages| * c == c + (|pages| - 1) * c;
    }
  }

  /** No estimate makes more than a million predicate checks. */
  lemma EstimateWorkBounded(batch: Batch, e: Expr)
    requires WithinWorkLimit(|batch.pages|, e)
    ensures TotalChecks(batch.pages, e) <= 1_000_000
  {
    TotalChecksBounded(batch.pages, e);
  }
}
