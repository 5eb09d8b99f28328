/** Multi-vector scoring (src/multivector.rs): the scores of one batch of index candidates, and
    the exact distance of one row. A distance is its position in the total order of distances;
    addition is only assumed to commute, so every result holds for the evaluation order of the
    code and not only up to rounding. */
module MultiVector {
  import opened Common

  /** The accumulator `S` (a double) and the output `R` (a single). */
  datatype Arithmetic<!S, !R> = Arithmetic(
    zero: S, add: (S, S) -> S, lift: int -> S, narrow: S -> R, isFinite: R -> bool)

  ghost predicate Commutes<S(!new), R>(ar: Arithmetic<S, R>) {
    forall x, y :: ar.add(x, y) == ar.add(y, x)
  }

  datatype Error =
    | NoRowIds | NoDistances | InvalidCandidate | InputFailed(code: nat)
    | TypeMismatch | StoredNotFinite | DistanceNotFinite | UnsupportedElement
    | NoVectorColumn | NotFixedSizeList | MissingOutputColumn(name: string)

  // ---------------------------------------------------------------------------
  // Candidates of one query vector
  // ---------------------------------------------------------------------------

  datatype Float = Finite(position: int) | NonFinite

  datatype Row = Row(id: Option<nat>, distance: Option<Float>)

  datatype Batch = Batch(hasRowIds: bool, hasDistances: bool, rows: seq<Row>)

  /** What the child plan of one query vector yields, in order. */
  type Stream = seq<Result<Batch, Error>>

  datatype Candidate = Candidate(id: nat, distance: int)

  predicate IsCandidate(row: Row) {
    row.id.Some? && row.distance.Some? && row.distance.value.Finite?
  }

  function ToCandidate(row: Row): Candidate
    requires IsCandidate(row)
  {
    Candidate(row.id.value, row.distance.value.position)
  }

  function ItemFault(item: Result<Batch, Error>): Option<Error> {
    if item.Failure? then Some(item.error)
    else if !item.value.hasRowIds then Some(NoRowIds)
    else if !item.value.hasDistances then Some(NoDistances)
    else if forall row | row in item.value.rows :: IsCandidate(row) then None
    else Some(InvalidCandidate)
  }

  /** Each fault says what is wrong, the failure of the input before the columns and these before the
      rows. */
  lemma FaultsAre(item: Result<Batch, Error>)
    ensures ItemFault(item) == None <==>
            && item.Success? && item.value.hasRowIds && item.value.hasDistances
            && forall row | row in item.value.rows ::
                 row.id.Some? && row.distance.Some? && row.distance.value.Finite?
    ensures item.Failure? ==> ItemFault(item) == Some(item.error)
    ensures item.Success? && !item.value.hasRowIds ==> ItemFault(item) == Some(NoRowIds)
    ensures item.Success? && item.value.hasRowIds && !item.value.hasDistances ==> ItemFault(item) == Some(NoDistances)
    ensures item.Success? && item.value.hasRowIds && item.value.hasDistances ==>
              ItemFault(item) == None || ItemFault(item) == Some(InvalidCandidate)
  {
  }

  predicate WellFormed(stream: Stream) {
    forall item | item in stream :: ItemFault(item) == None
  }

  /** The error of the first faulty item. */
  predicate IsFirstFault(stream: Stream, e: Error) {
    exists k | 0 <= k < |stream| :: ItemFault(stream[k]) == Some(e) && WellFormed(stream[..k])
  }

  function RowCandidates(rows: seq<Row>): (r: seq<Candidate>)
    requires forall row | row in rows :: IsCandidate(row)
    ensures |r| == |rows|
  {
    seq(|rows|, i requires 0 <= i < |rows| => ToCandidate(rows[i]))
  }

  function Candidates(stream: Stream): seq<Candidate>
    requires WellFormed(stream)
  {
    if stream == [] then []
    else
      var last := stream[|stream| - 1];
      assert ItemFault(last) == None;
      Candidates(stream[..|stream| - 1]) + RowCandidates(last.value.rows)
  }

  predicate OffersIn(item: Result<Batch, Error>, x: Candidate) {
    item.Success? && Row(Some(x.id), Some(Finite(x.distance))) in item.value.rows
  }

  /** The stream holds the candidate, in whichever batch and place. */
  predicate Offers(stream: Stream, x: Candidate) {
    exists item | item in stream :: OffersIn(item, x)
  }

  lemma RowsOffer(item: Result<Batch, Error>, x: Candidate)
    requires ItemFault(item) == None
    ensures x in RowCandidates(item.value.rows) <==> OffersIn(item, x)
  {
    var rows := item.value.rows;
    var c := RowCandidates(rows);
    if OffersIn(item, x) {
      var i :| 0 <= i < |rows| && rows[i] == Row(Some(x.id), Some(Finite(x.distance)));
      assert c[i] == x;
    }
    if x in c {
      var i :| 0 <= i < |c| && c[i] == x;
      assert rows[i] in rows && ToCandidate(rows[i]) == x;
    }
  }

  /** The candidates of a stream are what its batches offer: cutting the stream into batches
      differently, or reordering it, changes nothing but the order. */
  lemma {:induction false} CandidatesAreOffered(stream: Stream, x: Candidate)
    requires WellFormed(stream)
    ensures x in Candidates(stream) <==> Offers(stream, x)
  {
    if stream != [] {
      var last := stream[|stream| - 1];
      var rest := stream[..|stream| - 1];
      CandidatesAreOffered(rest, x);
      RowsOffer(last, x);
      assert stream == rest + [last];
      assert last in stream && forall item | item in rest :: item in stream;
    }
  }

  function Nearest(c: seq<Candidate>, id: nat): Option<int> {
    if c == [] then None
    else
      var last := c[|c| - 1];
      var before := Nearest(c[..|c| - 1], id);
      if last.id != id then before
      else if before.None? then Some(last.distance)
      else Some(Min(before.value, last.distance))
  }

  function Farthest(c: seq<Candidate>): Option<int> {
    if c == [] then None
    else
      var last := c[|c| - 1];
      var before := Farthest(c[..|c| - 1]);
      if before.None? then Some(last.distance) else Some(Max(before.value, last.distance))
  }

  lemma {:induction false} NearestIsTheMinimum(c: seq<Candidate>, id: nat)
    ensures Nearest(c, id).None? <==> forall x | x in c :: x.id != id
    ensures Nearest(c, id).Some? ==>
              && Candidate(id, Nearest(c, id).value) in c
              && forall x | x in c && x.id == id :: Nearest(c, id).value <= x.distance
  {
    if c != [] {
      var rest := c[..|c| - 1];
      NearestIsTheMinimum(rest, id);
      assert c == rest + [c[|c| - 1]];
    }
  }

  lemma {:induction false} FarthestIsTheMaximum(c: seq<Candidate>)
    ensures Farthest(c).None? <==> c == []
    ensures Farthest(c).Some? ==>
              && (exists x :: x in c && x.distance == Farthest(c).value)
              && forall x | x in c :: x.distance <= Farthest(c).value
  {
    if c != [] {
      var last := c[|c| - 1];
      var rest := c[..|c| - 1];
      FarthestIsTheMaximum(rest);
      assert c == rest + [last];
      assert last in c;
      if rest != [] {
        var x :| x in rest && x.distance == Farthest(rest).value;
        assert x in c;
      }
    }
  }

  /** What a query adds to the rows it did not find; `one` is the position of 1.0. */
  function Penalty(c: seq<Candidate>, one: int): int {
    if Farthest(c).Some? then Farthest(c).value else one
  }

  function Contribution(c: seq<Candidate>, one: int, id: nat): int {
    if Nearest(c, id).Some? then Nearest(c, id).value else Penalty(c, one)
  }

  /** A query's contribution depends only on the set of its candidates. */
  lemma ContributionIgnoresOrder(c: seq<Candidate>, d: seq<Candidate>, one: int, id: nat)
    requires forall x :: x in c <==> x in d
    ensures Contribution(c, one, id) == Contribution(d, one, id)
  {
    NearestIsTheMinimum(c, id);
    NearestIsTheMinimum(d, id);
    FarthestIsTheMaximum(c);
    FarthestIsTheMaximum(d);
    assert c == [] || c[0] in d;
    assert d == [] || d[0] in c;
  }

  // ---------------------------------------------------------------------------
  // Sums in the order of evaluation
  // ---------------------------------------------------------------------------

  /** `total` is reached from zero by adding the terms one after the other, each on the right. */
  ghost predicate IsLeftSum<S(!new), R>(ar: Arithmetic<S, R>, terms: seq<int>, total: S) {
    exists partial: seq<S> | |partial| == |terms| + 1 ::
      && partial[0] == ar.zero && partial[|terms|] == total
      && forall k | 0 <= k < |terms| :: partial[k + 1] == (ar.add)(partial[k], (ar.lift)(terms[k]))
  }

  lemma LeftSumOfNothing<S(!new), R>(ar: Arithmetic<S, R>)
    ensures IsLeftSum(ar, [], ar.zero)
  {
    assert [ar.zero][0] == ar.zero;
  }

  lemma LeftSumOfMore<S(!new), R>(ar: Arithmetic<S, R>, terms: seq<int>, total: S, term: int)
    requires IsLeftSum(ar, terms, total)
    ensures IsLeftSum(ar, terms + [term], (ar.add)(total, (ar.lift)(term)))
  {
    var partial: seq<S> :| |partial| == |terms| + 1 && partial[0] == ar.zero && partial[|terms|] == total
      && forall k | 0 <= k < |terms| :: partial[k + 1] == (ar.add)(partial[k], (ar.lift)(terms[k]));
    var more := partial + [(ar.add)(total, (ar.lift)(term))];
    var all := terms + [term];
    assert more[0] == ar.zero && more[|all|] == (ar.add)(total, (ar.lift)(term));
    forall k | 0 <= k < |all| ensures more[k + 1] == (ar.add)(more[k], (ar.lift)(all[k])) {
      if k < |terms| { assert more[k + 1] == partial[k + 1] && more[k] == partial[k] && all[k] == terms[k]; }
    }
  }

  // ---------------------------------------------------------------------------
  // The score of a row: one term a query vector, added from left to right
  // ---------------------------------------------------------------------------

  function Score<S, R>(ar: Arithmetic<S, R>, one: int, queries: seq<seq<Candidate>>, id: nat): S {
    if queries == [] then ar.zero
    else
      var k := |queries| - 1;
      (ar.add)(Score(ar, one, queries[..k], id), (ar.lift)(Contribution(queries[k], one, id)))
  }

  /** What one query adds to the score of a row: the row's own least distance, or else the greatest of
      all distances, or else 1.0. */
  ghost predicate IsTerm(c: seq<Candidate>, one: int, id: nat, term: int) {
    if exists x :: x in c && x.id == id then
      Candidate(id, term) in c && forall x | x in c && x.id == id :: term <= x.distance
    else if c != [] then
      (exists x :: x in c && x.distance == term) && forall x | x in c :: x.distance <= term
    else term == one
  }

  lemma ContributionIsTerm(c: seq<Candidate>, one: int, id: nat)
    ensures IsTerm(c, one, id, Contribution(c, one, id))
  {
    NearestIsTheMinimum(c, id);
    FarthestIsTheMaximum(c);
  }

  /** `total` is the left-to-right sum of one term a query. */
  ghost predicate IsSumOfTerms<S(!new), R>(
    ar: Arithmetic<S, R>, one: int, queries: seq<seq<Candidate>>, id: nat, total: S)
  {
    exists terms ::
      && IsLeftSum(ar, terms, total) && |terms| == |queries|
      && forall k | 0 <= k < |queries| :: IsTerm(queries[k], one, id, terms[k])
  }

  /** A score is the left-to-right sum of one such term a query. */
  lemma {:induction false} ScoreIsALeftSum<S(!new), R>(
    ar: Arithmetic<S, R>, one: int, queries: seq<seq<Candidate>>, id: nat) returns (terms: seq<int>)
    ensures |terms| == |queries| && forall k | 0 <= k < |queries| :: IsTerm(queries[k], one, id, terms[k])
    ensures IsLeftSum(ar, terms, Score(ar, one, queries, id))
  {
    if queries == [] {
      terms := [];
      LeftSumOfNothing(ar);
    } else {
      var k := |queries| - 1;
      var before := ScoreIsALeftSum(ar, one, queries[..k], id);
      ContributionIsTerm(queries[k], one, id);
      LeftSumOfMore(ar, before, Score(ar, one, queries[..k], id), Contribution(queries[k], one, id));
      terms := before + [Contribution(queries[k], one, id)];
      forall j | 0 <= j < |queries| ensures IsTerm(queries[j], one, id, terms[j]) {
        if j < k { assert queries[..k][j] == queries[j] && terms[j] == before[j]; }
      }
    }
  }

  predicate Has(c: seq<Candidate>, id: nat) {
    exists x | x in c :: x.id == id
  }

  predicate IsFound(queries: seq<seq<Candidate>>, id: nat) {
    exists k | 0 <= k < |queries| :: Has(queries[k], id)
  }

  function Missed<S, R>(ar: Arithmetic<S, R>, one: int, queries: seq<seq<Candidate>>): S {
    if queries == [] then ar.zero
    else
      var k := |queries| - 1;
      (ar.add)(Missed(ar, one, queries[..k]), (ar.lift)(Penalty(queries[k], one)))
  }

  /** The running total is the score of every row that no query found so far. */
  lemma {:induction false} MissedIsTheScoreOfUnseenRows<S, R>(
    ar: Arithmetic<S, R>, one: int, queries: seq<seq<Candidate>>, id: nat)
    requires !IsFound(queries, id)
    ensures Score(ar, one, queries, id) == Missed(ar, one, queries)
  {
    if queries != [] {
      var k := |queries| - 1;
      assert !Has(queries[k], id);
      NearestIsTheMinimum(queries[k], id);
      forall j | 0 <= j < k ensures !Has(queries[..k][j], id) {
        assert !Has(queries[j], id);
      }
      MissedIsTheScoreOfUnseenRows(ar, one, queries[..k], id);
    }
  }

  // ---------------------------------------------------------------------------
  // Scoring the candidates of an index search
  // ---------------------------------------------------------------------------

  /** `rows` and `maximum` are the reduction of the candidates `c`. */
  ghost predicate Reduces(c: seq<Candidate>, rows: map<nat, int>, maximum: Option<int>) {
    && maximum == Farthest(c)
    && (forall id :: id in rows <==> Nearest(c, id).Some?)
    && forall id | id in rows :: Nearest(c, id) == Some(rows[id])
  }

  /** `query` holds what the scoring loop needs of one query's candidates `c`. */
  ghost predicate IsReduction(c: seq<Candidate>, one: int, query: (map<nat, int>, int)) {
    query.1 == Penalty(c, one) && Reduces(c, query.0, Farthest(c))
  }

  method ReduceRows(items: seq<Row>, rows0: map<nat, int>, maximum0: Option<int>, ghost c0: seq<Candidate>)
    returns (valid: bool, rows: map<nat, int>, maximum: Option<int>)
    requires Reduces(c0, rows0, maximum0)
    ensures valid <==> forall row | row in items :: IsCandidate(row)
    ensures valid ==> Reduces(c0 + RowCandidates(items), rows, maximum)
  {
    rows, maximum := rows0, maximum0;
    ghost var c := c0;
    var i := 0;
    while i < |items|
      invariant 0 <= i <= |items|
      invariant forall k | 0 <= k < i :: IsCandidate(items[k])
      invariant |c| == |c0| + i && c[..|c0|] == c0
      invariant forall k | 0 <= k < i :: c[|c0| + k] == ToCandidate(items[k])
      invariant Reduces(c, rows, maximum)
    {
      var row := items[i];
      if row.id.None? || row.distance.None? || row.distance.value.NonFinite? {
        assert row in items && !IsCandidate(row);
        return false, rows, maximum;
      }
      var id, distance := row.id.value, row.distance.value.position;
      maximum := Some(if maximum.Some? then Max(maximum.value, distance) else distance);
      rows := rows[id := if id in rows then Min(rows[id], distance) else distance];
      var next := c + [Candidate(id, distance)];
      assert next[..|next| - 1] == c;
      c := next;
      i := i + 1;
    }
    assert c == c0 + RowCandidates(items);
    return true, rows, maximum;
  }

  /** The whole stream of one query vector is reduced once, across all of its batches. */
  method ReduceQuery(stream: Stream, one: int) returns (r: Result<(map<nat, int>, int), Error>)
    ensures r.Success? <==> WellFormed(stream)
    ensures r.Failure? ==> IsFirstFault(stream, r.error)
    ensures r.Success? ==> IsReduction(Candidates(stream), one, r.value)
  {
    var rows: map<nat, int> := map[];
    var maximum: Option<int> := None;
    var i := 0;
    while i < |stream|
      invariant 0 <= i <= |stream|
      invariant WellFormed(stream[..i])
      invariant Reduces(Candidates(stream[..i]), rows, maximum)
    {
      var item := stream[i];
      assert stream[..i + 1] == stream[..i] + [item];
      assert stream[..i + 1][..i] == stream[..i];
      if item.Failure? {
        assert ItemFault(stream[i]) == Some(item.error);
        return Failure(item.error);
      }
      if !item.value.hasRowIds {
        assert ItemFault(stream[i]) == Some(NoRowIds);
        return Failure(NoRowIds);
      }
      if !item.value.hasDistances {
        assert ItemFault(stream[i]) == Some(NoDistances);
        return Failure(NoDistances);
      }
      var valid;
      valid, rows, maximum := ReduceRows(item.value.rows, rows, maximum, Candidates(stream[..i]));
      if !valid {
        assert ItemFault(stream[i]) == Some(InvalidCandidate);
        return Failure(InvalidCandidate);
      }
      i := i + 1;
    }
    assert stream[..i] == stream;
    return Success((rows, if maximum.Some? then maximum.value else one));
  }

  function Lookup(rows: map<nat, int>, id: nat, otherwise: int): int {
    if id in rows then rows[id] else otherwise
  }

  /** Adds one query to the rows that earlier queries found; the keys come in any order. */
  method AddToKnown<S, R>(ar: Arithmetic<S, R>, known: map<nat, S>, rows: map<nat, int>, maximum: int)
    returns (results: map<nat, S>)
    ensures results.Keys == known.Keys
    ensures forall id | id in known :: results[id] == (ar.add)(known[id], (ar.lift)(Lookup(rows, id, maximum)))
  {
    results := known;
    var pending := known.Keys;
    while pending != {}
      invariant pending <= known.Keys && results.Keys == known.Keys
      invariant forall id | id in pending :: results[id] == known[id]
      invariant forall id | id in known && id !in pending ::
                  results[id] == (ar.add)(known[id], (ar.lift)(Lookup(rows, id, maximum)))
      decreases |pending|
    {
      var id :| id in pending;
      results := results[id := (ar.add)(results[id], (ar.lift)(Lookup(rows, id, maximum)))];
      pending := pending - {id};
    }
  }

  /** Enters the rows that this query is the first to find. */
  method InsertNew<S, R>(ar: Arithmetic<S, R>, known: map<nat, S>, rows: map<nat, int>, missed: S)
    returns (results: map<nat, S>)
    ensures forall id :: id in results <==> id in known || id in rows
    ensures forall id | id in known :: results[id] == known[id]
    ensures forall id | id in rows && id !in known :: results[id] == (ar.add)((ar.lift)(rows[id]), missed)
  {
    results := known;
    var pending := rows.Keys;
    while pending != {}
      invariant pending <= rows.Keys
      invariant forall id :: id in results <==> id in known || (id in rows && id !in pending)
      invariant forall id | id in results ::
                  results[id] == if id in known then known[id] else (ar.add)((ar.lift)(rows[id]), missed)
      decreases |pending|
    {
      var id :| id in pending;
      if id !in results {
        results := results[id := (ar.add)((ar.lift)(rows[id]), missed)];
      }
      pending := pending - {id};
    }
  }

  /** `results` holds every row found so far with its score. */
  ghost predicate Scores<S, R>(ar: Arithmetic<S, R>, one: int, queries: seq<seq<Candidate>>, results: map<nat, S>) {
    && (forall id :: id in results <==> IsFound(queries, id))
    && forall id | id in results :: results[id] == Score(ar, one, queries, id)
  }

  lemma FoundWithOneMore(queries: seq<seq<Candidate>>, c: seq<Candidate>, id: nat)
    ensures IsFound(queries + [c], id) <==> IsFound(queries, id) || Has(c, id)
  {
    var all := queries + [c];
    if IsFound(all, id) {
      var k :| 0 <= k < |all| && Has(all[k], id);
      assert k == |queries| || Has(queries[k], id);
    }
    if IsFound(queries, id) {
      var k :| 0 <= k < |queries| && Has(queries[k], id);
      assert Has(all[k], id);
    }
    assert all[|queries|] == c;
  }

  lemma ScoreWithOneMore<S, R>(ar: Arithmetic<S, R>, one: int, queries: seq<seq<Candidate>>, c: seq<Candidate>, id: nat)
    ensures Score(ar, one, queries + [c], id)
         == (ar.add)(Score(ar, one, queries, id), (ar.lift)(Contribution(c, one, id)))
    ensures Missed(ar, one, queries + [c]) == (ar.add)(Missed(ar, one, queries), (ar.lift)(Penalty(c, one)))
  {
    assert (queries + [c])[..|queries|] == queries;
  }

  /** One turn of the scoring loop, for one row. */
  lemma TurnScores<S(!new), R>(
    ar: Arithmetic<S, R>, one: int, queries: seq<seq<Candidate>>, c: seq<Candidate>, rows: map<nat, int>,
    known: map<nat, S>, updated: map<nat, S>, results: map<nat, S>, id: nat)
    requires Commutes(ar) && Scores(ar, one, queries, known) && Reduces(c, rows, Farthest(c))
    requires updated.Keys == known.Keys
    requires forall id | id in known ::
               updated[id] == (ar.add)(known[id], (ar.lift)(Lookup(rows, id, Penalty(c, one))))
    requires forall id :: id in results <==> id in updated || id in rows
    requires forall id | id in updated :: results[id] == updated[id]
    requires forall id | id in rows && id !in updated ::
               results[id] == (ar.add)((ar.lift)(rows[id]), Missed(ar, one, queries))
    ensures id in results <==> IsFound(queries + [c], id)
    ensures id in results ==> results[id] == Score(ar, one, queries + [c], id)
  {
    NearestIsTheMinimum(c, id);
    FoundWithOneMore(queries, c, id);
    ScoreWithOneMore(ar, one, queries, c, id);
    if id in rows && id !in known {
      MissedIsTheScoreOfUnseenRows(ar, one, queries, id);
    }
  }

  /** The state of the scoring loop after `queries`: the scores so far and the running total. */
  ghost predicate HasScored<S, R>(
    ar: Arithmetic<S, R>, one: int, queries: seq<seq<Candidate>>, results: map<nat, S>, missed: S)
  {
    Scores(ar, one, queries, results) && missed == Missed(ar, one, queries)
  }

  method ScoreQuery<S(!new), R>(
    ar: Arithmetic<S, R>, one: int, known: map<nat, S>, missed: S, query: (map<nat, int>, int),
    ghost queries: seq<seq<Candidate>>, ghost c: seq<Candidate>)
    returns (results: map<nat, S>, missedNow: S)
    requires Commutes(ar) && HasScored(ar, one, queries, known, missed) && IsReduction(c, one, query)
    ensures HasScored(ar, one, queries + [c], results, missedNow)
  {
    var (rows, maximum) := query;
    var updated := AddToKnown(ar, known, rows, maximum);
    results := InsertNew(ar, updated, rows, missed);
    missedNow := (ar.add)(missed, (ar.lift)(maximum));
    forall id: nat
      ensures id in results <==> IsFound(queries + [c], id)
      ensures id in results ==> results[id] == Score(ar, one, queries + [c], id)
    {
      TurnScores(ar, one, queries, c, rows, known, updated, results, id);
    }
    ScoreWithOneMore(ar, one, queries, c, 0);
  }

  datatype Scored<R> = Scored(id: nat, score: R)

  function AllCandidates(inputs: seq<Stream>): (r: seq<seq<Candidate>>)
    requires forall s | s in inputs :: WellFormed(s)
    ensures |r| == |inputs| && forall k | 0 <= k < |inputs| :: r[k] == Candidates(inputs[k])
  {
    seq(|inputs|, k requires 0 <= k < |inputs| => Candidates(inputs[k]))
  }

  predicate Distinct<R>(out: seq<Scored<R>>) {
    forall i, j | 0 <= i < j < |out| :: out[i].id != out[j].id
  }

  /** The specification: one output row for each row that some query found, with the sum over the
      queries, from left to right, of the row's own minimum distance or the query's penalty. */
  ghost predicate IsScoring<S, R>(
    ar: Arithmetic<S, R>, one: int, queries: seq<seq<Candidate>>, out: seq<Scored<R>>)
  {
    && Distinct(out)
    && (forall id :: IsFound(queries, id) <==> exists x :: x in out && x.id == id)
    && forall x | x in out :: x.score == (ar.narrow)(Score(ar, one, queries, x.id))
  }

  lemma ScoringMeans<S(!new), R>(
    ar: Arithmetic<S, R>, one: int, queries: seq<seq<Candidate>>, out: seq<Scored<R>>)
    requires IsScoring(ar, one, queries, out)
    ensures forall id :: HasRow(out, id) <==> IsOffered(queries, id)
    ensures forall x | x in out :: exists total ::
              IsSumOfTerms(ar, one, queries, x.id, total) && x.score == (ar.narrow)(total)
  {
    forall id ensures HasRow(out, id) <==> IsOffered(queries, id) {
      FoundMeans(queries, id);
      assert IsFound(queries, id) <==> HasRow(out, id);
    }
    forall x | x in out
      ensures exists total ::
                IsSumOfTerms(ar, one, queries, x.id, total) && x.score == (ar.narrow)(total)
    {
      var terms := ScoreIsALeftSum(ar, one, queries, x.id);
      assert IsSumOfTerms(ar, one, queries, x.id, Score(ar, one, queries, x.id));
    }
  }

  ghost predicate HasRow<R>(out: seq<Scored<R>>, id: nat) {
    exists x :: x in out && x.id == id
  }

  /** Some query has a candidate with this id, at whatever distance. */
  ghost predicate IsOffered(queries: seq<seq<Candidate>>, id: nat) {
    exists k, d | 0 <= k < |queries| :: Candidate(id, d) in queries[k]
  }

  lemma FoundMeans(queries: seq<seq<Candidate>>, id: nat)
    ensures IsFound(queries, id) <==> IsOffered(queries, id)
  {
    if IsFound(queries, id) {
      var k :| 0 <= k < |queries| && Has(queries[k], id);
      var x :| x in queries[k] && x.id == id;
      assert Candidate(id, x.distance) == x;
    }
    if k, d :| 0 <= k < |queries| && Candidate(id, d) in queries[k] {
      assert Has(queries[k], id);
    }
  }

  /** Empties the map of results into the output columns, in any order of its keys. */
  method Unzip<S, R>(ar: Arithmetic<S, R>, results: map<nat, S>) returns (out: seq<Scored<R>>)
    ensures Distinct(out)
    ensures forall id :: id in results <==> exists x :: x in out && x.id == id
    ensures forall x | x in out :: x.id in results && x.score == (ar.narrow)(results[x.id])
  {
    out := [];
    var pending := results.Keys;
    while pending != {}
      invariant pending <= results.Keys && Distinct(out)
      invariant forall x | x in out :: x.id in results && x.id !in pending && x.score == (ar.narrow)(results[x.id])
      invariant forall id | id in results && id !in pending :: exists x :: x in out && x.id == id
      decreases |pending|
    {
      var id :| id in pending;
      var x := Scored(id, (ar.narrow)(results[id]));
      var before := out;
      out := out + [x];
      assert x in out && forall y | y in before :: y in out;
      pending := pending - {id};
    }
  }

  method ReduceAll(inputs: seq<Stream>, one: int) returns (r: Result<seq<(map<nat, int>, int)>, Error>)
    ensures r.Success? <==> forall s | s in inputs :: WellFormed(s)
    ensures r.Failure? ==> exists s :: s in inputs && IsFirstFault(s, r.error)
    ensures r.Success? ==>
              && |r.value| == |inputs|
              && forall k | 0 <= k < |inputs| :: IsReduction(Candidates(inputs[k]), one, r.value[k])
  {
    var reduced: seq<(map<nat, int>, int)> := [];
    while |reduced| < |inputs|
      invariant |reduced| <= |inputs|
      invariant forall k | 0 <= k < |reduced| ::
                  WellFormed(inputs[k]) && IsReduction(Candidates(inputs[k]), one, reduced[k])
    {
      var query := ReduceQuery(inputs[|reduced|], one);
      if query.Failure? {
        assert inputs[|reduced|] in inputs;
        return Failure(query.error);
      }
      reduced := reduced + [query.value];
    }
    return Success(reduced);
  }

  method ScoreAll<S(!new), R>(
    ar: Arithmetic<S, R>, one: int, reduced: seq<(map<nat, int>, int)>, ghost queries: seq<seq<Candidate>>)
    returns (results: map<nat, S>)
    requires Commutes(ar) && |queries| == |reduced|
    requires forall k | 0 <= k < |reduced| :: IsReduction(queries[k], one, reduced[k])
    ensures Scores(ar, one, queries, results)
  {
    results := map[];
    var missed := ar.zero;
    ghost var done: seq<seq<Candidate>> := [];
    var k := 0;
    while k < |reduced|
      invariant 0 <= k <= |reduced| && done == queries[..k]
      invariant HasScored(ar, one, done, results, missed)
    {
      assert IsReduction(queries[k], one, reduced[k]);
      assert queries[..k + 1] == done + [queries[k]];
      results, missed := ScoreQuery(ar, one, results, missed, reduced[k], done, queries[k]);
      done := done + [queries[k]];
      k := k + 1;
    }
    assert done == queries;
  }

  method IndexedBatch<S(!new), R>(ar: Arithmetic<S, R>, one: int, inputs: seq<Stream>)
    returns (r: Result<seq<Scored<R>>, Error>)
    requires Commutes(ar)
    ensures r.Success? <==> forall s | s in inputs :: WellFormed(s)
    ensures r.Failure? ==> exists s :: s in inputs && IsFirstFault(s, r.error)
    ensures r.Success? ==> IsScoring(ar, one, AllCandidates(inputs), r.value)
    ensures r.Success? ==> forall id :: HasRow(r.value, id) <==> IsOffered(AllCandidates(inputs), id)
    ensures r.Success? ==> forall x | x in r.value :: exists total ::
              IsSumOfTerms(ar, one, AllCandidates(inputs), x.id, total) && x.score == (ar.narrow)(total)
  {
    var reduced := ReduceAll(inputs, one);
    if reduced.Failure? { return Failure(reduced.error); }
    var results := ScoreAll(ar, one, reduced.value, AllCandidates(inputs));
    var out := Unzip(ar, results);
    ScoringMeans(ar, one, AllCandidates(inputs), out);
    return Success(out);
  }

  // ---------------------------------------------------------------------------
  // Batching and order do not matter
  // ---------------------------------------------------------------------------

  /** Streams that offer the same candidates query by query satisfy `SameSets`. */
  lemma RebatchedStreamsHaveSameSets(p: seq<Stream>, q: seq<Stream>)
    requires |p| == |q| && (forall s | s in p :: WellFormed(s)) && (forall s | s in q :: WellFormed(s))
    requires forall k, x | 0 <= k < |p| :: Offers(p[k], x) <==> Offers(q[k], x)
    ensures SameSets(AllCandidates(p), AllCandidates(q))
  {
    forall k, x | 0 <= k < |p| ensures x in AllCandidates(p)[k] <==> x in AllCandidates(q)[k] {
      assert p[k] in p && q[k] in q;
      CandidatesAreOffered(p[k], x);
      CandidatesAreOffered(q[k], x);
      assert Offers(p[k], x) <==> Offers(q[k], x);
    }
  }

  ghost predicate SameSets(a: seq<seq<Candidate>>, b: seq<seq<Candidate>>) {
    |a| == |b| && forall k, x | 0 <= k < |a| :: x in a[k] <==> x in b[k]
  }

  lemma {:induction false} SameSetsSameScore<S, R>(
    ar: Arithmetic<S, R>, one: int, a: seq<seq<Candidate>>, b: seq<seq<Candidate>>, id: nat)
    requires SameSets(a, b)
    ensures Score(ar, one, a, id) == Score(ar, one, b, id)
    decreases |a|
  {
    if a != [] {
      var k := |a| - 1;
      ContributionIgnoresOrder(a[k], b[k], one, id);
      SameSetsSameScore(ar, one, a[..k], b[..k], id);
    }
  }

  lemma SameSetsSameRows(a: seq<seq<Candidate>>, b: seq<seq<Candidate>>, id: nat)
    requires SameSets(a, b) && IsFound(a, id)
    ensures IsFound(b, id)
  {
    var k :| 0 <= k < |a| && Has(a[k], id);
    var x :| x in a[k] && x.id == id;
    assert x in b[k];
  }

  lemma {:induction false} DistinctCounts<R>(out: seq<Scored<R>>, x: Scored<R>)
    requires Distinct(out)
    ensures multiset(out)[x] == if x in out then 1 else 0
  {
    if out != [] {
      var rest := out[..|out| - 1];
      DistinctCounts(rest, x);
      assert out == rest + [out[|out| - 1]];
    }
  }

  lemma ScoredInBoth<S, R>(
    ar: Arithmetic<S, R>, one: int, a: seq<seq<Candidate>>, b: seq<seq<Candidate>>,
    p: seq<Scored<R>>, q: seq<Scored<R>>, x: Scored<R>)
    requires SameSets(a, b) && IsScoring(ar, one, a, p) && IsScoring(ar, one, b, q) && x in p
    ensures x in q
  {
    assert IsFound(a, x.id);
    SameSetsSameRows(a, b, x.id);
    var y :| y in q && y.id == x.id;
    SameSetsSameScore(ar, one, a, b, x.id);
    assert x == y;
  }

  /** Two runs over streams that found the same candidates, however each stream cuts them into
      batches, orders them or repeats them, and however the maps are iterated, return the same
      rows with the same scores. */
  lemma BatchingIsIrrelevant<S, R>(
    ar: Arithmetic<S, R>, one: int, a: seq<seq<Candidate>>, b: seq<seq<Candidate>>,
    p: seq<Scored<R>>, q: seq<Scored<R>>)
    requires SameSets(a, b) && IsScoring(ar, one, a, p) && IsScoring(ar, one, b, q)
    ensures multiset(p) == multiset(q)
  {
    forall x ensures multiset(p)[x] == multiset(q)[x] {
      DistinctCounts(p, x);
      DistinctCounts(q, x);
      if x in p { ScoredInBoth(ar, one, a, b, p, q, x); }
      if x in q { ScoredInBoth(ar, one, b, a, q, p, x); }
    }
  }

  // ---------------------------------------------------------------------------
  // The exact distance of one row
  // ---------------------------------------------------------------------------

  datatype ElementType = Float16 | Float32 | Float64 | OtherElement

  datatype Query<V> = Query(elementType: ElementType, values: seq<V>)

  /** One row's list of subvectors, flattened, with null elements. */
  datatype Vectors<V> = Vectors(
    isFixedSizeList: bool, elementType: ElementType, dimension: int, nullSubvector: bool, values: seq<Option<V>>)

  /** `distance` is `None` where the metric is undefined (NaN). */
  datatype Kernel<!V> = Kernel(isFinite: V -> bool, distance: (seq<V>, seq<V>) -> Option<int>)

  predicate AllFinite<V>(kernel: Kernel<V>, values: seq<Option<V>>) {
    forall i | 0 <= i < |values| :: values[i].Some? && (kernel.isFinite)(values[i].value)
  }

  predicate IsStored<V>(kernel: Kernel<V>, vectors: Vectors<V>) {
    !vectors.nullSubvector && AllFinite(kernel, vectors.values)
  }

  function Plain<V>(values: seq<Option<V>>): seq<V>
    requires forall i | 0 <= i < |values| :: values[i].Some?
  {
    seq(|values|, i requires 0 <= i < |values| => values[i].value)
  }

  /** Whole chunks only: a shorter remainder is dropped. */
  function Chunks<V>(s: seq<V>, dimension: int): seq<seq<V>>
    requires dimension > 0
    decreases |s|
  {
    if |s| < dimension then [] else [s[..dimension]] + Chunks(s[dimension..], dimension)
  }

  /** The i-th chunk: `dimension` elements, counted from `i * dimension`. */
  function Slice<V>(s: seq<V>, dimension: int, i: int): seq<V> {
    if 0 <= i * dimension <= (i + 1) * dimension <= |s| then s[i * dimension..(i + 1) * dimension] else []
  }

  lemma SliceOfRest<V>(s: seq<V>, dimension: int, i: int)
    requires 0 < dimension <= |s| && 0 <= i && (i + 1) * dimension <= |s| - dimension
    ensures 0 <= i * dimension
    ensures Slice(s[dimension..], dimension, i) == Slice(s, dimension, i + 1)
  {
    assert i * dimension >= 0 && (i + 1) * dimension == i * dimension + dimension;
    assert (i + 2) * dimension == (i + 1) * dimension + dimension;
    var rest := s[dimension..];
    assert rest[i * dimension..(i + 1) * dimension] == s[(i + 1) * dimension..(i + 2) * dimension];
  }

  lemma ProductOfDifference(d: int, p: int, q: int)
    ensures d * (p - q) == d * p - d * q
  {
  }

  lemma MultipleIsAtLeast(d: int, e: int)
    requires d > 0 && e >= 1
    ensures d * e >= d
  {
  }

  lemma UniqueQuotient(d: int, p: int, q: int, a: int, b: int)
    requires d * p + a == d * q + b && 0 <= a < d && 0 <= b < d
    ensures p == q
  {
    if p > q {
      ProductOfDifference(d, p, q);
      MultipleIsAtLeast(d, p - q);
    } else if p < q {
      ProductOfDifference(d, q, p);
      MultipleIsAtLeast(d, q - p);
    }
  }

  lemma DivisionStep(n: int, d: int)
    requires 0 < d <= n
    ensures (n - d) / d == n / d - 1
  {
    var p, q := (n - d) / d, n / d;
    ProductOfDifference(d, q, 1);
    UniqueQuotient(d, p, q - 1, (n - d) % d, n % d);
  }

  lemma MultiplesAreOrdered(d: int, p: int, q: int)
    requires d > 0 && p <= q
    ensures d * p <= d * q
  {
    if p < q {
      ProductOfDifference(d, q, p);
      MultipleIsAtLeast(d, q - p);
    }
  }

  lemma WithinWhole(n: int, d: int, i: int)
    requires 0 < d && 0 <= i < n / d
    ensures 0 <= i * d <= (i + 1) * d <= n && (i + 1) * d == i * d + d
  {
    MultiplesAreOrdered(d, i + 1, n / d);
    MultiplesAreOrdered(d, 0, i);
    ProductOfDifference(d, i + 1, i);
    assert d * i == i * d && d * (i + 1) == (i + 1) * d;
  }

  /** All whole chunks; a shorter remainder is left over. */
  function Slices<V>(s: seq<V>, dimension: int): seq<seq<V>>
    requires dimension > 0
  {
    seq(|s| / dimension, i requires 0 <= i < |s| / dimension => Slice(s, dimension, i))
  }

  lemma {:induction false} ChunksAreSlices<V>(s: seq<V>, dimension: int)
    requires dimension > 0
    ensures |Chunks(s, dimension)| == |s| / dimension && Chunks(s, dimension) == Slices(s, dimension)
    ensures forall i | 0 <= i < |s| / dimension :: |Slices(s, dimension)[i]| == dimension
    decreases |s|
  {
    if |s| >= dimension {
      var rest := s[dimension..];
      ChunksAreSlices(rest, dimension);
      DivisionStep(|s|, dimension);
      forall i | 0 <= i < |s| / dimension
        ensures Chunks(s, dimension)[i] == Slice(s, dimension, i) && |Slice(s, dimension, i)| == dimension
      {
        WithinWhole(|s|, dimension, i);
        if i > 0 {
          WithinWhole(|rest|, dimension, i - 1);
          SliceOfRest(s, dimension, i - 1);
          assert Chunks(s, dimension)[i] == Chunks(rest, dimension)[i - 1];
        }
      }
    }
  }

  function Best<V>(kernel: Kernel<V>, q: seq<V>, stored: seq<seq<V>>): Option<int> {
    if stored == [] then None
    else
      var first := (kernel.distance)(q, stored[0]);
      var rest := Best(kernel, q, stored[1..]);
      if first.None? then rest else if rest.None? then first else Some(Min(first.value, rest.value))
  }

  lemma {:induction false} BestIsTheMinimum<V>(kernel: Kernel<V>, q: seq<V>, stored: seq<seq<V>>)
    ensures Best(kernel, q, stored).None? <==> forall v | v in stored :: (kernel.distance)(q, v) == None
    ensures Best(kernel, q, stored).Some? ==>
              && (exists v :: v in stored && (kernel.distance)(q, v) == Best(kernel, q, stored))
              && forall v | v in stored && (kernel.distance)(q, v).Some? ::
                   Best(kernel, q, stored).value <= (kernel.distance)(q, v).value
  {
    if stored != [] {
      BestIsTheMinimum(kernel, q, stored[1..]);
      assert stored == [stored[0]] + stored[1..];
      assert stored[0] in stored;
      if Best(kernel, q, stored[1..]).Some? {
        var v :| v in stored[1..] && (kernel.distance)(q, v) == Best(kernel, q, stored[1..]);
        assert v in stored;
      }
    }
  }

  /** The minima summed in order; `None` once a query vector has no defined distance. */
  function SumOfMinima<S, R, V>(
    ar: Arithmetic<S, R>, kernel: Kernel<V>, queries: seq<seq<V>>, stored: seq<seq<V>>): Option<S>
  {
    if queries == [] then Some(ar.zero)
    else
      var k := |queries| - 1;
      var before := SumOfMinima(ar, kernel, queries[..k], stored);
      var best := Best(kernel, queries[k], stored);
      if before.None? || best.None? then None else Some((ar.add)(before.value, (ar.lift)(best.value)))
  }

  ghost predicate HasMatch<V>(kernel: Kernel<V>, q: seq<V>, stored: seq<seq<V>>) {
    exists v :: v in stored && (kernel.distance)(q, v).Some?
  }

  lemma {:induction false} SumIsDefined<S, R, V>(
    ar: Arithmetic<S, R>, kernel: Kernel<V>, queries: seq<seq<V>>, stored: seq<seq<V>>)
    ensures SumOfMinima(ar, kernel, queries, stored).Some? <==>
            forall i | 0 <= i < |queries| :: HasMatch(kernel, queries[i], stored)
  {
    if queries != [] {
      var k := |queries| - 1;
      SumIsDefined(ar, kernel, queries[..k], stored);
      BestIsTheMinimum(kernel, queries[k], stored);
      assert forall i | 0 <= i < k :: queries[..k][i] == queries[i];
    }
  }

  /** A row's distance depends on the set of its subvectors only. */
  lemma {:induction false} SumIgnoresStoredOrder<S, R, V>(
    ar: Arithmetic<S, R>, kernel: Kernel<V>, queries: seq<seq<V>>, a: seq<seq<V>>, b: seq<seq<V>>)
    requires forall v :: v in a <==> v in b
    ensures SumOfMinima(ar, kernel, queries, a) == SumOfMinima(ar, kernel, queries, b)
    decreases |queries|
  {
    if queries != [] {
      var k := |queries| - 1;
      SumIgnoresStoredOrder(ar, kernel, queries[..k], a, b);
      BestIsTheMinimum(kernel, queries[k], a);
      BestIsTheMinimum(kernel, queries[k], b);
    }
  }

  /** The two scorings agree, bit for bit, on a row that each query's index search found at its
      true distance. */
  lemma {:induction false} IndexedAgreesWithExact<S, R, V>(
    ar: Arithmetic<S, R>, one: int, kernel: Kernel<V>, queries: seq<seq<V>>, stored: seq<seq<V>>,
    found: seq<seq<Candidate>>, id: nat)
    requires |found| == |queries|
    requires forall k | 0 <= k < |queries| ::
               Nearest(found[k], id).Some? && Nearest(found[k], id) == Best(kernel, queries[k], stored)
    ensures SumOfMinima(ar, kernel, queries, stored) == Some(Score(ar, one, found, id))
    decreases |queries|
  {
    if queries != [] {
      var k := |queries| - 1;
      IndexedAgreesWithExact(ar, one, kernel, queries[..k], stored, found[..k], id);
    }
  }

  method BestOf<V>(kernel: Kernel<V>, q: seq<V>, stored: seq<seq<V>>) returns (best: Option<int>)
    ensures best == Best(kernel, q, stored)
  {
    best := None;
    var i := 0;
    ghost var seen: seq<seq<V>> := [];
    while i < |stored|
      invariant 0 <= i <= |stored| && seen == stored[..i]
      invariant best.None? <==> forall v | v in seen :: (kernel.distance)(q, v) == None
      invariant best.Some? ==> (exists v :: v in seen && (kernel.distance)(q, v) == best)
      invariant best.Some? ==> forall v | v in seen && (kernel.distance)(q, v).Some? ::
                                 best.value <= (kernel.distance)(q, v).value
    {
      var d := (kernel.distance)(q, stored[i]);
      ghost var was := seen;
      seen := was + [stored[i]];
      assert stored[i] in seen && forall v | v in was :: v in seen;
      if d.Some? && (best.None? || d.value < best.value) { best := d; }
      i := i + 1;
    }
    BestIsTheMinimum(kernel, q, stored);
    assert seen == stored;
  }

  /** What scoring one row returns: the errors first, then `None` where some query vector has no
      defined match, then the sum unless it overflows the output type. */
  function DistanceOf<S, R, V>(
    ar: Arithmetic<S, R>, kernel: Kernel<V>, query: Query<V>, vectors: Vectors<V>): Result<Option<R>, Error>
    requires vectors.dimension > 0
  {
    if vectors.elementType != query.elementType then Failure(TypeMismatch)
    else if !IsStored(kernel, vectors) then Failure(StoredNotFinite)
    else
      var sum := SumOfMinima(ar, kernel, Chunks(query.values, vectors.dimension),
                             Chunks(Plain(vectors.values), vectors.dimension));
      if sum.None? then Success(None)
      else if !(ar.isFinite)((ar.narrow)(sum.value)) then Failure(DistanceNotFinite)
      else Success(Some((ar.narrow)(sum.value)))
  }

  /** `term` is the least of the defined distances from `q` to the vectors of the row. */
  ghost predicate IsMatch<V>(kernel: Kernel<V>, q: seq<V>, row: seq<seq<V>>, term: int) {
    && (exists j | 0 <= j < |row| :: (kernel.distance)(q, row[j]) == Some(term))
    && forall j | 0 <= j < |row| && (kernel.distance)(q, row[j]).Some? :: term <= (kernel.distance)(q, row[j]).value
  }

  ghost predicate HasNoMatch<V>(kernel: Kernel<V>, q: seq<V>, row: seq<seq<V>>) {
    forall j | 0 <= j < |row| :: (kernel.distance)(q, row[j]) == None
  }

  /** `total` is the left-to-right sum of the minima, one for each query vector. */
  ghost predicate IsDistance<S(!new), R, V>(
    ar: Arithmetic<S, R>, kernel: Kernel<V>, query: seq<seq<V>>, row: seq<seq<V>>, total: S)
  {
    exists terms ::
      && IsLeftSum(ar, terms, total) && |terms| == |query|
      && forall i | 0 <= i < |query| :: IsMatch(kernel, query[i], row, terms[i])
  }

  lemma BestIsMatch<V>(kernel: Kernel<V>, q: seq<V>, row: seq<seq<V>>)
    ensures var best := Best(kernel, q, row);
            && (best.None? <==> HasNoMatch(kernel, q, row))
            && (best.Some? ==> IsMatch(kernel, q, row, best.value))
  {
    BestIsTheMinimum(kernel, q, row);
    assert forall j | 0 <= j < |row| :: row[j] in row;
  }

  lemma {:induction false} SumIsUndefined<S, R, V>(
    ar: Arithmetic<S, R>, kernel: Kernel<V>, query: seq<seq<V>>, row: seq<seq<V>>)
    ensures SumOfMinima(ar, kernel, query, row).None? <==>
            exists i | 0 <= i < |query| :: HasNoMatch(kernel, query[i], row)
    decreases |query|
  {
    if query != [] {
      var k := |query| - 1;
      SumIsUndefined(ar, kernel, query[..k], row);
      BestIsMatch(kernel, query[k], row);
      forall i | 0 <= i < k ensures query[..k][i] == query[i] {}
      assert HasNoMatch(kernel, query[k], row) <==> Best(kernel, query[k], row).None?;
    }
  }

  lemma {:induction false} SumIsADistance<S(!new), R, V>(
    ar: Arithmetic<S, R>, kernel: Kernel<V>, query: seq<seq<V>>, row: seq<seq<V>>) returns (terms: seq<int>)
    requires SumOfMinima(ar, kernel, query, row).Some?
    ensures IsLeftSum(ar, terms, SumOfMinima(ar, kernel, query, row).value) && |terms| == |query|
    ensures forall i | 0 <= i < |query| :: IsMatch(kernel, query[i], row, terms[i])
    decreases |query|
  {
    if query == [] {
      terms := [];
      LeftSumOfNothing(ar);
    } else {
      var k := |query| - 1;
      var before := SumIsADistance(ar, kernel, query[..k], row);
      BestIsMatch(kernel, query[k], row);
      var best := Best(kernel, query[k], row).value;
      LeftSumOfMore(ar, before, SumOfMinima(ar, kernel, query[..k], row).value, best);
      terms := before + [best];
      forall i | 0 <= i < |query| ensures IsMatch(kernel, query[i], row, terms[i]) {
        if i < k { assert query[..k][i] == query[i] && terms[i] == before[i]; }
      }
    }
  }

  /** None where some query vector has no defined match; otherwise the sum, unless it overflows. */
  ghost predicate IsSlicedDistance<S(!new), R, V>(
    ar: Arithmetic<S, R>, kernel: Kernel<V>, queries: seq<seq<V>>, stored: seq<seq<V>>, r: Result<Option<R>, Error>)
  {
    if exists i | 0 <= i < |queries| :: HasNoMatch(kernel, queries[i], stored) then r == Success(None)
    else exists total ::
      && IsDistance(ar, kernel, queries, stored, total)
      && r == if (ar.isFinite)((ar.narrow)(total)) then Success(Some((ar.narrow)(total)))
              else Failure(DistanceNotFinite)
  }

  lemma SumIsSlicedDistance<S(!new), R, V>(
    ar: Arithmetic<S, R>, kernel: Kernel<V>, queries: seq<seq<V>>, stored: seq<seq<V>>)
    ensures var sum := SumOfMinima(ar, kernel, queries, stored);
            IsSlicedDistance(ar, kernel, queries, stored,
              if sum.None? then Success(None)
              else if !(ar.isFinite)((ar.narrow)(sum.value)) then Failure(DistanceNotFinite)
              else Success(Some((ar.narrow)(sum.value))))
  {
    SumIsUndefined(ar, kernel, queries, stored);
    var sum := SumOfMinima(ar, kernel, queries, stored);
    if sum.Some? {
      var terms := SumIsADistance(ar, kernel, queries, stored);
      assert IsDistance(ar, kernel, queries, stored, sum.value);
    }
  }

  /** What scoring one row returns, in terms of the query's and the row's own slices. */
  ghost predicate IsRowDistance<S(!new), R, V(!new)>(
    ar: Arithmetic<S, R>, kernel: Kernel<V>, query: Query<V>, vectors: Vectors<V>, r: Result<Option<R>, Error>)
    requires vectors.dimension > 0
  {
    if vectors.elementType != query.elementType then r == Failure(TypeMismatch)
    else if vectors.nullSubvector || exists i | 0 <= i < |vectors.values| ::
                vectors.values[i].None? || !(kernel.isFinite)(vectors.values[i].value) then
      r == Failure(StoredNotFinite)
    else
      exists row: seq<V> ::
        && |row| == |vectors.values| && (forall i | 0 <= i < |row| :: vectors.values[i] == Some(row[i]))
        && IsSlicedDistance(ar, kernel, Slices(query.values, vectors.dimension), Slices(row, vectors.dimension), r)
  }

  lemma DistanceIsRowDistance<S(!new), R, V(!new)>(
    ar: Arithmetic<S, R>, kernel: Kernel<V>, query: Query<V>, vectors: Vectors<V>)
    requires vectors.dimension > 0
    ensures IsRowDistance(ar, kernel, query, vectors, DistanceOf(ar, kernel, query, vectors))
  {
    if vectors.elementType == query.elementType && IsStored(kernel, vectors) {
      var row := Plain(vectors.values);
      ChunksAreSlices(query.values, vectors.dimension);
      ChunksAreSlices(row, vectors.dimension);
      SumIsSlicedDistance(ar, kernel, Slices(query.values, vectors.dimension), Slices(row, vectors.dimension));
    }
  }

  lemma {:induction false} SumWithOneMore<S, R, V>(
    ar: Arithmetic<S, R>, kernel: Kernel<V>, queries: seq<seq<V>>, k: int, stored: seq<seq<V>>)
    requires 0 <= k < |queries|
    ensures SumOfMinima(ar, kernel, queries[..k + 1], stored) ==
            var before := SumOfMinima(ar, kernel, queries[..k], stored);
            var best := Best(kernel, queries[k], stored);
            if before.None? || best.None? then None else Some((ar.add)(before.value, (ar.lift)(best.value)))
  {
    assert queries[..k + 1][..k] == queries[..k];
  }

  /** Once a prefix has no defined sum, nor has the whole. */
  lemma {:induction false} UndefinedStays<S, R, V>(
    ar: Arithmetic<S, R>, kernel: Kernel<V>, queries: seq<seq<V>>, k: int, stored: seq<seq<V>>)
    requires 0 <= k <= |queries| && SumOfMinima(ar, kernel, queries[..k], stored).None?
    ensures SumOfMinima(ar, kernel, queries, stored).None?
    decreases |queries| - k
  {
    if k == |queries| {
      assert queries[..k] == queries;
    } else {
      SumWithOneMore(ar, kernel, queries, k, stored);
      UndefinedStays(ar, kernel, queries, k + 1, stored);
    }
  }

  /** The loop over the query vectors, with its early return. */
  method SumOfRow<S, R, V>(ar: Arithmetic<S, R>, kernel: Kernel<V>, queries: seq<seq<V>>, stored: seq<seq<V>>)
    returns (r: Option<S>)
    ensures r == SumOfMinima(ar, kernel, queries, stored)
  {
    var score := ar.zero;
    var k := 0;
    while k < |queries|
      invariant 0 <= k <= |queries|
      invariant SumOfMinima(ar, kernel, queries[..k], stored) == Some(score)
    {
      var best := BestOf(kernel, queries[k], stored);
      SumWithOneMore(ar, kernel, queries, k, stored);
      if best.None? {
        UndefinedStays(ar, kernel, queries, k + 1, stored);
        return None;
      }
      score := (ar.add)(score, (ar.lift)(best.value));
      k := k + 1;
    }
    assert queries[..k] == queries;
    return Some(score);
  }

  method RowDistance<S(!new), R, V(!new)>(ar: Arithmetic<S, R>, kernel: Kernel<V>, query: Query<V>, vectors: Vectors<V>)
    returns (r: Result<Option<R>, Error>)
    requires vectors.dimension > 0
    ensures r == DistanceOf(ar, kernel, query, vectors)
    ensures IsRowDistance(ar, kernel, query, vectors, r)
  {
    DistanceIsRowDistance(ar, kernel, query, vectors);
    if vectors.elementType != query.elementType { return Failure(TypeMismatch); }
    if vectors.nullSubvector || !AllFinite(kernel, vectors.values) { return Failure(StoredNotFinite); }
    var stored := Chunks(Plain(vectors.values), vectors.dimension);
    var score := SumOfRow(ar, kernel, Chunks(query.values, vectors.dimension), stored);
    if score.None? { return Success(None); }
    var narrowed := (ar.narrow)(score.value);
    if !(ar.isFinite)(narrowed) { return Failure(DistanceNotFinite); }
    return Success(Some(narrowed));
  }

  // ---------------------------------------------------------------------------
  // Exact scores of one batch of rows
  // ---------------------------------------------------------------------------

  /** One input batch: the nulls of its row ids, if it has any, and its vector column, if that
      resolves to a list column. */
  datatype Table<V> = Table(
    count: nat, columns: set<string>, rowIdIsNull: Option<seq<bool>>, vectors: Result<seq<Option<Vectors<V>>>, Error>)

  predicate ValidTable<V>(t: Table<V>) {
    && (t.rowIdIsNull.Some? ==> |t.rowIdIsNull.value| == t.count)
    && (t.vectors.Success? ==>
          && |t.vectors.value| == t.count
          && forall i | 0 <= i < t.count && t.vectors.value[i].Some? :: t.vectors.value[i].value.dimension > 0)
  }

  function RowOutcome<S, R, V>(
    ar: Arithmetic<S, R>, kernel: Kernel<V>, query: Query<V>, t: Table<V>, i: int): Result<Option<R>, Error>
    requires ValidTable(t) && t.vectors.Success? && 0 <= i < t.count
  {
    if t.rowIdIsNull.Some? && t.rowIdIsNull.value[i] then Success(None)
    else if t.vectors.value[i].None? then Success(None)
    else
      var v := t.vectors.value[i].value;
      if !v.isFixedSizeList then Failure(NotFixedSizeList)
      else if v.values == [] then Success(None)
      else if query.elementType == OtherElement then Failure(UnsupportedElement)
      else DistanceOf(ar, kernel, query, v)
  }

  /** What one row of the batch comes to. */
  ghost predicate IsRowResult<S(!new), R, V(!new)>(
    ar: Arithmetic<S, R>, kernel: Kernel<V>, query: Query<V>, t: Table<V>, i: int, r: Result<Option<R>, Error>)
    requires ValidTable(t) && t.vectors.Success? && 0 <= i < t.count
  {
    var vector := t.vectors.value[i];
    if t.rowIdIsNull.Some? && t.rowIdIsNull.value[i] then r == Success(None)
    else if vector.None? then r == Success(None)
    else if !vector.value.isFixedSizeList then r == Failure(NotFixedSizeList)
    else if |vector.value.values| == 0 then r == Success(None)
    else if query.elementType.OtherElement? then r == Failure(UnsupportedElement)
    else IsRowDistance(ar, kernel, query, vector.value, r)
  }

  lemma OutcomeIsRowResult<S(!new), R, V(!new)>(
    ar: Arithmetic<S, R>, kernel: Kernel<V>, query: Query<V>, t: Table<V>, i: int)
    requires ValidTable(t) && t.vectors.Success? && 0 <= i < t.count
    ensures IsRowResult(ar, kernel, query, t, i, RowOutcome(ar, kernel, query, t, i))
  {
    if t.vectors.value[i].Some? { DistanceIsRowDistance(ar, kernel, query, t.vectors.value[i].value); }
  }

  predicate HasOutcome<S, R, V>(
    ar: Arithmetic<S, R>, kernel: Kernel<V>, query: Query<V>, t: Table<V>, i: int)
    requires ValidTable(t) && t.vectors.Success? && 0 <= i < t.count
  {
    RowOutcome(ar, kernel, query, t, i).Success?
  }

  const DISTANCE: string := "_distance"

  datatype Kept<R> = Kept(row: int, score: R)

  function KeptRows<R>(scores: seq<Option<R>>): seq<Kept<R>> {
    if scores == [] then []
    else
      var k := |scores| - 1;
      KeptRows(scores[..k]) + (if scores[k].None? then [] else [Kept(k, scores[k].value)])
  }

  ghost predicate IsKept<R>(scores: seq<Option<R>>, x: Kept<R>) {
    0 <= x.row < |scores| && scores[x.row] == Some(x.score)
  }

  /** The mask keeps exactly the scored rows, in their order, next to their scores. */
  lemma {:induction false} KeptIsExact<R>(scores: seq<Option<R>>)
    ensures forall i | 0 <= i < |KeptRows(scores)| :: IsKept(scores, KeptRows(scores)[i])
    ensures forall x | IsKept(scores, x) :: x in KeptRows(scores)
    ensures forall i, j | 0 <= i < j < |KeptRows(scores)| :: KeptRows(scores)[i].row < KeptRows(scores)[j].row
  {
    if scores != [] {
      var k := |scores| - 1;
      var before := KeptRows(scores[..k]);
      KeptIsExact(scores[..k]);
      forall i | 0 <= i < |before| ensures before[i].row < k && IsKept(scores, before[i]) {
        assert IsKept(scores[..k], before[i]);
      }
      forall x | IsKept(scores, x) ensures x in KeptRows(scores) {
        if x.row < k { assert IsKept(scores[..k], x); }
      }
    }
  }

  lemma KeptHasScore<R>(scores: seq<Option<R>>, i: int)
    requires 0 <= i < |scores|
    ensures scores[i].Some? ==> Kept(i, scores[i].value) in KeptRows(scores)
  {
    KeptIsExact(scores);
    if scores[i].Some? { assert IsKept(scores, Kept(i, scores[i].value)); }
  }

  lemma UnkeptIsNone<R>(outcome: Option<R>, out: seq<Kept<R>>, i: int)
    requires outcome.Some? ==> Kept(i, outcome.value) in out
    requires !exists x :: x in out && x.row == i
    ensures outcome == None
  {
  }

  method ScoreRow<S(!new), R, V(!new)>(ar: Arithmetic<S, R>, kernel: Kernel<V>, query: Query<V>, t: Table<V>, i: int)
    returns (r: Result<Option<R>, Error>)
    requires ValidTable(t) && t.vectors.Success? && 0 <= i < t.count
    ensures r == RowOutcome(ar, kernel, query, t, i)
  {
    if t.rowIdIsNull.Some? && t.rowIdIsNull.value[i] { return Success(None); }
    if t.vectors.value[i].None? { return Success(None); }
    var v := t.vectors.value[i].value;
    if !v.isFixedSizeList { return Failure(NotFixedSizeList); }
    if |v.values| == 0 { return Success(None); }
    if query.elementType == OtherElement { return Failure(UnsupportedElement); }
    r := RowDistance(ar, kernel, query, v);
  }

  /** Nothing is scored in an empty batch. Otherwise one faulty row fails the batch, with the error
      of the first; if there is none, the output holds exactly the rows with a score, in order,
      next to the score of that very row. */
  method ExactBatch<S(!new), R, V(!new)>(
    ar: Arithmetic<S, R>, kernel: Kernel<V>, query: Query<V>, t: Table<V>, schema: seq<string>)
    returns (r: Result<seq<Kept<R>>, Error>)
    requires ValidTable(t)
    ensures t.count == 0 ==> r == Success([])
    ensures t.count > 0 ==>
              (r.Success? <==>
                 && t.vectors.Success? && (forall name | name in schema :: name == "_distance" || name in t.columns)
                 && forall i | 0 <= i < t.count :: HasOutcome(ar, kernel, query, t, i))
    ensures t.count > 0 && t.vectors.Failure? ==> r == Failure(t.vectors.error)
    ensures t.count > 0 && r.Failure? && t.vectors.Success? ==>
              || (exists i | 0 <= i < t.count ::
                    && RowOutcome(ar, kernel, query, t, i) == Failure(r.error)
                    && forall j | 0 <= j < i :: HasOutcome(ar, kernel, query, t, j))
              || (&& (forall i | 0 <= i < t.count :: HasOutcome(ar, kernel, query, t, i))
                  && exists name | name in schema :: r.error == MissingOutputColumn(name) && name !in t.columns)
    ensures t.count > 0 && r.Success? ==>
              && (forall x :: x in r.value <==>
                    0 <= x.row < t.count && RowOutcome(ar, kernel, query, t, x.row) == Success(Some(x.score)))
              && forall i, j | 0 <= i < j < |r.value| :: r.value[i].row < r.value[j].row
    ensures t.count > 0 && r.Success? ==>
              && (forall x | x in r.value :: IsRowResult(ar, kernel, query, t, x.row, Success(Some(x.score))))
              && forall i | 0 <= i < t.count && !(exists x :: x in r.value && x.row == i) ::
                   IsRowResult(ar, kernel, query, t, i, Success(None))
  {
    if t.count == 0 { return Success([]); }
    if t.vectors.Failure? { return Failure(t.vectors.error); }
    var scores: seq<Option<R>> := [];
    while |scores| < t.count
      invariant |scores| <= t.count
      invariant forall i | 0 <= i < |scores| ::
                  HasOutcome(ar, kernel, query, t, i) && RowOutcome(ar, kernel, query, t, i) == Success(scores[i])
    {
      var score := ScoreRow(ar, kernel, query, t, |scores|);
      if score.Failure? {
        assert !HasOutcome(ar, kernel, query, t, |scores|);
        return Failure(score.error);
      }
      scores := scores + [score.value];
    }
    var i := 0;
    while i < |schema|
      invariant 0 <= i <= |schema|
      invariant forall j | 0 <= j < i :: schema[j] == DISTANCE || schema[j] in t.columns
    {
      if schema[i] != DISTANCE && schema[i] !in t.columns {
        assert schema[i] in schema;
        return Failure(MissingOutputColumn(schema[i]));
      }
      i := i + 1;
    }
    KeptIsExact(scores);
    forall x: Kept<R>
      ensures x in KeptRows(scores) <==>
              0 <= x.row < t.count && RowOutcome(ar, kernel, query, t, x.row) == Success(Some(x.score))
    {
      assert IsKept(scores, x) <==> x in KeptRows(scores);
    }
    forall x | x in KeptRows(scores) ensures IsRowResult(ar, kernel, query, t, x.row, Success(Some(x.score))) {
      OutcomeIsRowResult(ar, kernel, query, t, x.row);
    }
    forall i | 0 <= i < t.count && !(exists x :: x in KeptRows(scores) && x.row == i)
      ensures IsRowResult(ar, kernel, query, t, i, Success(None))
    {
      KeptHasScore(scores, i);
      UnkeptIsNone(scores[i], KeptRows(scores), i);
      OutcomeIsRowResult(ar, kernel, query, t, i);
    }
    return Success(KeptRows(scores));
  }
}
