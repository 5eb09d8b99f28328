/** Scalar index expressions under three-valued logic, and their restriction to one
    physical index (src/scalar_segment.rs). */
module ScalarExpression {
  import opened Common

  const MAX_EXPRESSION_NODES: nat := 128
  const MAX_EXPRESSION_DEPTH: nat := 32

  /** A scalar of some data type: values of different kinds are not comparable. */
  datatype Scalar = Null | Value(kind: nat, number: int)

  datatype Bound = Included(value: Scalar) | Excluded(value: Scalar) | Unbounded

  /** `Opaque` stands for every query the cost model does not understand. */
  datatype IndexQuery =
    | Equals(value: Scalar)
    | IsNull
    | IsIn(values: seq<Scalar>)
    | Range(start: Bound, end: Bound)
    | Opaque(id: nat)

  datatype IndexKind = BTree | Bitmap | LabelList | OtherKind

  datatype Search = Search(column: string, indexName: string, indexKind: IndexKind, query: IndexQuery)

  datatype Expr =
    | Query(search: Search)
    | And(lhs: Expr, rhs: Expr)
    | Or(lhs: Expr, rhs: Expr)
    | Not(inner: Expr)

  // ---------------------------------------------------------------------------
  // Kleene semantics
  // ---------------------------------------------------------------------------

  datatype Truth = True | False | Unknown

  function KleeneAnd(a: Truth, b: Truth): Truth {
    if a == False || b == False then False else if a == True && b == True then True else Unknown
  }

  function KleeneOr(a: Truth, b: Truth): Truth {
    if a == True || b == True then True else if a == False && b == False then False else Unknown
  }

  function KleeneNot(a: Truth): Truth {
    match a case True => False case False => True case Unknown => Unknown
  }

  /** The strong Kleene connectives. */
  lemma KleeneTables(a: Truth, b: Truth)
    ensures KleeneAnd(a, b) == True <==> a == True && b == True
    ensures KleeneAnd(a, b) == False <==> a == False || b == False
    ensures KleeneOr(a, b) == True <==> a == True || b == True
    ensures KleeneOr(a, b) == False <==> a == False && b == False
    ensures KleeneNot(a) == True <==> a == False
    ensures KleeneNot(a) == False <==> a == True
  {
  }

  /** What one row gives for each search; every row is some valuation. */
  type Valuation = Search -> Truth

  function Eval(e: Expr, row: Valuation): Truth {
    match e
    case Query(search) => row(search)
    case And(lhs, rhs) => KleeneAnd(Eval(lhs, row), Eval(rhs, row))
    case Or(lhs, rhs) => KleeneOr(Eval(lhs, row), Eval(rhs, row))
    case Not(inner) => KleeneNot(Eval(inner, row))
  }

  // ---------------------------------------------------------------------------
  // The restriction to one index
  // ---------------------------------------------------------------------------

  datatype Reason = ExpressionBudget | FieldPath

  datatype Target = Target(indexName: string, column: string)

  /** A result together with the node budget that is left. */
  datatype Scoped = Scoped(result: Result<Option<Expr>, Reason>, remaining: nat)

  function ScopedExpression(e: Expr, target: Target, requireComplete: bool, depth: nat, remaining: nat): Scoped
    decreases e
  {
    if depth > MAX_EXPRESSION_DEPTH || remaining == 0 then
      Scoped(Failure(ExpressionBudget), remaining)
    else
      match e
      case Query(search) =>
        Scoped(if search.indexName != target.indexName then Success(None)
               else if search.column != target.column then Failure(FieldPath)
               else Success(Some(e)),
               remaining - 1)
      case And(lhs, rhs) =>
        var a := ScopedExpression(lhs, target, requireComplete, depth + 1, remaining - 1);
        if a.result.Failure? then a else
        var b := ScopedExpression(rhs, target, requireComplete, depth + 1, a.remaining);
        if b.result.Failure? then b else
        Scoped(Success(
                 match (a.result.value, b.result.value)
                 case (Some(l), Some(r)) => Some(And(l, r))
                 case (l, r) => if requireComplete then None else if l.Some? then l else r),
               b.remaining)
      case Or(lhs, rhs) =>
        var a := ScopedExpression(lhs, target, requireComplete, depth + 1, remaining - 1);
        if a.result.Failure? then a else
        var b := ScopedExpression(rhs, target, requireComplete, depth + 1, a.remaining);
        if b.result.Failure? then b else
        Scoped(Success(
                 match (a.result.value, b.result.value)
                 case (Some(l), Some(r)) => Some(Or(l, r))
                 case (l, r) => None),
               b.remaining)
      case Not(inner) =>
        var a := ScopedExpression(inner, target, true, depth + 1, remaining - 1);
        if a.result.Failure? then a else
        Scoped(Success(match a.result.value case Some(i) => Some(Not(i)) case None => None), a.remaining)
  }

  // ---------------------------------------------------------------------------
  // Reference definitions: replace what is foreign by TRUE, then simplify
  // ---------------------------------------------------------------------------

  predicate IsForeign(search: Search, target: Target) {
    search.indexName != target.indexName
  }

  predicate IsMisnamed(search: Search, target: Target) {
    search.indexName == target.indexName && search.column != target.column
  }

  function Leaves(e: Expr): set<Search> {
    match e
    case Query(search) => {search}
    case And(lhs, rhs) => Leaves(lhs) + Leaves(rhs)
    case Or(lhs, rhs) => Leaves(lhs) + Leaves(rhs)
    case Not(inner) => Leaves(inner)
  }

  predicate HasForeign(e: Expr, target: Target) {
    exists search | search in Leaves(e) :: IsForeign(search, target)
  }

  predicate HasMisnamed(e: Expr, target: Target) {
    exists search | search in Leaves(e) :: IsMisnamed(search, target)
  }

  /** Expressions with the constant TRUE. */
  datatype Formula =
    | Top
    | Atom(search: Search)
    | Conj(lhs: Formula, rhs: Formula)
    | Disj(lhs: Formula, rhs: Formula)
    | Neg(inner: Formula)

  function Embed(e: Expr): Formula {
    match e
    case Query(search) => Atom(search)
    case And(lhs, rhs) => Conj(Embed(lhs), Embed(rhs))
    case Or(lhs, rhs) => Disj(Embed(lhs), Embed(rhs))
    case Not(inner) => Neg(Embed(inner))
  }

  function Denote(f: Formula, row: Valuation): Truth {
    match f
    case Top => True
    case Atom(search) => row(search)
    case Conj(lhs, rhs) => KleeneAnd(Denote(lhs, row), Denote(rhs, row))
    case Disj(lhs, rhs) => KleeneOr(Denote(lhs, row), Denote(rhs, row))
    case Neg(inner) => KleeneNot(Denote(inner, row))
  }

  /** Each foreign leaf, and each NOT above a foreign leaf, becomes TRUE. */
  function Replace(e: Expr, target: Target): Formula {
    match e
    case Query(search) => if IsForeign(search, target) then Top else Atom(search)
    case And(lhs, rhs) => Conj(Replace(lhs, target), Replace(rhs, target))
    case Or(lhs, rhs) => Disj(Replace(lhs, target), Replace(rhs, target))
    case Not(inner) => if HasForeign(inner, target) then Top else Neg(Embed(inner))
  }

  function Simplify(f: Formula): Formula {
    match f
    case Top => Top
    case Atom(_) => f
    case Conj(lhs, rhs) =>
      var l, r := Simplify(lhs), Simplify(rhs);
      if l.Top? then r else if r.Top? then l else Conj(l, r)
    case Disj(lhs, rhs) =>
      var l, r := Simplify(lhs), Simplify(rhs);
      if l.Top? || r.Top? then Top else Disj(l, r)
    case Neg(_) => f
  }

  function EmbedOption(o: Option<Expr>): Formula {
    match o case Some(e) => Embed(e) case None => Top
  }

  lemma {:induction false} EmbedMeaning(e: Expr, row: Valuation)
    ensures Denote(Embed(e), row) == Eval(e, row)
    ensures !Embed(e).Top?
  {
    match e
    case Query(_) =>
    case And(lhs, rhs) => EmbedMeaning(lhs, row); EmbedMeaning(rhs, row);
    case Or(lhs, rhs) => EmbedMeaning(lhs, row); EmbedMeaning(rhs, row);
    case Not(inner) => EmbedMeaning(inner, row);
  }

  lemma {:induction false} SimplifyMeaning(f: Formula, row: Valuation)
    ensures Denote(Simplify(f), row) == Denote(f, row)
  {
    match f
    case Top =>
    case Atom(_) =>
    case Conj(lhs, rhs) => SimplifyMeaning(lhs, row); SimplifyMeaning(rhs, row);
    case Disj(lhs, rhs) => SimplifyMeaning(lhs, row); SimplifyMeaning(rhs, row);
    case Neg(_) =>
  }

  lemma {:induction false} ReplaceWeakens(e: Expr, target: Target, row: Valuation)
    requires Eval(e, row) == True
    ensures Denote(Replace(e, target), row) == True
  {
    match e
    case Query(_) =>
    case And(lhs, rhs) => ReplaceWeakens(lhs, target, row); ReplaceWeakens(rhs, target, row);
    case Or(lhs, rhs) =>
      if Eval(lhs, row) == True { ReplaceWeakens(lhs, target, row); } else { ReplaceWeakens(rhs, target, row); }
    case Not(inner) => EmbedMeaning(inner, row);
  }

  /** A row of which all foreign leaves are TRUE. */
  function Assuming(row: Valuation, target: Target): Valuation {
    (search: Search) => if IsForeign(search, target) then True else row(search)
  }

  predicate NegatesForeign(e: Expr, target: Target) {
    match e
    case Query(_) => false
    case And(lhs, rhs) => NegatesForeign(lhs, target) || NegatesForeign(rhs, target)
    case Or(lhs, rhs) => NegatesForeign(lhs, target) || NegatesForeign(rhs, target)
    case Not(inner) => HasForeign(inner, target)
  }

  lemma {:induction false} NoForeignNoChange(e: Expr, target: Target, row: Valuation)
    requires !HasForeign(e, target)
    ensures Eval(e, Assuming(row, target)) == Eval(e, row)
  {
    match e
    case Query(search) => assert search in Leaves(e);
    case And(lhs, rhs) =>
      assert forall s | s in Leaves(lhs) || s in Leaves(rhs) :: s in Leaves(e);
      NoForeignNoChange(lhs, target, row);
      NoForeignNoChange(rhs, target, row);
    case Or(lhs, rhs) =>
      assert forall s | s in Leaves(lhs) || s in Leaves(rhs) :: s in Leaves(e);
      NoForeignNoChange(lhs, target, row);
      NoForeignNoChange(rhs, target, row);
    case Not(inner) =>
      assert forall s | s in Leaves(inner) :: s in Leaves(e);
      NoForeignNoChange(inner, target, row);
  }

  /** Outside of negations the replacement has, on every row, exactly the value of the input with its
      foreign leaves TRUE; and a negation becomes TRUE exactly when it has a foreign leaf. */
  lemma {:induction false} ReplaceIsExact(e: Expr, target: Target, row: Valuation)
    ensures !NegatesForeign(e, target) ==> Denote(Replace(e, target), row) == Eval(e, Assuming(row, target))
    ensures e.Not? ==> (Replace(e, target).Top? <==> HasForeign(e.inner, target))
    ensures e.Not? && !HasForeign(e.inner, target) ==> Denote(Replace(e, target), row) == Eval(e, row)
    ensures e.And? ==>
              Denote(Replace(e, target), row) ==
              KleeneAnd(Denote(Replace(e.lhs, target), row), Denote(Replace(e.rhs, target), row))
    ensures e.Or? ==>
              Denote(Replace(e, target), row) ==
              KleeneOr(Denote(Replace(e.lhs, target), row), Denote(Replace(e.rhs, target), row))
  {
    match e
    case Query(_) =>
    case And(lhs, rhs) => ReplaceIsExact(lhs, target, row); ReplaceIsExact(rhs, target, row);
    case Or(lhs, rhs) => ReplaceIsExact(lhs, target, row); ReplaceIsExact(rhs, target, row);
    case Not(inner) =>
      EmbedMeaning(inner, row);
      if !HasForeign(inner, target) { NoForeignNoChange(inner, target, row); }
  }

  // ---------------------------------------------------------------------------
  // What the restriction keeps
  // ---------------------------------------------------------------------------

  /** Under `require_complete` a subtree survives whole or not at all. */
  lemma {:induction false} CompleteKeepsEverything(e: Expr, target: Target, depth: nat, remaining: nat)
    ensures var r := ScopedExpression(e, target, true, depth, remaining).result;
            r.Success? ==> r.value == if HasForeign(e, target) then None else Some(e)
  {
    if depth <= MAX_EXPRESSION_DEPTH && remaining > 0 {
      match e
      case Query(search) => assert search in Leaves(e);
      case And(lhs, rhs) =>
        CompleteKeepsEverything(lhs, target, depth + 1, remaining - 1);
        CompleteKeepsEverything(rhs, target, depth + 1,
                                ScopedExpression(lhs, target, true, depth + 1, remaining - 1).remaining);
        assert HasForeign(e, target) <==> HasForeign(lhs, target) || HasForeign(rhs, target);
      case Or(lhs, rhs) =>
        CompleteKeepsEverything(lhs, target, depth + 1, remaining - 1);
        CompleteKeepsEverything(rhs, target, depth + 1,
                                ScopedExpression(lhs, target, true, depth + 1, remaining - 1).remaining);
        assert HasForeign(e, target) <==> HasForeign(lhs, target) || HasForeign(rhs, target);
      case Not(inner) =>
        CompleteKeepsEverything(inner, target, depth + 1, remaining - 1);
    }
  }

  /** Without it, exactly the foreign leaves and the NOTs above one are read as TRUE and
      simplified away; nothing is left precisely when that simplifies to TRUE. */
  lemma {:induction false} DropsExactlyTheForeign(e: Expr, target: Target, depth: nat, remaining: nat)
    ensures var r := ScopedExpression(e, target, false, depth, remaining).result;
            r.Success? ==>
              && EmbedOption(r.value) == Simplify(Replace(e, target))
              && (r.value.None? <==> Simplify(Replace(e, target)).Top?)
  {
    if depth <= MAX_EXPRESSION_DEPTH && remaining > 0 {
      match e
      case Query(_) =>
      case And(lhs, rhs) =>
        DropsExactlyTheForeign(lhs, target, depth + 1, remaining - 1);
        DropsExactlyTheForeign(rhs, target, depth + 1,
                               ScopedExpression(lhs, target, false, depth + 1, remaining - 1).remaining);
      case Or(lhs, rhs) =>
        DropsExactlyTheForeign(lhs, target, depth + 1, remaining - 1);
        DropsExactlyTheForeign(rhs, target, depth + 1,
                               ScopedExpression(lhs, target, false, depth + 1, remaining - 1).remaining);
      case Not(inner) =>
        CompleteKeepsEverything(inner, target, depth + 1, remaining - 1);
    }
  }

  /** The rows of the input are never lost, for any row and any truth of the dropped parts. */
  lemma ScopedIsSuperset(e: Expr, target: Target, complete: bool, depth: nat, remaining: nat, row: Valuation)
    requires Eval(e, row) == True
    ensures var r := ScopedExpression(e, target, complete, depth, remaining).result;
            r.Success? && r.value.Some? ==> Eval(r.value.value, row) == True
  {
    var r := ScopedExpression(e, target, complete, depth, remaining).result;
    if r.Success? && r.value.Some? {
      if complete {
        CompleteKeepsEverything(e, target, depth, remaining);
      } else {
        DropsExactlyTheForeign(e, target, depth, remaining);
        ReplaceWeakens(e, target, row);
        SimplifyMeaning(Replace(e, target), row);
        EmbedMeaning(r.value.value, row);
      }
    }
  }

  /** Every surviving leaf is one the selected segment can answer. */
  lemma {:induction false} ScopedNamesOnlyTheTarget(e: Expr, target: Target, complete: bool, depth: nat, remaining: nat)
    ensures var r := ScopedExpression(e, target, complete, depth, remaining).result;
            r.Success? && r.value.Some? ==>
              && Leaves(r.value.value) <= Leaves(e)
              && forall search | search in Leaves(r.value.value) ::
                search.indexName == target.indexName && search.column == target.column
  {
    if depth <= MAX_EXPRESSION_DEPTH && remaining > 0 {
      match e
      case Query(_) =>
      case And(lhs, rhs) =>
        ScopedNamesOnlyTheTarget(lhs, target, complete, depth + 1, remaining - 1);
        ScopedNamesOnlyTheTarget(rhs, target, complete, depth + 1,
                                 ScopedExpression(lhs, target, complete, depth + 1, remaining - 1).remaining);
      case Or(lhs, rhs) =>
        ScopedNamesOnlyTheTarget(lhs, target, complete, depth + 1, remaining - 1);
        ScopedNamesOnlyTheTarget(rhs, target, complete, depth + 1,
                                 ScopedExpression(lhs, target, complete, depth + 1, remaining - 1).remaining);
      case Not(inner) =>
        ScopedNamesOnlyTheTarget(inner, target, true, depth + 1, remaining - 1);
    }
  }

  // ---------------------------------------------------------------------------
  // The budget: the recursion behaves like one scan of the nodes in preorder
  // ---------------------------------------------------------------------------

  datatype Visit = Visit(depth: nat, misnamed: bool)

  function Preorder(e: Expr, target: Target, depth: nat): seq<Visit> {
    match e
    case Query(search) => [Visit(depth, IsMisnamed(search, target))]
    case And(lhs, rhs) => [Visit(depth, false)] + (Preorder(lhs, target, depth + 1) + Preorder(rhs, target, depth + 1))
    case Or(lhs, rhs) => [Visit(depth, false)] + (Preorder(lhs, target, depth + 1) + Preorder(rhs, target, depth + 1))
    case Not(inner) => [Visit(depth, false)] + Preorder(inner, target, depth + 1)
  }

  function FirstFault(visits: seq<Visit>, remaining: nat): Option<Reason> {
    if visits == [] then None
    else if visits[0].depth > MAX_EXPRESSION_DEPTH || remaining == 0 then Some(ExpressionBudget)
    else if visits[0].misnamed then Some(FieldPath)
    else FirstFault(visits[1..], remaining - 1)
  }

  lemma {:induction false} FirstFaultOfConcat(a: seq<Visit>, b: seq<Visit>, remaining: nat)
    ensures FirstFault(a, remaining).None? ==>
              |a| <= remaining && FirstFault(a + b, remaining) == FirstFault(b, remaining - |a|)
    ensures FirstFault(a, remaining).Some? ==> FirstFault(a + b, remaining) == FirstFault(a, remaining)
  {
    if a == [] {
      assert a + b == b;
    } else if remaining > 0 {
      assert (a + b)[1..] == a[1..] + b;
      FirstFaultOfConcat(a[1..], b, remaining - 1);
    }
  }

  lemma FirstFaultOfPair(head: Visit, a: seq<Visit>, b: seq<Visit>, remaining: nat)
    requires !head.misnamed && head.depth <= MAX_EXPRESSION_DEPTH && remaining > 0
    ensures match FirstFault(a, remaining - 1)
            case Some(reason) => FirstFault([head] + (a + b), remaining) == Some(reason)
            case None =>
              |a| <= remaining - 1 && FirstFault([head] + (a + b), remaining) == FirstFault(b, remaining - 1 - |a|)
  {
    assert ([head] + (a + b))[1..] == a + b;
    FirstFaultOfConcat(a, b, remaining - 1);
  }

  predicate Follows(s: Scoped, visits: seq<Visit>, remaining: nat) {
    match FirstFault(visits, remaining)
    case Some(reason) => s.result == Failure(reason)
    case None => s.result.Success? && |visits| <= remaining && s.remaining == remaining - |visits|
  }

  lemma PairFollows(s: Scoped, a: Scoped, b: Scoped, head: Visit, va: seq<Visit>, vb: seq<Visit>, remaining: nat)
    requires !head.misnamed && head.depth <= MAX_EXPRESSION_DEPTH && remaining > 0
    requires Follows(a, va, remaining - 1)
    requires a.result.Failure? ==> s.result == a.result
    requires a.result.Success? ==> Follows(b, vb, a.remaining)
    requires a.result.Success? && b.result.Failure? ==> s.result == b.result
    requires a.result.Success? && b.result.Success? ==> s.result.Success? && s.remaining == b.remaining
    ensures Follows(s, [head] + (va + vb), remaining)
  {
    FirstFaultOfPair(head, va, vb, remaining);
  }

  /** It fails exactly where the scan first meets a fault, with that fault, and a success
      takes one unit of the budget for every node. */
  lemma {:induction false} ScopedFollowsPreorder(e: Expr, target: Target, complete: bool, depth: nat, remaining: nat)
    ensures Follows(ScopedExpression(e, target, complete, depth, remaining), Preorder(e, target, depth), remaining)
  {
    var s := ScopedExpression(e, target, complete, depth, remaining);
    if depth <= MAX_EXPRESSION_DEPTH && remaining > 0 {
      match e
      case Query(search) =>
      case And(lhs, rhs) =>
        var a := ScopedExpression(lhs, target, complete, depth + 1, remaining - 1);
        var b := ScopedExpression(rhs, target, complete, depth + 1, a.remaining);
        ScopedFollowsPreorder(lhs, target, complete, depth + 1, remaining - 1);
        ScopedFollowsPreorder(rhs, target, complete, depth + 1, a.remaining);
        PairFollows(s, a, b, Visit(depth, false), Preorder(lhs, target, depth + 1), Preorder(rhs, target, depth + 1),
                    remaining);
      case Or(lhs, rhs) =>
        var a := ScopedExpression(lhs, target, complete, depth + 1, remaining - 1);
        var b := ScopedExpression(rhs, target, complete, depth + 1, a.remaining);
        ScopedFollowsPreorder(lhs, target, complete, depth + 1, remaining - 1);
        ScopedFollowsPreorder(rhs, target, complete, depth + 1, a.remaining);
        PairFollows(s, a, b, Visit(depth, false), Preorder(lhs, target, depth + 1), Preorder(rhs, target, depth + 1),
                    remaining);
      case Not(inner) =>
        ScopedFollowsPreorder(inner, target, true, depth + 1, remaining - 1);
        assert Preorder(e, target, depth)[1..] == Preorder(inner, target, depth + 1);
    }
  }

  function NodeCount(e: Expr): nat {
    match e
    case Query(_) => 1
    case And(lhs, rhs) => 1 + NodeCount(lhs) + NodeCount(rhs)
    case Or(lhs, rhs) => 1 + NodeCount(lhs) + NodeCount(rhs)
    case Not(inner) => 1 + NodeCount(inner)
  }

  /** The number of edges on the longest path to a leaf. */
  function Height(e: Expr): nat {
    match e
    case Query(_) => 0
    case And(lhs, rhs) => 1 + Max(Height(lhs), Height(rhs))
    case Or(lhs, rhs) => 1 + Max(Height(lhs), Height(rhs))
    case Not(inner) => 1 + Height(inner)
  }

  lemma {:induction false} PreorderShape(e: Expr, target: Target, depth: nat)
    ensures |Preorder(e, target, depth)| == NodeCount(e)
    ensures (forall v | v in Preorder(e, target, depth) :: v.depth <= MAX_EXPRESSION_DEPTH)
            <==> depth + Height(e) <= MAX_EXPRESSION_DEPTH
    ensures (exists v | v in Preorder(e, target, depth) :: v.misnamed) <==> HasMisnamed(e, target)
  {
    match e
    case Query(search) => assert search in Leaves(e);
    case And(lhs, rhs) =>
      PreorderShape(lhs, target, depth + 1);
      PreorderShape(rhs, target, depth + 1);
      PreorderOfPair(Visit(depth, false), Preorder(lhs, target, depth + 1), Preorder(rhs, target, depth + 1));
      assert HasMisnamed(e, target) <==> HasMisnamed(lhs, target) || HasMisnamed(rhs, target);
    case Or(lhs, rhs) =>
      PreorderShape(lhs, target, depth + 1);
      PreorderShape(rhs, target, depth + 1);
      PreorderOfPair(Visit(depth, false), Preorder(lhs, target, depth + 1), Preorder(rhs, target, depth + 1));
      assert HasMisnamed(e, target) <==> HasMisnamed(lhs, target) || HasMisnamed(rhs, target);
    case Not(inner) =>
      PreorderShape(inner, target, depth + 1);
      PreorderOfPair(Visit(depth, false), Preorder(inner, target, depth + 1), []);
      assert Preorder(inner, target, depth + 1) + [] == Preorder(inner, target, depth + 1);
  }

  lemma PreorderOfPair(head: Visit, a: seq<Visit>, b: seq<Visit>)
    ensures forall v :: v in [head] + (a + b) <==> v == head || v in a || v in b
  {
  }

  lemma {:induction false} NoFaultMeans(visits: seq<Visit>, remaining: nat)
    ensures FirstFault(visits, remaining).None? <==>
            && |visits| <= remaining
            && (forall v | v in visits :: v.depth <= MAX_EXPRESSION_DEPTH)
            && !(exists v | v in visits :: v.misnamed)
  {
    if visits != [] {
      assert visits == [visits[0]] + visits[1..];
      if remaining > 0 { NoFaultMeans(visits[1..], remaining - 1); }
    }
  }

  /** The restriction that the planner's query gets, on a row: the value of the input with foreign leaves
      TRUE, wherever no negation has one. */
  lemma ScopedIsExact(e: Expr, target: Target, depth: nat, remaining: nat, row: Valuation)
    requires !NegatesForeign(e, target)
    requires ScopedExpression(e, target, false, depth, remaining).result.Success?
    ensures var r := ScopedExpression(e, target, false, depth, remaining).result.value;
            (if r.Some? then Eval(r.value, row) else True) == Eval(e, Assuming(row, target))
  {
    var r := ScopedExpression(e, target, false, depth, remaining).result.value;
    DropsExactlyTheForeign(e, target, depth, remaining);
    SimplifyMeaning(Replace(e, target), row);
    ReplaceIsExact(e, target, row);
    if r.Some? { EmbedMeaning(r.value, row); }
  }

  /** When the restriction succeeds, and what it then leaves of the budget. */
  lemma ScopedSucceedsIff(e: Expr, target: Target, complete: bool, depth: nat, remaining: nat)
    ensures var s := ScopedExpression(e, target, complete, depth, remaining);
            && (s.result.Success? <==>
                && !HasMisnamed(e, target)
                && NodeCount(e) <= remaining
                && depth + Height(e) <= 32)
            && (s.result.Success? ==> s.remaining == remaining - NodeCount(e))
  {
    ScopedFollowsPreorder(e, target, complete, depth, remaining);
    PreorderShape(e, target, depth);
    NoFaultMeans(Preorder(e, target, depth), remaining);
  }
}
