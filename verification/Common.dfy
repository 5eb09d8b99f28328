/** Option and result values, the machine-integer bounds, the checked operators and the escaping
    of texts that the other modules share. */
module Common {

  datatype Option<+T> = None | Some(value: T)

  datatype Result<+T, +E> = Success(value: T) | Failure(error: E)

  // A 64-bit target: `usize` and `u64` have the same range.
  const U32_MAX: nat := 0xFFFF_FFFF
  const U64_MAX: nat := 0xFFFF_FFFF_FFFF_FFFF

  function CheckedAdd(x: nat, y: nat): Option<nat> {
    if x + y <= U64_MAX then Some(x + y) else None
  }

  function CheckedMul(x: nat, y: nat): Option<nat> {
    if x * y <= U64_MAX then Some(x * y) else None
  }

  function Min(x: int, y: int): int {
    if x <= y then x else y
  }

  function Max(x: int, y: int): int {
    if x <= y then y else x
  }

  function Flatten<T>(parts: seq<seq<T>>): seq<T> {
    if parts == [] then [] else parts[0] + Flatten(parts[1..])
  }

  /** The parts follow each other, each whole. */
  lemma {:induction false} FlattenOfMore<T>(parts: seq<seq<T>>, part: seq<T>)
    ensures Flatten(parts + [part]) == Flatten(parts) + part
  {
    if parts == [] {
      assert (parts + [part])[1..] == [];
      assert part + Flatten<T>([]) == part && [] + part == part;
    } else {
      assert (parts + [part])[1..] == parts[1..] + [part];
      FlattenOfMore(parts[1..], part);
      assert parts[0] + (Flatten(parts[1..]) + part) == (parts[0] + Flatten(parts[1..])) + part;
    }
  }

  /** Every NUL becomes the two characters of its escape. */
  function Sanitize(message: string): string {
    if message == "" then ""
    else (if message[0] == '\0' then "\\0" else [message[0]]) + Sanitize(message[1..])
  }

  /** The result can be handed to C, and it is the text itself exactly when that could. */
  lemma {:induction false} SanitizedHasNoNul(message: string)
    ensures '\0' !in Sanitize(message)
    ensures |Sanitize(message)| >= |message|
    ensures Sanitize(message) == message <==> '\0' !in message
  {
    if message != "" {
      SanitizedHasNoNul(message[1..]);
      assert message == [message[0]] + message[1..];
    }
  }

  /** Character by character: only a NUL changes. */
  lemma {:induction false} SanitizeEscapes(a: string, c: char, b: string)
    ensures Sanitize(a + [c] + b) == Sanitize(a) + (if c == '\0' then ['\\', '0'] else [c]) + Sanitize(b)
  {
    if a == "" {
      assert (a + [c] + b)[1..] == b;
    } else {
      assert (a + [c] + b)[1..] == a[1..] + [c] + b;
      SanitizeEscapes(a[1..], c, b);
    }
  }

  // ---------------------------------------------------------------------------
  // Filtered sequences
  // ---------------------------------------------------------------------------

  /** `r` is what stands in `s` at the positions `at`, in the order of `s`. */
  ghost predicate Picks<T>(s: seq<T>, r: seq<T>, at: seq<int>) {
    && |at| == |r|
    && (forall k | 0 <= k < |at| :: 0 <= at[k] < |s| && r[k] == s[at[k]])
    && forall j, k | 0 <= j < k < |at| :: at[j] < at[k]
  }

  lemma PicksNothing<T>()
    ensures Picks<T>([], [], [])
  {
  }

  function Shift(at: seq<int>): seq<int> {
    seq(|at|, k requires 0 <= k < |at| => at[k] + 1)
  }

  lemma ShiftHolds(at: seq<int>, i: int)
    ensures i + 1 in Shift(at) <==> i in at
  {
    if i in at {
      var k :| 0 <= k < |at| && at[k] == i;
      assert Shift(at)[k] == i + 1;
    }
    if i + 1 in Shift(at) {
      var k :| 0 <= k < |at| && Shift(at)[k] == i + 1;
      assert at[k] == i;
    }
  }

  lemma PicksLater<T>(x: T, s: seq<T>, r: seq<T>, at: seq<int>)
    requires Picks(s, r, at)
    ensures Picks([x] + s, r, Shift(at)) && 0 !in Shift(at)
  {
    ShiftHolds(at, -1);
  }

  lemma PicksFirst<T>(x: T, s: seq<T>, r: seq<T>, at: seq<int>)
    requires Picks(s, r, at)
    ensures Picks([x] + s, [x] + r, [0] + Shift(at))
  {
    PicksLater(x, s, r, at);
    var all, picked := [0] + Shift(at), [x] + r;
    forall k | 0 <= k < |all| ensures 0 <= all[k] < |[x] + s| && picked[k] == ([x] + s)[all[k]] {
      if k > 0 { assert all[k] == Shift(at)[k - 1] && picked[k] == r[k - 1]; }
    }
    forall j, k | 0 <= j < k < |all| ensures all[j] < all[k] {
      if j > 0 { assert Shift(at)[j - 1] < Shift(at)[k - 1]; }
    }
  }

  lemma FirstInPositions(at: seq<int>, i: int)
    requires i >= 0
    ensures i + 1 in [0] + Shift(at) <==> i in at
  {
    ShiftHolds(at, i);
  }

  lemma PicksHead<T>(x: T, s: seq<T>, r: seq<T>, at: seq<int>, take: bool) returns (all: seq<int>)
    requires Picks(s, r, at)
    ensures Picks([x] + s, (if take then [x] else []) + r, all)
    ensures 0 in all <==> take
    ensures forall i | 0 <= i < |s| :: i + 1 in all <==> i in at
  {
    PicksLater(x, s, r, at);
    if take {
      all := [0] + Shift(at);
      PicksFirst(x, s, r, at);
      forall i | 0 <= i < |s| ensures i + 1 in all <==> i in at { FirstInPositions(at, i); }
    } else {
      all := Shift(at);
      assert [] + r == r;
      forall i | 0 <= i < |s| ensures i + 1 in all <==> i in at { ShiftHolds(at, i); }
    }
  }

  lemma PicksLast<T>(s: seq<T>, x: T, r: seq<T>, at: seq<int>, take: bool) returns (all: seq<int>)
    requires Picks(s, r, at)
    ensures Picks(s + [x], r + (if take then [x] else []), all)
    ensures |s| in all <==> take
    ensures forall i | 0 <= i < |s| :: i in all <==> i in at
  {
    all := at + (if take then [|s|] else []);
  }

  function FilterBy<T>(s: seq<T>, keep: T -> bool): seq<T> {
    if s == [] then [] else (if keep(s[0]) then [s[0]] else []) + FilterBy(s[1..], keep)
  }

  /** What is kept stands where it stood, none of it is lost and none repeated. */
  lemma {:induction false} FilterPicks<T>(s: seq<T>, keep: T -> bool) returns (at: seq<int>)
    ensures Picks(s, FilterBy(s, keep), at)
    ensures forall i | 0 <= i < |s| :: i in at <==> keep(s[i])
  {
    if s == [] {
      at := [];
    } else {
      var later := FilterPicks(s[1..], keep);
      at := PicksHead(s[0], s[1..], FilterBy(s[1..], keep), later, keep(s[0]));
      assert s == [s[0]] + s[1..];
      forall i | 0 <= i < |s| ensures i in at <==> keep(s[i]) {
        if i > 0 { assert s[1..][i - 1] == s[i] && (i - 1 in later <==> i - 1 + 1 in at); }
      }
    }
  }
}
