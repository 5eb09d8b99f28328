/** Sorting index entries by name and then UUID, so that their listing order is irrelevant. */
module KeyOrder {

  /** Lexicographic order on names. */
  predicate NameLeq(a: string, b: string) {
    a == [] || (b != [] && (a[0] < b[0] || (a[0] == b[0] && NameLeq(a[1..], b[1..]))))
  }

  lemma {:induction false} NameLeqTotal(a: string, b: string)
    ensures NameLeq(a, b) || NameLeq(b, a)
    ensures NameLeq(a, b) && NameLeq(b, a) ==> a == b
  {
    if a != [] && b != [] && a[0] == b[0] {
      NameLeqTotal(a[1..], b[1..]);
      assert a == [a[0]] + a[1..] && b == [b[0]] + b[1..];
    }
  }

  lemma {:induction false} NameLeqTransitive(a: string, b: string, c: string)
    requires NameLeq(a, b) && NameLeq(b, c)
    ensures NameLeq(a, c)
  {
    if a != [] && a[0] == b[0] == c[0] {
      NameLeqTransitive(a[1..], b[1..], c[1..]);
    }
  }

  /** The names agree up to `k`, where the first one ends or has the smaller character. */
  predicate ComesFirstAt(a: string, b: string, k: nat) {
    && k <= |a| && k <= |b| && (forall i | 0 <= i < k :: a[i] == b[i])
    && (k == |a| || (k < |b| && a[k] < b[k]))
  }

  lemma {:induction false} FirstDifference(a: string, b: string) returns (k: nat)
    requires NameLeq(a, b)
    ensures ComesFirstAt(a, b, k)
  {
    if a == [] || a[0] < b[0] {
      k := 0;
    } else {
      var rest := FirstDifference(a[1..], b[1..]);
      k := rest + 1;
      forall i | 0 <= i < k ensures a[i] == b[i] {
        if i > 0 { assert a[1..][i - 1] == b[1..][i - 1]; }
      }
    }
  }

  lemma {:induction false} ComesFirst(a: string, b: string, k: nat)
    requires ComesFirstAt(a, b, k)
    ensures NameLeq(a, b)
  {
    if k > 0 {
      forall i | 0 <= i < k - 1 ensures a[1..][i] == b[1..][i] { assert a[i + 1] == b[i + 1]; }
      ComesFirst(a[1..], b[1..], k - 1);
    }
  }

  /** A prefix comes first, and otherwise the first difference decides. */
  lemma NameLeqIsLexicographic(a: string, b: string)
    ensures NameLeq(a, b) <==> exists k :: ComesFirstAt(a, b, k)
  {
    if NameLeq(a, b) { var k := FirstDifference(a, b); }
    if k :| ComesFirstAt(a, b, k) { ComesFirst(a, b, k); }
  }

  datatype Key = Key(name: string, uuid: nat)

  predicate KeyLeq(a: Key, b: Key) {
    if a.name == b.name then a.uuid <= b.uuid else NameLeq(a.name, b.name)
  }

  /** Names first, then UUIDs. */
  lemma KeyLeqMeans(a: Key, b: Key)
    ensures a.name == b.name ==> (KeyLeq(a, b) <==> a.uuid <= b.uuid)
    ensures a.name != b.name ==> (KeyLeq(a, b) <==> NameLeq(a.name, b.name))
  {
  }

  lemma KeyLeqTotal(a: Key, b: Key)
    ensures KeyLeq(a, b) || KeyLeq(b, a)
    ensures KeyLeq(a, b) && KeyLeq(b, a) ==> a == b
  {
    NameLeqTotal(a.name, b.name);
  }

  lemma KeyLeqTransitive(a: Key, b: Key, c: Key)
    requires KeyLeq(a, b) && KeyLeq(b, c)
    ensures KeyLeq(a, c)
  {
    NameLeqTotal(a.name, b.name);
    NameLeqTotal(b.name, c.name);
    NameLeqTransitive(a.name, b.name, c.name);
    if a.name == c.name { NameLeqTotal(a.name, b.name); }
  }

  predicate Sorted<T>(key: T -> Key, s: seq<T>) {
    forall i, j | 0 <= i < j < |s| :: KeyLeq(key(s[i]), key(s[j]))
  }

  function Insert<T>(key: T -> Key, x: T, s: seq<T>): (r: seq<T>)
    ensures multiset(r) == multiset{x} + multiset(s)
  {
    if s == [] || KeyLeq(key(x), key(s[0])) then [x] + s
    else
      assert s == [s[0]] + s[1..];
      [s[0]] + Insert(key, x, s[1..])
  }

  /** A stable sort. */
  function SortByKey<T>(key: T -> Key, s: seq<T>): (r: seq<T>)
    ensures multiset(r) == multiset(s)
  {
    if s == [] then []
    else
      assert s == [s[0]] + s[1..];
      Insert(key, s[0], SortByKey(key, s[1..]))
  }

  lemma SortedCons<T>(key: T -> Key, x: T, s: seq<T>)
    requires Sorted(key, s)
    requires forall y | y in s :: KeyLeq(key(x), key(y))
    ensures Sorted(key, [x] + s)
  {
  }

  lemma {:induction false} InsertSorts<T>(key: T -> Key, x: T, s: seq<T>)
    requires Sorted(key, s)
    ensures Sorted(key, Insert(key, x, s))
  {
    if s == [] {
    } else if KeyLeq(key(x), key(s[0])) {
      forall y | y in s ensures KeyLeq(key(x), key(y)) {
        if y != s[0] { KeyLeqTransitive(key(x), key(s[0]), key(y)); }
      }
      SortedCons(key, x, s);
    } else {
      KeyLeqTotal(key(x), key(s[0]));
      var rest := Insert(key, x, s[1..]);
      InsertSorts(key, x, s[1..]);
      forall y | y in rest ensures KeyLeq(key(s[0]), key(y)) {
        assert y in multiset(rest);
        assert y == x || y in s[1..];
      }
      SortedCons(key, s[0], rest);
    }
  }

  lemma {:induction false} SortByKeySorts<T>(key: T -> Key, s: seq<T>)
    ensures Sorted(key, SortByKey(key, s))
  {
    if s != [] {
      SortByKeySorts(key, s[1..]);
      InsertSorts(key, s[0], SortByKey(key, s[1..]));
    }
  }

  /** Entries with the same key are the same entry. */
  ghost predicate KeysIdentify<T>(key: T -> Key, s: seq<T>) {
    forall x, y | x in s && y in s && key(x) == key(y) :: x == y
  }

  lemma HeadIsLeast<T>(key: T -> Key, a: seq<T>, x: T)
    requires Sorted(key, a) && x in a
    ensures KeyLeq(key(a[0]), key(x))
  {
    KeyLeqTotal(key(x), key(x));
  }

  lemma HeadsAgree<T>(key: T -> Key, a: seq<T>, b: seq<T>)
    requires Sorted(key, a) && Sorted(key, b) && multiset(a) == multiset(b) && a != []
    requires KeysIdentify(key, a)
    ensures |a| == |b| && a[0] == b[0]
  {
    assert |multiset(b)| == |multiset(a)|;
    assert a[0] in multiset(b) && b[0] in multiset(a);
    HeadIsLeast(key, a, b[0]);
    HeadIsLeast(key, b, a[0]);
    KeyLeqTotal(key(a[0]), key(b[0]));
  }

  lemma TailMultiset<T>(s: seq<T>)
    requires s != []
    ensures multiset(s[1..]) == multiset(s) - multiset{s[0]}
  {
    assert s == [s[0]] + s[1..];
  }

  lemma {:induction false} SortedIsUnique<T>(key: T -> Key, a: seq<T>, b: seq<T>)
    requires Sorted(key, a) && Sorted(key, b) && multiset(a) == multiset(b)
    requires KeysIdentify(key, a)
    ensures a == b
  {
    if a == [] {
      assert |multiset(b)| == |multiset(a)|;
    } else {
      HeadsAgree(key, a, b);
      TailMultiset(a);
      TailMultiset(b);
      SortedIsUnique(key, a[1..], b[1..]);
      assert a == [a[0]] + a[1..] && b == [b[0]] + b[1..];
    }
  }

  /** The sorted sequence does not depend on the order of the input. */
  lemma SortIgnoresOrder<T>(key: T -> Key, a: seq<T>, b: seq<T>)
    requires multiset(a) == multiset(b) && KeysIdentify(key, a)
    ensures SortByKey(key, a) == SortByKey(key, b)
  {
    SortByKeySorts(key, a);
    SortByKeySorts(key, b);
    forall x | x in SortByKey(key, a) ensures x in a {
      assert x in multiset(SortByKey(key, a));
    }
    SortedIsUnique(key, SortByKey(key, a), SortByKey(key, b));
  }
}
