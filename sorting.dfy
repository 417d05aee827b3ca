/** Python's `sorted(xs, key=..., reverse=...)` on text keys, as the agents and the data
    layer use it to order price bars by timestamp and reports by period: a stable
    insertion sort under lexicographic code-point order, ascending or descending. */
module Sorting {

  /** Python's `<` on `str`: lexicographic by code point, a proper prefix first. */
  predicate StrLess(a: string, b: string)
    decreases |a|
  {
    if a == [] then b != []
    else if b == [] then false
    else if a[0] < b[0] then true
    else if a[0] == b[0] then StrLess(a[1..], b[1..])
    else false
  }

  lemma {:induction false} StrLessIrreflexive(a: string)
    ensures !StrLess(a, a)
    decreases |a|
  {
    if a != [] {
      StrLessIrreflexive(a[1..]);
    }
  }

  lemma {:induction false} StrLessTransitive(a: string, b: string, c: string)
    requires StrLess(a, b) && StrLess(b, c)
    ensures StrLess(a, c)
    decreases |a|
  {
    if a != [] && b != [] && c != [] && a[0] == b[0] == c[0] {
      StrLessTransitive(a[1..], b[1..], c[1..]);
    }
  }

  /** Any two different texts are ordered one way or the other. */
  lemma {:induction false} StrLessTotal(a: string, b: string)
    ensures a == b || StrLess(a, b) || StrLess(b, a)
    decreases |a|
  {
    if a != [] && b != [] && a[0] == b[0] {
      StrLessTotal(a[1..], b[1..]);
      if a[1..] == b[1..] {
        assert a == [a[0]] + a[1..] && b == [b[0]] + b[1..];
      }
    }
  }

  /** `a` sorts strictly before `b` in the requested direction. */
  predicate Before(a: string, b: string, descending: bool) {
    if descending then StrLess(b, a) else StrLess(a, b)
  }

  /** `a` may stand before `b` in a sorted result. */
  predicate NotAfter(a: string, b: string, descending: bool) { !Before(b, a, descending) }

  lemma NotAfterTotal(a: string, b: string, descending: bool)
    ensures NotAfter(a, b, descending) || NotAfter(b, a, descending)
  {
    if StrLess(a, b) && StrLess(b, a) {
      StrLessTransitive(a, b, a);
      StrLessIrreflexive(a);
    }
  }

  lemma NotAfterTransitive(a: string, b: string, c: string, descending: bool)
    requires NotAfter(a, b, descending) && NotAfter(b, c, descending)
    ensures NotAfter(a, c, descending)
  {
    StrLessTotal(a, b);
    StrLessTotal(b, c);
    if Before(c, a, descending) {
      if descending {
        if StrLess(c, b) { StrLessTransitive(a, c, b); }
      } else {
        if StrLess(b, c) { StrLessTransitive(c, a, b); }
      }
    }
  }

  lemma BeforeImpliesNotAfter(a: string, b: string, descending: bool)
    requires Before(a, b, descending)
    ensures NotAfter(a, b, descending)
  {
    if StrLess(a, b) && StrLess(b, a) {
      StrLessTransitive(a, b, a);
      StrLessIrreflexive(a);
    }
  }

  predicate SortedBy<T>(s: seq<T>, key: T -> string, descending: bool) {
    forall i, j :: 0 <= i < j < |s| ==> NotAfter(key(s[i]), key(s[j]), descending)
  }

  /** Places `x` after every element that does not sort strictly after it, so equal keys
      keep their order. */
  function Insert<T>(s: seq<T>, x: T, key: T -> string, descending: bool): (r: seq<T>)
    ensures |r| == |s| + 1
    ensures multiset(r) == multiset(s) + multiset{x}
    decreases |s|
  {
    if s == [] then [x]
    else if Before(key(x), key(s[0]), descending) then [x] + s
    else
      assert s == [s[0]] + s[1..];
      [s[0]] + Insert(s[1..], x, key, descending)
  }

  lemma {:induction false} InsertSorted<T>(s: seq<T>, x: T, key: T -> string, descending: bool)
    requires SortedBy(s, key, descending)
    ensures SortedBy(Insert(s, x, key, descending), key, descending)
    decreases |s|
  {
    var r := Insert(s, x, key, descending);
    if s == [] {
    } else if Before(key(x), key(s[0]), descending) {
      forall j | 0 <= j < |s| ensures NotAfter(key(x), key(s[j]), descending) {
        BeforeImpliesNotAfter(key(x), key(s[0]), descending);
        if j > 0 {
          NotAfterTransitive(key(x), key(s[0]), key(s[j]), descending);
        }
      }
    } else {
      var rest := Insert(s[1..], x, key, descending);
      InsertSorted(s[1..], x, key, descending);
      NotAfterTotal(key(x), key(s[0]), descending);
      forall j | 0 <= j < |rest| ensures NotAfter(key(s[0]), key(rest[j]), descending) {
        assert rest[j] in multiset(rest);
        assert rest[j] == x || rest[j] in multiset(s[1..]);
        if rest[j] != x {
          var k :| 0 <= k < |s[1..]| && s[1..][k] == rest[j];
          assert s[k + 1] == rest[j];
        }
      }
      assert r == [s[0]] + rest;
    }
  }

  /** `sorted(s, key=key, reverse=descending)`. */
  function SortBy<T>(s: seq<T>, key: T -> string, descending: bool): (r: seq<T>)
    ensures |r| == |s|
    ensures multiset(r) == multiset(s)
    decreases |s|
  {
    if s == [] then []
    else
      assert s == s[..|s| - 1] + [s[|s| - 1]];
      Insert(SortBy(s[..|s| - 1], key, descending), s[|s| - 1], key, descending)
  }

  /** The result is ordered and a permutation of the input. */
  lemma {:induction false} SortBySorted<T>(s: seq<T>, key: T -> string, descending: bool)
    ensures SortedBy(SortBy(s, key, descending), key, descending)
    ensures multiset(SortBy(s, key, descending)) == multiset(s)
    decreases |s|
  {
    if s != [] {
      SortBySorted(s[..|s| - 1], key, descending);
      InsertSorted(SortBy(s[..|s| - 1], key, descending), s[|s| - 1], key, descending);
    }
  }

  lemma {:induction false} InsertAtEnd<T>(s: seq<T>, x: T, key: T -> string, descending: bool)
    requires forall i :: 0 <= i < |s| ==> !Before(key(x), key(s[i]), descending)
    ensures Insert(s, x, key, descending) == s + [x]
    decreases |s|
  {
    if s != [] {
      InsertAtEnd(s[1..], x, key, descending);
    }
  }

  lemma SortedPrefix<T>(s: seq<T>, init: seq<T>, key: T -> string, descending: bool)
    requires s != [] && SortedBy(s, key, descending) && init == s[..|s| - 1]
    ensures SortedBy(init, key, descending)
    ensures forall i :: 0 <= i < |init| ==> !Before(key(s[|s| - 1]), key(init[i]), descending)
  {
    forall i, j | 0 <= i < j < |init| ensures NotAfter(key(init[i]), key(init[j]), descending) {
      assert init[i] == s[i] && init[j] == s[j];
    }
    forall i | 0 <= i < |init| ensures !Before(key(s[|s| - 1]), key(init[i]), descending) {
      assert init[i] == s[i];
    }
  }

  /** Stability: a sequence already in order comes back unchanged, even where keys are
      equal. */
  lemma {:induction false} SortByKeepsSorted<T>(s: seq<T>, key: T -> string, descending: bool)
    requires SortedBy(s, key, descending)
    ensures SortBy(s, key, descending) == s
    decreases |s|
  {
    if s != [] {
      var init := s[..|s| - 1];
      SortedPrefix(s, init, key, descending);
      SortByKeepsSorted(init, key, descending);
      InsertAtEnd(init, s[|s| - 1], key, descending);
      assert init + [s[|s| - 1]] == s;
    }
  }

  /** The elements whose key is `k`, in their order: `[x for x in s if key(x) == k]`. */
  function WithKey<T>(s: seq<T>, key: T -> string, k: string): (r: seq<T>)
    ensures |r| <= |s|
    ensures forall i :: 0 <= i < |r| ==> key(r[i]) == k
    decreases |s|
  {
    if s == [] then []
    else (if key(s[0]) == k then [s[0]] else []) + WithKey(s[1..], key, k)
  }

  lemma {:induction false} WithKeyAppend<T>(a: seq<T>, b: seq<T>, key: T -> string, k: string)
    ensures WithKey(a + b, key, k) == WithKey(a, key, k) + WithKey(b, key, k)
    decreases |a|
  {
    if a != [] {
      assert (a + b)[0] == a[0];
      assert (a + b)[1..] == a[1..] + b;
      WithKeyAppend(a[1..], b, key, k);
      var h := if key(a[0]) == k then [a[0]] else [];
      assert WithKey(a + b, key, k) == h + (WithKey(a[1..], key, k) + WithKey(b, key, k));
    } else {
      assert a + b == b;
    }
  }

  lemma {:induction false} WithKeyNone<T>(s: seq<T>, key: T -> string, k: string)
    requires forall i :: 0 <= i < |s| ==> key(s[i]) != k
    ensures WithKey(s, key, k) == []
    decreases |s|
  {
    if s != [] {
      WithKeyNone(s[1..], key, k);
    }
  }

  /** An element that sorts strictly before the head of a sorted sequence shares its
      key with none of it. */
  lemma KeyAbsentAfterBefore<T>(t: seq<T>, x: T, key: T -> string, descending: bool)
    requires t != [] && SortedBy(t, key, descending) && Before(key(x), key(t[0]), descending)
    ensures forall i :: 0 <= i < |t| ==> key(t[i]) != key(x)
  {
    StrLessIrreflexive(key(x));
    forall i | 0 <= i < |t| ensures key(t[i]) != key(x) {
      if i > 0 {
        assert NotAfter(key(t[0]), key(t[i]), descending);
      }
    }
  }

  /** Inserting into a sorted sequence puts `x` after every element with its key. */
  lemma {:induction false} InsertWithKey<T>(t: seq<T>, x: T, key: T -> string, descending: bool, k: string)
    requires SortedBy(t, key, descending)
    ensures WithKey(Insert(t, x, key, descending), key, k) == WithKey(t, key, k) + WithKey([x], key, k)
    decreases |t|
  {
    if t == [] {
      assert Insert(t, x, key, descending) == [x];
      assert WithKey(t, key, k) == [];
    } else if Before(key(x), key(t[0]), descending) {
      assert Insert(t, x, key, descending) == [x] + t;
      WithKeyAppend([x], t, key, k);
      if key(x) == k {
        KeyAbsentAfterBefore(t, x, key, descending);
        WithKeyNone(t, key, k);
      } else {
        assert [x][1..] == [];
        assert WithKey([x], key, k) == [];
      }
    } else {
      SortedTail(t, key, descending);
      InsertWithKey(t[1..], x, key, descending, k);
      InsertWithKeyStep(t, x, key, descending, k);
    }
  }

  lemma SortedTail<T>(t: seq<T>, key: T -> string, descending: bool)
    requires t != [] && SortedBy(t, key, descending)
    ensures SortedBy(t[1..], key, descending)
  {
    var rest := t[1..];
    forall i, j | 0 <= i < j < |rest| ensures NotAfter(key(rest[i]), key(rest[j]), descending) {
      assert rest[i] == t[i + 1] && rest[j] == t[j + 1];
    }
  }

  /** The step of `InsertWithKey` past a head that `x` does not sort before. */
  lemma InsertWithKeyStep<T>(t: seq<T>, x: T, key: T -> string, descending: bool, k: string)
    requires t != [] && !Before(key(x), key(t[0]), descending)
    requires WithKey(Insert(t[1..], x, key, descending), key, k) == WithKey(t[1..], key, k) + WithKey([x], key, k)
    ensures WithKey(Insert(t, x, key, descending), key, k) == WithKey(t, key, k) + WithKey([x], key, k)
  {
    var rest := t[1..];
    var ins := Insert(rest, x, key, descending);
    assert Insert(t, x, key, descending) == [t[0]] + ins;
    WithKeyAppend([t[0]], ins, key, k);
    assert t == [t[0]] + rest;
    WithKeyAppend([t[0]], rest, key, k);
  }

  /** Stability: for every key, the elements with that key come out of the sort in the
      order they went in. */
  lemma {:induction false} SortByStable<T>(s: seq<T>, key: T -> string, descending: bool, k: string)
    ensures WithKey(SortBy(s, key, descending), key, k) == WithKey(s, key, k)
    decreases |s|
  {
    if s != [] {
      var init := s[..|s| - 1];
      var x := s[|s| - 1];
      SortByStable(init, key, descending, k);
      SortBySorted(init, key, descending);
      InsertWithKey(SortBy(init, key, descending), x, key, descending, k);
      assert s == init + [x];
      WithKeyAppend(init, [x], key, k);
    }
  }

  /** Sorting twice is sorting once. */
  lemma SortByIdempotent<T>(s: seq<T>, key: T -> string, descending: bool)
    ensures SortBy(SortBy(s, key, descending), key, descending) == SortBy(s, key, descending)
  {
    SortBySorted(s, key, descending);
    SortByKeepsSorted(SortBy(s, key, descending), key, descending);
  }
}
