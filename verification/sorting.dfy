/** Python's stable sort by a string key, and what makes its result unique. */
module Sorting {

  /** Lexicographic order on code points. */
  predicate AtMost(a: string, b: string) {
    a == "" || (b != "" && (a[0] < b[0] || (a[0] == b[0] && AtMost(a[1..], b[1..]))))
  }

  lemma {:induction false} AtMostTotal(a: string, b: string)
    ensures AtMost(a, b) || AtMost(b, a)
  {
    if a != "" && b != "" {
      AtMostTotal(a[1..], b[1..]);
    }
  }

  lemma {:induction false} AtMostAntisymmetric(a: string, b: string)
    requires AtMost(a, b) && AtMost(b, a)
    ensures a == b
  {
    if a != "" {
      AtMostAntisymmetric(a[1..], b[1..]);
      assert a == [a[0]] + a[1..] && b == [b[0]] + b[1..];
    }
  }

  lemma {:induction false} AtMostTransitive(a: string, b: string, c: string)
    requires AtMost(a, b) && AtMost(b, c)
    ensures AtMost(a, c)
  {
    if a != "" && a[0] == b[0] && b[0] == c[0] {
      AtMostTransitive(a[1..], b[1..], c[1..]);
    }
  }

  function Insert<T>(x: T, xs: seq<T>, key: T -> string): seq<T> {
    if xs == [] || AtMost(key(x), key(xs[0])) then [x] + xs
    else [xs[0]] + Insert(x, xs[1..], key)
  }

  function SortBy<T>(xs: seq<T>, key: T -> string): seq<T> {
    if xs == [] then [] else Insert(xs[0], SortBy(xs[1..], key), key)
  }

  ghost predicate Sorted<T>(xs: seq<T>, key: T -> string) {
    forall i, j :: 0 <= i < j < |xs| ==> AtMost(key(xs[i]), key(xs[j]))
  }

  ghost predicate DistinctKeys<T>(xs: seq<T>, key: T -> string) {
    forall i, j :: 0 <= i < j < |xs| ==> key(xs[i]) != key(xs[j])
  }

  ghost predicate SameElements<T(!new)>(xs: seq<T>, ys: seq<T>) {
    forall x :: x in xs <==> x in ys
  }

  lemma {:induction false} InsertFacts<T(!new)>(x: T, xs: seq<T>, key: T -> string)
    ensures var r := Insert(x, xs, key);
      |r| == |xs| + 1 && SameElements(r, [x] + xs)
  {
    if xs != [] && !AtMost(key(x), key(xs[0])) {
      InsertFacts(x, xs[1..], key);
      assert xs == [xs[0]] + xs[1..];
    }
  }

  lemma {:induction false} InsertSorted<T(!new)>(x: T, xs: seq<T>, key: T -> string)
    requires Sorted(xs, key)
    ensures Sorted(Insert(x, xs, key), key)
  {
    if xs == [] {
    } else if AtMost(key(x), key(xs[0])) {
      forall k | 0 < k < |xs|
        ensures AtMost(key(x), key(xs[k]))
      {
        AtMostTransitive(key(x), key(xs[0]), key(xs[k]));
      }
    } else {
      AtMostTotal(key(x), key(xs[0]));
      var rest := Insert(x, xs[1..], key);
      InsertSorted(x, xs[1..], key);
      InsertFacts(x, xs[1..], key);
      forall k | 0 <= k < |rest|
        ensures AtMost(key(xs[0]), key(rest[k]))
      {
        assert rest[k] in rest;
        assert rest[k] == x || rest[k] in xs[1..];
      }
    }
  }

  lemma {:induction false} InsertDistinct<T(!new)>(x: T, xs: seq<T>, key: T -> string)
    requires DistinctKeys(xs, key) && forall y :: y in xs ==> key(y) != key(x)
    ensures DistinctKeys(Insert(x, xs, key), key)
  {
    if xs != [] && !AtMost(key(x), key(xs[0])) {
      var rest := Insert(x, xs[1..], key);
      InsertDistinct(x, xs[1..], key);
      InsertFacts(x, xs[1..], key);
      forall k | 0 <= k < |rest|
        ensures key(xs[0]) != key(rest[k])
      {
        assert rest[k] in rest;
        assert rest[k] == x || rest[k] in xs[1..];
      }
    }
  }

  lemma {:induction false} SortFacts<T(!new)>(xs: seq<T>, key: T -> string)
    ensures var r := SortBy(xs, key);
      |r| == |xs| && SameElements(r, xs) && Sorted(r, key)
    ensures DistinctKeys(xs, key) ==> DistinctKeys(SortBy(xs, key), key)
  {
    if xs != [] {
      var rest := SortBy(xs[1..], key);
      SortFacts(xs[1..], key);
      InsertFacts(xs[0], rest, key);
      InsertSorted(xs[0], rest, key);
      assert xs == [xs[0]] + xs[1..];
      if DistinctKeys(xs, key) {
        InsertDistinct(xs[0], rest, key);
      }
    }
  }

  /** Two sorted lists of the same elements with distinct keys are the same list. */
  lemma {:induction false} SortedUnique<T(!new)>(a: seq<T>, b: seq<T>, key: T -> string)
    requires Sorted(a, key) && DistinctKeys(a, key)
    requires Sorted(b, key) && DistinctKeys(b, key)
    requires SameElements(a, b)
    ensures a == b
    decreases |a|
  {
    if a == [] {
      assert forall k :: 0 <= k < |b| ==> b[k] in a;
    } else {
      assert a[0] in a;
      var i :| 0 <= i < |b| && b[i] == a[0];
      assert b[0] in b;
      var j :| 0 <= j < |a| && a[j] == b[0];
      if i > 0 && j > 0 {
        AtMostAntisymmetric(key(a[0]), key(b[0]));
      }
      assert a[0] == b[0];
      TailSame(a, b, key);
      SortedUnique(a[1..], b[1..], key);
    }
  }

  lemma TailSame<T(!new)>(a: seq<T>, b: seq<T>, key: T -> string)
    requires DistinctKeys(a, key) && DistinctKeys(b, key) && SameElements(a, b)
    requires a != [] && b != [] && a[0] == b[0]
    ensures SameElements(a[1..], b[1..])
  {
    TailWithin(a, b, key);
    TailWithin(b, a, key);
  }

  lemma TailWithin<T(!new)>(a: seq<T>, b: seq<T>, key: T -> string)
    requires DistinctKeys(a, key) && SameElements(a, b)
    requires a != [] && b != [] && a[0] == b[0]
    ensures forall x :: x in a[1..] ==> x in b[1..]
  {
    forall x | x in a[1..]
      ensures x in b[1..]
    {
      var k :| 0 < k < |a| && a[k] == x;
      assert key(a[0]) != key(x);
      assert x in a;
      var m :| 0 <= m < |b| && b[m] == x;
      assert m > 0 && b[1..][m - 1] == x;
    }
  }

  /** Sorting forgets the order elements came in. */
  lemma SortForgetsOrder<T(!new)>(a: seq<T>, b: seq<T>, key: T -> string)
    requires DistinctKeys(a, key) && DistinctKeys(b, key) && SameElements(a, b)
    ensures SortBy(a, key) == SortBy(b, key)
  {
    SortFacts(a, key);
    SortFacts(b, key);
    SortedUnique(SortBy(a, key), SortBy(b, key), key);
  }

  function Identity(s: string): string { s }

  function SortNames(names: seq<string>): seq<string> {
    SortBy(names, Identity)
  }
}
