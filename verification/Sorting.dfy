/** Sorting by a strict total order on the elements at hand, standing in for the
    standard library's sort. */
module Sorting {
  import Text

  ghost predicate TotalOn<T(!new)>(less: (T, T) -> bool, xs: set<T>) {
    && (forall a, b :: a in xs && b in xs && a != b ==> less(a, b) || less(b, a))
    && (forall a, b, c :: a in xs && b in xs && c in xs && less(a, b) && less(b, c) ==> less(a, c))
  }

  ghost predicate Sorted<T(!new)>(less: (T, T) -> bool, xs: seq<T>) {
    forall i, j :: 0 <= i < j < |xs| ==> less(xs[i], xs[j])
  }

  /** Lists a set in order: picks the elements in any order and inserts each
      where it belongs. */
  method SortSet<T(!new, ==)>(xs: set<T>, less: (T, T) -> bool) returns (r: seq<T>)
    requires TotalOn(less, xs)
    ensures Sorted(less, r) && forall x :: x in r <==> x in xs
  {
    r := [];
    var rest := xs;
    while rest != {}
      invariant rest <= xs && Sorted(less, r)
      invariant forall x :: x in r <==> x in xs - rest
      decreases |rest|
    {
      var x :| x in rest;
      var i := 0;
      while i < |r| && less(r[i], x)
        invariant 0 <= i <= |r|
        invariant forall k :: 0 <= k < i ==> less(r[k], x)
      {
        i := i + 1;
      }
      Inserted(xs, less, r, x, i);
      rest := rest - {x};
      r := r[..i] + [x] + r[i..];
    }
  }

  /** x goes before everything from position i on. */
  lemma BelowRest<T(!new)>(xs: set<T>, less: (T, T) -> bool, r: seq<T>, x: T, i: nat)
    requires TotalOn(less, xs) && Sorted(less, r) && x in xs && x !in r && i < |r|
    requires forall k :: 0 <= k < |r| ==> r[k] in xs
    requires !less(r[i], x)
    ensures forall k :: i <= k < |r| ==> less(x, r[k])
  {
    assert r[i] in r && r[i] in xs && less(x, r[i]);
    forall k | i < k < |r|
      ensures less(x, r[k])
    {
      assert r[k] in xs && less(r[i], r[k]);
    }
  }

  lemma Inserted<T(!new)>(xs: set<T>, less: (T, T) -> bool, r: seq<T>, x: T, i: nat)
    requires TotalOn(less, xs) && Sorted(less, r) && x in xs && x !in r && i <= |r|
    requires forall y :: y in r ==> y in xs
    requires forall k :: 0 <= k < i ==> less(r[k], x)
    requires i < |r| ==> !less(r[i], x)
    ensures Sorted(less, r[..i] + [x] + r[i..])
    ensures forall y :: y in r[..i] + [x] + r[i..] <==> y in r || y == x
  {
    if i < |r| { BelowRest(xs, less, r, x, i); }
    Spliced(less, r, x, i);
    assert r == r[..i] + r[i..];
  }

  lemma Spliced<T(!new)>(less: (T, T) -> bool, r: seq<T>, x: T, i: nat)
    requires Sorted(less, r) && i <= |r|
    requires forall k :: 0 <= k < i ==> less(r[k], x)
    requires forall k :: i <= k < |r| ==> less(x, r[k])
    ensures Sorted(less, r[..i] + [x] + r[i..])
  {
    var s := r[..i] + [x] + r[i..];
    forall a, b | 0 <= a < b < |s|
      ensures less(s[a], s[b])
    {
      assert s[a] == if a < i then r[a] else if a == i then x else r[a - 1];
      assert s[b] == if b < i then r[b] else if b == i then x else r[b - 1];
    }
  }

  /** Two sorted listings of the same set are equal. */
  lemma {:induction false} SortedUnique<T(!new)>(less: (T, T) -> bool, a: seq<T>, b: seq<T>)
    requires Sorted(less, a) && Sorted(less, b)
    requires forall x :: x in a <==> x in b
    requires forall x, y :: x in a && y in a && less(x, y) ==> !less(y, x)
    ensures a == b
  {
    assert b != [] ==> b[0] in b;
    if a != [] {
      assert a[0] in a && a[0] in b && b[0] in a;
      assert forall x :: less(x, x) ==> x !in a;
      assert a[0] == b[0];
      TailElements(less, a);
      TailElements(less, b);
      SortedUnique(less, a[1..], b[1..]);
      assert a == [a[0]] + a[1..] && b == [b[0]] + b[1..];
    }
  }

  lemma TailElements<T(!new)>(less: (T, T) -> bool, a: seq<T>)
    requires a != [] && Sorted(less, a) && !less(a[0], a[0])
    ensures forall x :: x in a[1..] <==> x in a && x != a[0]
  {
    assert a == [a[0]] + a[1..];
    assert forall i :: 1 <= i < |a| ==> less(a[0], a[i]);
  }

  lemma LexTotal(xs: set<string>)
    ensures TotalOn(Text.LexLess, xs)
  {
    forall a, b | a in xs && b in xs && a != b
      ensures Text.LexLess(a, b) || Text.LexLess(b, a)
    {
      Text.LexLessTotal(a, b);
    }
    forall a, b, c | a in xs && b in xs && c in xs && Text.LexLess(a, b) && Text.LexLess(b, c)
      ensures Text.LexLess(a, c)
    {
      Text.LexLessTransitive(a, b, c);
    }
  }

  /** Strings in byte order, each once. */
  method SortStrings(xs: set<string>) returns (r: seq<string>)
    ensures Sorted(Text.LexLess, r) && forall x :: x in r <==> x in xs
  {
    LexTotal(xs);
    r := SortSet(xs, Text.LexLess);
  }
}
