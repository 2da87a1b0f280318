/** Secret masking (internal/runtime/executor/mask/mask.go): registered values
    are replaced by three stars, longer values first. */
module Masking {
  import opened Prelude
  import opened Text

  const STARS := "***"

  // ---------------------------------------------------------------- replacing

  /** Every occurrence from the left, without overlaps. */
  function Replace(s: string, v: string): string
    requires v != ""
    decreases |s|
  {
    match Find(s, v)
    case None => s
    case Some(i) => s[..i] + (STARS + Replace(s[i + |v|..], v))
  }

  // ---------------------------------------------------------------- what can be masked

  /** No occurrence of the value can overlap three stars. */
  predicate Maskable(v: string) {
    v != "" && v[0] != '*' && v[|v| - 1] != '*' && !Contains(v, STARS)
  }

  lemma StarsWithin(s: string, v: string, i: nat, b: nat)
    requires OccursAt(s, v, i) && i <= b && b + 3 <= i + |v| && s[b..b + 3] == STARS
    ensures Contains(v, STARS)
  {
    var x := v[b - i..b - i + 3];
    forall d | 0 <= d < 3
      ensures x[d] == STARS[d]
    {
      CharAt(s, v, i, b - i + d);
      assert s[b..b + 3][d] == s[b + d];
    }
    assert x == STARS;
    assert OccursAt(v, STARS, b - i);
  }

  /** Where the value would start, relative to the stars. */
  lemma NotOverStars(p: string, r: string, v: string, i: int)
    requires Maskable(v) && OccursAt(p + (STARS + r), v, i)
    ensures i + |v| <= |p| || |p| + 3 <= i
  {
    var s, b, n := p + (STARS + r), |p|, |v|;
    assert s[b..b + 3] == STARS && forall k :: b <= k < b + 3 ==> s[k] == '*';
    CharAt(s, v, i, 0);
    CharAt(s, v, i, n - 1);
    if i < b && b + 3 < i + n { StarsWithin(s, v, i, b); }
  }

  /** Joining clean pieces with stars stays clean. */
  lemma CleanJoin(p: string, r: string, v: string)
    requires Maskable(v) && !Contains(p, v) && !Contains(r, v)
    ensures !Contains(p + (STARS + r), v)
  {
    var s := p + (STARS + r);
    if Contains(s, v) {
      var i :| 0 <= i <= |s| && OccursAt(s, v, i);
      NotOverStars(p, r, v, i);
      if i + |v| <= |p| {
        assert s[i..i + |v|] == p[i..i + |v|];
        assert OccursAt(p, v, i);
      } else {
        assert s[i..i + |v|] == r[i - |p| - 3..i - |p| - 3 + |v|];
        assert OccursAt(r, v, i - |p| - 3);
      }
    }
  }

  lemma BeforeFirst(s: string, v: string)
    requires v != "" && Find(s, v).Some?
    ensures !Contains(s[..Find(s, v).value], v)
  {
    var i := Find(s, v).value;
    if Contains(s[..i], v) {
      var j :| 0 <= j <= i && OccursAt(s[..i], v, j);
      OccursInside(s, v, 0, i, j);
    }
  }

  /** Replacing a maskable value leaves none of it. */
  lemma {:induction false} ReplaceCleans(s: string, v: string)
    requires Maskable(v)
    ensures !Contains(Replace(s, v), v)
    decreases |s|
  {
    if Find(s, v).Some? {
      var i := Find(s, v).value;
      BeforeFirst(s, v);
      ReplaceCleans(s[i + |v|..], v);
      CleanJoin(s[..i], Replace(s[i + |v|..], v), v);
    }
  }

  /** Replacing any other value does not bring it back. */
  lemma {:induction false} ReplaceStaysClean(s: string, u: string, v: string)
    requires Maskable(v) && u != "" && !Contains(s, v)
    ensures !Contains(Replace(s, u), v)
    decreases |s|
  {
    if Find(s, u).Some? {
      var i := Find(s, u).value;
      if Contains(s[..i], v) { ContainsInside(s, v, 0, i); }
      var rest := s[i + |u|..];
      assert rest == s[i + |u|..|s|];
      if Contains(rest, v) { ContainsInside(s, v, i + |u|, |s|); }
      ReplaceStaysClean(rest, u, v);
      CleanJoin(s[..i], Replace(rest, u), v);
    }
  }

  // ---------------------------------------------------------------- exactly which single values

  ghost predicate Shows(s: string, v: string)
    requires v != ""
  {
    Contains(Replace(s, v), v)
  }

  lemma ShortText(s: string, v: string)
    requires |s| < |v|
    ensures Replace(s, v) == s
  {}

  lemma FirstAt(s: string, v: string, i: nat)
    requires v != "" && OccursAt(s, v, i) && NoneBefore(s, v, i)
    ensures Replace(s, v) == s[..i] + (STARS + Replace(s[i + |v|..], v))
  {
    FoundFirst(s, v, Find(s, v), i);
    ReplaceFound(s, v, i);
  }

  lemma ReplaceFound(s: string, v: string, i: nat)
    requires v != "" && Find(s, v) == Some(i)
    ensures Replace(s, v) == s[..i] + (STARS + Replace(s[i + |v|..], v))
  {}

  lemma MiddleOccurs(x: string, v: string, y: string)
    ensures OccursAt(x + (v + y), v, |x|)
    ensures (x + (v + y))[|x| + |v|..] == y && (x + (v + y))[..|x|] == x
  {
    assert (x + (v + y))[|x|..|x| + |v|] == v;
  }

  /** One occurrence, nothing before it, too little after it. */
  lemma ReplaceOnce(x: string, v: string, y: string)
    requires |y| < |v| && NoneBefore(x + (v + y), v, |x|)
    ensures Replace(x + (v + y), v) == x + (STARS + y)
  {
    MiddleOccurs(x, v, y);
    FirstAt(x + (v + y), v, |x|);
    ShortText(y, v);
  }

  /** The stars around or inside complete the value again. */
  lemma Completes(x: string, v: string, y: string, i: nat)
    requires v != "" && Replace(x + (v + y), v) == x + (STARS + y)
    requires i + |v| <= |x| + 3 + |y| && (x + (STARS + y))[i..i + |v|] == v
    ensures Shows(x + (v + y), v)
  {
    assert OccursAt(x + (STARS + y), v, i);
  }

  lemma LeaksAtStart(v: string)
    requires v != "" && v[0] == '*'
    ensures Shows("" + (v + v[1..]), v)
  {
    ReplaceOnce("", v, v[1..]);
    assert ("" + (STARS + v[1..]))[2..2 + |v|] == v;
    Completes("", v, v[1..], 2);
  }

  lemma OnlyAtEnd(v: string, j: nat)
    requires v != "" && v[0] != '*' && v[|v| - 1] == '*' && j < |v| - 1
    ensures !OccursAt(v[..|v| - 1] + (v + ""), v, j)
  {
    var n := |v|;
    var s := v[..n - 1] + (v + "");
    if OccursAt(s, v, j) {
      CharAt(s, v, j, n - 1);
      CharAt(s, v, j, 0);
    }
  }

  lemma LeaksAtEnd(v: string)
    requires v != "" && v[0] != '*' && v[|v| - 1] == '*'
    ensures Shows(v[..|v| - 1] + (v + ""), v)
  {
    var x := v[..|v| - 1];
    forall j | 0 <= j < |x|
      ensures !OccursAt(x + (v + ""), v, j)
    {
      OnlyAtEnd(v, j);
    }
    ReplaceOnce(x, v, "");
    assert (x + (STARS + ""))[0..0 + |v|] == v;
    Completes(x, v, "", 0);
  }

  lemma NotEarlier(v: string, k: nat, j: nat)
    requires OccursAt(v, STARS, k) && j < k && !OccursAt(v, STARS, j)
    ensures !OccursAt(v[..k] + (v + v[k + 3..]), v, j)
  {
    var s := v[..k] + (v + v[k + 3..]);
    if OccursAt(s, v, j) {
      forall d | 0 <= d < 3
        ensures v[j..j + 3][d] == STARS[d]
      {
        CharAt(s, v, j, k + d);
        CharAt(v, STARS, k, d);
        assert s[j + k + d] == v[j + d];
      }
    }
  }

  lemma NeverEarlier(v: string, k: nat)
    requires OccursAt(v, STARS, k) && NoneBefore(v, STARS, k)
    ensures NoneBefore(v[..k] + (v + v[k + 3..]), v, k)
  {
    var s := v[..k] + (v + v[k + 3..]);
    forall j | 0 <= j < k
      ensures !OccursAt(s, v, j)
    {
      NotEarlier(v, k, j);
    }
  }

  lemma MiddleStars(v: string, k: nat)
    requires OccursAt(v, STARS, k)
    ensures (v[..k] + (STARS + v[k + 3..]))[0..0 + |v|] == v
  {
    var r := v[..k] + (STARS + v[k + 3..]);
    assert v[k..k + 3] == STARS;
    assert r == v;
  }

  lemma LeaksInside(v: string) returns (k: nat)
    requires Contains(v, STARS)
    ensures v != "" && k + 3 <= |v| && Shows(v[..k] + (v + v[k + 3..]), v)
  {
    k := Find(v, STARS).value;
    NeverEarlier(v, k);
    ReplaceOnce(v[..k], v, v[k + 3..]);
    MiddleStars(v, k);
    Completes(v[..k], v, v[k + 3..], 0);
  }

  /** One registered value never shows in any output exactly when it is maskable. */
  lemma MaskableIff(v: string)
    requires v != ""
    ensures (forall s :: !Shows(s, v)) <==> Maskable(v)
  {
    if Maskable(v) {
      forall s
        ensures !Shows(s, v)
      {
        ReplaceCleans(s, v);
      }
    } else if v[0] == '*' {
      LeaksAtStart(v);
    } else if v[|v| - 1] == '*' {
      LeaksAtEnd(v);
    } else {
      var k := LeaksInside(v);
    }
  }

  // ---------------------------------------------------------------- all registered values

  predicate AllSet(vs: seq<string>) {
    forall i :: 0 <= i < |vs| ==> vs[i] != ""
  }

  function Mask(vs: seq<string>, s: string): string
    requires AllSet(vs)
    decreases |vs|
  {
    if vs == [] then s else Mask(vs[1..], Replace(s, vs[0]))
  }

  lemma {:induction false} MaskStaysClean(vs: seq<string>, s: string, v: string)
    requires AllSet(vs) && Maskable(v) && !Contains(s, v)
    ensures !Contains(Mask(vs, s), v)
    decreases |vs|
  {
    if vs != [] {
      ReplaceStaysClean(s, vs[0], v);
      MaskStaysClean(vs[1..], Replace(s, vs[0]), v);
    }
  }

  /** Whatever the order, a maskable value does not show in the output. */
  lemma {:induction false} MaskCleans(vs: seq<string>, s: string, v: string)
    requires AllSet(vs) && Maskable(v) && v in vs
    ensures !Contains(Mask(vs, s), v)
    decreases |vs|
  {
    if vs[0] == v {
      ReplaceCleans(s, v);
      MaskStaysClean(vs[1..], Replace(s, v), v);
    } else {
      MaskCleans(vs[1..], Replace(s, vs[0]), v);
    }
  }

  /** Some registered part of the value, perhaps all of it, is maskable. */
  ghost predicate Covered(vs: seq<string>, v: string) {
    exists u :: u in vs && Maskable(u) && Contains(v, u)
  }

  lemma ContainsTransitive(s: string, v: string, u: string)
    requires Contains(s, v) && Contains(v, u)
    ensures Contains(s, u)
  {
    var i :| 0 <= i <= |s| && OccursAt(s, v, i);
    assert v == s[i..i + |v|];
    ContainsInside(s, u, i, i + |v|);
  }

  lemma MaskHides(vs: seq<string>, s: string, v: string)
    requires AllSet(vs) && Covered(vs, v)
    ensures !Contains(Mask(vs, s), v)
  {
    var u :| u in vs && Maskable(u) && Contains(v, u);
    MaskCleans(vs, s, u);
    if Contains(Mask(vs, s), v) { ContainsTransitive(Mask(vs, s), v, u); }
  }

  // ---------------------------------------------------------------- beyond that condition

  lemma FirstChar(s: string, v: string)
    requires v != "" && s != ""
    ensures Replace(s, v) != "" && (Replace(s, v)[0] == s[0] || Replace(s, v)[0] == '*')
  {}

  /** A star value of two characters comes back only where the second character
      is doubled. */
  lemma {:induction false} StarPairCleans(s: string, v: string, u: string)
    requires |v| == 2 && v[0] == '*' && v[1] != '*' && u == [v[1], v[1]] && !Contains(s, u)
    ensures !Contains(Replace(s, v), v)
    decreases |s|
  {
    if Find(s, v).Some? {
      var i := Find(s, v).value;
      var rest := s[i + 2..];
      BeforeFirst(s, v);
      assert rest == s[i + 2..|s|];
      if Contains(rest, u) { ContainsInside(s, u, i + 2, |s|); }
      StarPairCleans(rest, v, u);
      Doubled(s, v, u, i);
      if rest != "" { FirstChar(rest, v); }
      StarPairJoin(s[..i], Replace(rest, v), v);
    }
  }

  lemma Doubled(s: string, v: string, u: string, i: nat)
    requires |v| == 2 && u == [v[1], v[1]] && OccursAt(s, v, i)
    ensures i + 2 < |s| && s[i + 2] == v[1] ==> Contains(s, u)
  {
    CharAt(s, v, i, 1);
    if i + 2 < |s| && s[i + 2] == v[1] {
      assert s[i + 1..i + 1 + 2] == u;
      assert OccursAt(s, u, i + 1);
    }
  }

  /** After the stars the rest does not start with the second character. */
  lemma StarPairJoin(p: string, r: string, v: string)
    requires |v| == 2 && v[0] == '*' && v[1] != '*' && !Contains(p, v) && !Contains(r, v) && (r == "" || r[0] != v[1])
    ensures !Contains(p + (STARS + r), v)
  {
    var s := p + (STARS + r);
    if Contains(s, v) {
      var i :| 0 <= i <= |s| && OccursAt(s, v, i);
      CharAt(s, v, i, 1);
      if i + 2 <= |p| {
        assert s[i..i + 2] == p[i..i + 2];
        assert OccursAt(p, v, i);
      } else if |p| + 3 <= i {
        assert s[i..i + 2] == r[i - |p| - 3..i - |p| - 3 + 2];
        assert OccursAt(r, v, i - |p| - 3);
      }
    }
  }

  /** The condition of MaskHides is not necessary for several values: with "aa"
      registered before "*a", the value "*a" has no maskable part and still never
      shows. */
  lemma HiddenWithoutCover(vs: seq<string>, u: string, v: string)
    requires u == "aa" && v == "*a" && vs == [u, v]
    ensures AllSet(vs) && LongFirst(vs) && !Covered(vs, v)
    ensures forall s :: !Contains(Mask(vs, s), v)
  {
    NotWithin(v, u);
    forall s
      ensures !Contains(Mask(vs, s), v)
    {
      MaskTwo(u, v, s);
      PlainIsMaskable(u);
      ReplaceCleans(s, u);
      StarPairCleans(Replace(s, u), v, u);
    }
  }

  lemma NotWithin(v: string, u: string)
    requires u == "aa" && v == "*a"
    ensures !Contains(v, u)
  {
    if Contains(v, u) {
      var i :| 0 <= i <= |v| && OccursAt(v, u, i);
      CharAt(v, u, i, 0);
    }
  }

  lemma MaskTwo(u: string, v: string, s: string)
    requires u != "" && v != ""
    ensures Mask([u, v], s) == Replace(Replace(s, u), v)
  {
    var t := Replace(s, u);
    assert [u, v][1..] == [v] && [v][1..] == [];
    assert Mask([u, v], s) == Mask([v], t);
    assert Mask([v], t) == Mask([], Replace(t, v));
  }

  lemma {:induction false} MaskIdle(vs: seq<string>, s: string)
    requires AllSet(vs) && forall v :: v in vs ==> !Contains(s, v)
    ensures Mask(vs, s) == s
    decreases |vs|
  {
    if vs != [] {
      assert vs[0] in vs && Find(s, vs[0]).None?;
      MaskIdle(vs[1..], s);
    }
  }

  /** Masking what is masked changes nothing. */
  lemma MaskIdempotent(vs: seq<string>, s: string)
    requires AllSet(vs) && forall v :: v in vs ==> Covered(vs, v)
    ensures Mask(vs, Mask(vs, s)) == Mask(vs, s)
  {
    forall v | v in vs
      ensures !Contains(Mask(vs, s), v)
    {
      MaskHides(vs, s, v);
    }
    MaskIdle(vs, Mask(vs, s));
  }

  /** Values without a star are maskable. */
  lemma PlainIsMaskable(v: string)
    requires v != "" && '*' !in v
    ensures Maskable(v)
  {
    if Contains(v, STARS) {
      var i :| 0 <= i <= |v| && OccursAt(v, STARS, i);
      CharAt(v, STARS, i, 0);
    }
  }

  // ---------------------------------------------------------------- the masker

  predicate LongFirst(vs: seq<string>) {
    forall i, j :: 0 <= i < j < |vs| ==> |vs[i]| >= |vs[j]|
  }

  /** The values of one length, in order. */
  function OfLength(vs: seq<string>, n: nat): seq<string> {
    if vs == [] then [] else (if |vs[0]| == n then [vs[0]] else []) + OfLength(vs[1..], n)
  }

  /** The same values, longer ones first, equally long ones in their old order. */
  ghost predicate StableByLength(before: seq<string>, after: seq<string>) {
    LongFirst(after) && forall n: nat :: OfLength(after, n) == OfLength(before, n)
  }

  lemma {:induction false} OfLengthConcat(a: seq<string>, b: seq<string>, n: nat)
    ensures OfLength(a + b, n) == OfLength(a, n) + OfLength(b, n)
  {
    if a == [] {
      assert a + b == b;
    } else {
      assert (a + b)[0] == a[0] && (a + b)[1..] == a[1..] + b;
      OfLengthConcat(a[1..], b, n);
    }
  }

  lemma {:induction false} OfLengthNone(a: seq<string>, n: nat)
    requires forall i :: 0 <= i < |a| ==> |a[i]| != n
    ensures OfLength(a, n) == []
  {
    if a != [] { OfLengthNone(a[1..], n); }
  }

  lemma OfLengthInsert(before: seq<string>, after: seq<string>, v: string, i: nat, n: nat)
    requires OfLength(after, n) == OfLength(before, n) && i <= |after|
    requires forall k :: i <= k < |after| ==> |after[k]| < |v|
    ensures OfLength(after[..i] + ([v] + after[i..]), n) == OfLength(before + [v], n)
  {
    var a, b := after[..i], after[i..];
    OfLengthConcat(before, [v], n);
    OfLengthConcat(a, [v] + b, n);
    OfLengthConcat([v], b, n);
    OfLengthConcat(a, b, n);
    assert after == a + b;
    if n == |v| { OfLengthNone(b, n); }
  }

  lemma InsertLongFirst(after: seq<string>, v: string, i: nat)
    requires LongFirst(after) && i <= |after|
    requires forall k :: 0 <= k < i ==> |after[k]| >= |v|
    requires forall k :: i <= k < |after| ==> |after[k]| < |v|
    ensures LongFirst(after[..i] + ([v] + after[i..]))
  {
    var r := after[..i] + ([v] + after[i..]);
    forall x, y | 0 <= x < y < |r|
      ensures |r[x]| >= |r[y]|
    {
      assert r[x] == if x < i then after[x] else if x == i then v else after[x - 1];
      assert r[y] == if y < i then after[y] else if y == i then v else after[y - 1];
    }
  }

  lemma InsertStable(before: seq<string>, after: seq<string>, v: string, i: nat)
    requires StableByLength(before, after) && i <= |after|
    requires forall k :: 0 <= k < i ==> |after[k]| >= |v|
    requires forall k :: i <= k < |after| ==> |after[k]| < |v|
    ensures StableByLength(before + [v], after[..i] + ([v] + after[i..]))
  {
    InsertLongFirst(after, v, i);
    forall n: nat
      ensures OfLength(after[..i] + ([v] + after[i..]), n) == OfLength(before + [v], n)
    {
      OfLengthInsert(before, after, v, i, n);
    }
  }

  /** Stable sorting by length, longest first. */
  method SortByLength(vs: seq<string>) returns (r: seq<string>)
    ensures StableByLength(vs, r)
  {
    r := [];
    for k := 0 to |vs|
      invariant StableByLength(vs[..k], r)
    {
      var v := vs[k];
      var i := |r|;
      while i > 0 && |r[i - 1]| < |v|
        invariant 0 <= i <= |r|
        invariant forall j :: i <= j < |r| ==> |r[j]| < |v|
      {
        i := i - 1;
      }
      InsertStable(vs[..k], r, v, i);
      assert vs[..k + 1] == vs[..k] + [v];
      r := r[..i] + ([v] + r[i..]);
    }
    assert vs[..|vs|] == vs;
  }

  lemma {:induction false} OfLengthMember(vs: seq<string>, v: string)
    ensures v in OfLength(vs, |v|) <==> v in vs
  {
    if vs != [] {
      OfLengthMember(vs[1..], v);
      assert vs == [vs[0]] + vs[1..];
    }
  }

  lemma StableKeeps(before: seq<string>, after: seq<string>)
    requires StableByLength(before, after)
    ensures forall v :: v in after <==> v in before
  {
    forall v
      ensures v in after <==> v in before
    {
      OfLengthMember(before, v);
      OfLengthMember(after, v);
    }
  }

  ghost predicate Alike(a: seq<string>, b: seq<string>) {
    forall n: nat :: OfLength(a, n) == OfLength(b, n)
  }

  /** A stable order is the only one, so sorting has one answer. */
  lemma {:induction false} StableUnique(a: seq<string>, b: seq<string>)
    requires LongFirst(a) && LongFirst(b) && Alike(a, b)
    ensures a == b
    decreases |a|
  {
    if a == [] {
      assert b != [] ==> OfLength(a, |b[0]|) == OfLength(b, |b[0]|);
    } else {
      SameHead(a, b);
      AlikeTail(a, b);
      StableUnique(a[1..], b[1..]);
      assert a == [a[0]] + a[1..] && b == [b[0]] + b[1..];
    }
  }

  lemma OfLengthTail(a: seq<string>, b: seq<string>, n: nat)
    requires a != [] && b != [] && a[0] == b[0] && OfLength(a, n) == OfLength(b, n)
    ensures OfLength(a[1..], n) == OfLength(b[1..], n)
  {
    var head := if |a[0]| == n then [a[0]] else [];
    var x, y := OfLength(a[1..], n), OfLength(b[1..], n);
    assert OfLength(a, n) == head + x && OfLength(b, n) == head + y;
    assert (head + x)[|head|..] == x && (head + y)[|head|..] == y;
  }

  lemma AlikeTail(a: seq<string>, b: seq<string>)
    requires a != [] && b != [] && a[0] == b[0] && Alike(a, b)
    ensures Alike(a[1..], b[1..])
  {
    forall n: nat
      ensures OfLength(a[1..], n) == OfLength(b[1..], n)
    {
      assert OfLength(a, n) == OfLength(b, n);
      OfLengthTail(a, b, n);
    }
  }

  lemma SameHead(a: seq<string>, b: seq<string>)
    requires a != [] && LongFirst(a) && LongFirst(b) && Alike(a, b)
    ensures b != [] && a[0] == b[0]
  {
    assert OfLength(a, |a[0]|) == OfLength(b, |a[0]|);
    OfLengthMember(a, a[0]);
    OfLengthMember(b, a[0]);
    assert OfLength(a, |b[0]|) == OfLength(b, |b[0]|);
    OfLengthMember(a, b[0]);
    OfLengthMember(b, b[0]);
    assert |a[0]| == |b[0]|;
    assert OfLength(a, |a[0]|)[0] == a[0] && OfLength(b, |b[0]|)[0] == b[0];
  }

  class Masker {
    var vals: seq<string>

    ghost predicate Valid()
      reads this
    {
      AllSet(vals) && forall i, j :: 0 <= i < j < |vals| ==> vals[i] != vals[j]
    }

    constructor ()
      ensures Valid() && vals == []
    {
      vals := [];
    }

    /** Empty and known values are ignored. */
    method Add(v: string)
      requires Valid()
      modifies this
      ensures Valid()
      ensures vals == if v == "" || v in old(vals) then old(vals) else old(vals) + [v]
    {
      if v == "" { return; }
      for i := 0 to |vals|
        invariant vals == old(vals) && v !in vals[..i]
      {
        if vals[i] == v { return; }
      }
      vals := vals + [v];
    }

    method Apply(s: string) returns (r: string)
      requires Valid()
      ensures exists vs :: StableByLength(vals, vs) && AllSet(vs) && r == Mask(vs, s)
      ensures forall v :: Covered(vals, v) ==> !Contains(r, v)
    {
      if |vals| == 0 {
        assert StableByLength(vals, []) && Mask([], s) == s;
        return s;
      }
      var vs := SortByLength(vals);
      StableKeeps(vals, vs);
      assert AllSet(vs) by { assert forall i :: 0 <= i < |vs| ==> vs[i] in vs; }
      r := s;
      for i := 0 to |vs|
        invariant Mask(vs, s) == Mask(vs[i..], r)
      {
        assert vs[i..][1..] == vs[i + 1..];
        r := Replace(r, vs[i]);
      }
      assert Mask(vs[|vs|..], r) == r;
      forall v | Covered(vals, v)
        ensures !Contains(r, v)
      {
        var u :| u in vals && Maskable(u) && Contains(v, u);
        assert u in vs;
        MaskHides(vs, s, v);
      }
    }
  }
}
