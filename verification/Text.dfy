/** String facts used across the model: byte order, ASCII case, searching. */
module Text {
  import opened Prelude

  /** Byte-wise string order (Go's `<` on strings). */
  predicate LexLess(a: string, b: string) {
    b != [] && (a == [] || a[0] < b[0] || (a[0] == b[0] && LexLess(a[1..], b[1..])))
  }

  lemma {:induction false} LexLessTotal(a: string, b: string)
    ensures a == b || LexLess(a, b) || LexLess(b, a)
  {
    if a != [] && b != [] {
      LexLessTotal(a[1..], b[1..]);
      assert a == [a[0]] + a[1..] && b == [b[0]] + b[1..];
    }
  }

  lemma {:induction false} LexLessAsymmetric(a: string, b: string)
    requires LexLess(a, b)
    ensures !LexLess(b, a) && a != b
  {
    if a != [] && a[0] == b[0] { LexLessAsymmetric(a[1..], b[1..]); }
  }

  lemma {:induction false} LexLessTransitive(a: string, b: string, c: string)
    requires LexLess(a, b) && LexLess(b, c)
    ensures LexLess(a, c)
  {
    if a != [] && a[0] == b[0] == c[0] { LexLessTransitive(a[1..], b[1..], c[1..]); }
  }

  /** Before position i the texts agree; there the first one ends or has the
      smaller character. */
  predicate PartsAt(a: string, b: string, i: nat) {
    && i <= |a| && i < |b| && a[..i] == b[..i]
    && (i == |a| || a[i] < b[i])
  }

  lemma {:induction false} LexLessIff(a: string, b: string)
    ensures LexLess(a, b) <==> exists i: nat :: PartsAt(a, b, i)
  {
    if LexLess(a, b) {
      if a == [] || a[0] < b[0] {
        assert PartsAt(a, b, 0);
      } else {
        LexLessIff(a[1..], b[1..]);
        var i: nat :| PartsAt(a[1..], b[1..], i);
        assert a[..i + 1] == [a[0]] + a[1..][..i] && b[..i + 1] == [b[0]] + b[1..][..i];
        assert PartsAt(a, b, i + 1);
      }
    } else if exists i: nat :: PartsAt(a, b, i) {
      var i: nat :| PartsAt(a, b, i);
      if i > 0 {
        assert a[0] == a[..i][0] == b[..i][0] == b[0];
        assert a[1..][..i - 1] == a[..i][1..] && b[1..][..i - 1] == b[..i][1..];
        assert PartsAt(a[1..], b[1..], i - 1);
        LexLessIff(a[1..], b[1..]);
      }
    }
  }

  function LowerChar(c: char): char {
    if 'A' <= c <= 'Z' then c - 'A' + 'a' else c
  }

  /** ASCII lower-casing. */
  function Lower(s: string): (r: string)
    ensures |r| == |s| && forall i :: 0 <= i < |s| ==> r[i] == LowerChar(s[i])
  {
    seq(|s|, i requires 0 <= i < |s| => LowerChar(s[i]))
  }

  /** ASCII white space, as trimmed by strings.TrimSpace. */
  predicate IsSpace(c: char) {
    c == ' ' || c == '\t' || c == '\n' || c == '\r' || c == '\U{000B}' || c == '\U{000C}'
  }

  function TrimLeft(s: string): string {
    if s != [] && IsSpace(s[0]) then TrimLeft(s[1..]) else s
  }

  function TrimRight(s: string): string {
    if s != [] && IsSpace(s[|s| - 1]) then TrimRight(s[..|s| - 1]) else s
  }

  function Trim(s: string): string {
    TrimRight(TrimLeft(s))
  }

  /** sub stands in s at position i. */
  predicate OccursAt(s: string, sub: string, i: int) {
    0 <= i <= |s| - |sub| && s[i..i + |sub|] == sub
  }

  predicate Contains(s: string, sub: string) {
    exists i {:trigger OccursAt(s, sub, i)} :: 0 <= i <= |s| && OccursAt(s, sub, i)
  }

  ghost predicate NoneBefore(s: string, v: string, n: nat) {
    forall j :: 0 <= j < n ==> !OccursAt(s, v, j)
  }

  /** The first position of v in s, if any. */
  function Find(s: string, v: string): (r: Option<nat>)
    requires v != ""
    ensures r.Some? ==> OccursAt(s, v, r.value) && NoneBefore(s, v, r.value)
    ensures r.None? ==> !Contains(s, v)
  {
    FindFrom(s, v, 0)
  }

  function FindFrom(s: string, v: string, i: nat): (r: Option<nat>)
    requires v != "" && i <= |s| && NoneBefore(s, v, i)
    ensures r.Some? ==> OccursAt(s, v, r.value) && NoneBefore(s, v, r.value)
    ensures r.None? ==> !Contains(s, v)
    decreases |s| - i
  {
    if OccursAt(s, v, i) then Some(i) else if i == |s| then None else FindFrom(s, v, i + 1)
  }

  lemma FoundFirst(s: string, v: string, r: Option<nat>, i: nat)
    requires OccursAt(s, v, i) && NoneBefore(s, v, i)
    requires r.Some? ==> OccursAt(s, v, r.value) && NoneBefore(s, v, r.value)
    requires r.None? ==> !Contains(s, v)
    ensures r == Some(i)
  {}

  lemma CharAt(s: string, v: string, i: int, k: nat)
    requires OccursAt(s, v, i) && k < |v|
    ensures v[k] == s[i + k]
  {
    assert s[i..i + |v|][k] == s[i + k];
  }

  lemma OccursInside(s: string, v: string, a: nat, b: nat, i: int)
    requires a <= b <= |s| && OccursAt(s[a..b], v, i)
    ensures OccursAt(s, v, a + i)
  {
    var t := s[a..b];
    var x, y := t[i..i + |v|], s[a + i..a + i + |v|];
    assert forall k :: 0 <= k < |v| ==> x[k] == y[k];
    assert x == y;
  }

  lemma ContainsInside(s: string, v: string, a: nat, b: nat)
    requires a <= b <= |s| && Contains(s[a..b], v)
    ensures Contains(s, v)
  {
    var i :| 0 <= i <= b - a && OccursAt(s[a..b], v, i);
    OccursInside(s, v, a, b, i);
  }

  /** An occurrence that lies within a part is one of the part. */
  lemma OccursWithin(s: string, v: string, a: nat, b: nat, i: int)
    requires a <= i && i + |v| <= b <= |s| && OccursAt(s, v, i)
    ensures OccursAt(s[a..b], v, i - a)
  {
    var x, y := s[a..b][i - a..i - a + |v|], s[i..i + |v|];
    assert forall k :: 0 <= k < |v| ==> x[k] == y[k];
    assert x == y;
  }

  function Join(parts: seq<string>, sep: string): string {
    if parts == [] then "" else if |parts| == 1 then parts[0] else parts[0] + sep + Join(parts[1..], sep)
  }

  /** The pieces between separators; a text without one is its only piece. */
  function Split(s: string, c: char): (r: seq<string>)
    ensures r != []
  {
    if s == [] then [""]
    else
      var rest := Split(s[1..], c);
      if s[0] == c then [""] + rest else [[s[0]] + rest[0]] + rest[1..]
  }

  lemma {:induction false} SplitPlain(s: string, c: char)
    requires c !in s
    ensures Split(s, c) == [s]
  {
    if s != [] {
      SplitPlain(s[1..], c);
      assert s == [s[0]] + s[1..];
    }
  }

  lemma {:induction false} SplitFirst(p: string, s: string, c: char)
    requires c !in p
    ensures Split(p + ([c] + s), c) == [p] + Split(s, c)
  {
    var t := p + ([c] + s);
    if p == [] {
      assert t == [c] + s && t[1..] == s;
    } else {
      SplitFirst(p[1..], s, c);
      assert t[0] == p[0] && t[1..] == p[1..] + ([c] + s);
      assert p == [p[0]] + p[1..];
    }
  }

  /** Splitting undoes joining pieces free of the separator. */
  lemma {:induction false} SplitJoin(parts: seq<string>, c: char)
    requires parts != [] && forall i :: 0 <= i < |parts| ==> c !in parts[i]
    ensures Split(Join(parts, [c]), c) == parts
  {
    if |parts| == 1 {
      SplitPlain(parts[0], c);
    } else {
      SplitJoin(parts[1..], c);
      SplitFirst(parts[0], Join(parts[1..], [c]), c);
      assert Join(parts, [c]) == parts[0] + ([c] + Join(parts[1..], [c]));
      assert parts == [parts[0]] + parts[1..];
    }
  }

  /** Joining undoes splitting, for every text. */
  lemma {:induction false} JoinSplit(s: string, c: char)
    ensures Join(Split(s, c), [c]) == s
  {
    if s != [] {
      var rest := Split(s[1..], c);
      JoinSplit(s[1..], c);
      var r := Split(s, c);
      if s[0] == c {
        assert r[1..] == rest;
        assert s == "" + [c] + s[1..];
      } else if |rest| == 1 {
        assert r == [[s[0]] + rest[0]];
      } else {
        assert r[1..] == rest[1..] && r[0] == [s[0]] + rest[0];
        assert Join(r, [c]) == [s[0]] + (rest[0] + [c] + Join(rest[1..], [c]));
      }
    }
  }

  /** The pieces of a text with a separator in it are those before it and those behind. */
  lemma {:induction false} SplitConcat(p: string, s: string, c: char)
    ensures Split(p + ([c] + s), c) == Split(p, c) + Split(s, c)
  {
    var t := p + ([c] + s);
    var y := Split(s, c);
    if p == [] {
      assert t == [c] + s && t[1..] == s;
    } else {
      SplitConcat(p[1..], s, c);
      assert t[0] == p[0] && t[1..] == p[1..] + ([c] + s);
      SplitHead(p[0], p[1..], c, y);
      assert p == [p[0]] + p[1..];
    }
  }

  lemma SplitHead(h: char, p: string, c: char, y: seq<string>)
    ensures Split([h] + p, c) + y ==
            if h == c then [""] + (Split(p, c) + y) else [[h] + (Split(p, c) + y)[0]] + (Split(p, c) + y)[1..]
  {
    var x := Split(p, c);
    assert ([h] + p)[1..] == p;
    assert (x + y)[0] == x[0] && (x + y)[1..] == x[1..] + y;
  }
}
