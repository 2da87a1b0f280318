/** File patterns with ** (internal/workflow/expression/hashfiles.go). Matching
    one segment against one pattern segment is Go's path.Match, an input here. */
module Globbing {
  import opened Prelude
  import Text

  datatype SegmentMatch = Yes | No | BadPattern

  type Matcher = (string, string) -> SegmentMatch

  /** A match, no match, or no match because of a malformed pattern. */
  datatype Outcome = Matched | Unmatched | Malformed

  type Segments = seq<string>

  const ANY := "**"

  // ---------------------------------------------------------------- what a pattern means

  /** Pattern segment k covers the path segments from cuts[k] up to cuts[k + 1]. */
  predicate CoversAt(pat: Segments, seg: Segments, cuts: seq<nat>, m: Matcher, k: int)
    requires 0 <= k < |pat| && |cuts| == |pat| + 1
  {
    && cuts[k] <= cuts[k + 1] <= |seg|
    && (pat[k] != ANY ==> cuts[k + 1] == cuts[k] + 1 && m(pat[k], seg[cuts[k]]) == Yes)
  }

  /** Every ** stands for some run of segments, perhaps empty, and every other
      pattern segment for one segment it matches; together they are the path. */
  ghost predicate Fits(pat: Segments, seg: Segments, cuts: seq<nat>, m: Matcher) {
    && |cuts| == |pat| + 1 && cuts[0] == 0 && cuts[|pat|] == |seg|
    && forall k {:trigger CoversAt(pat, seg, cuts, m, k)} :: 0 <= k < |pat| ==> CoversAt(pat, seg, cuts, m, k)
  }

  ghost predicate Matches(pat: Segments, seg: Segments, m: Matcher) {
    exists cuts :: Fits(pat, seg, cuts, m)
  }

  // ---------------------------------------------------------------- the search

  function Match(pat: Segments, seg: Segments, m: Matcher): Outcome
    decreases |pat|
  {
    if pat == [] then if seg == [] then Matched else Unmatched
    else if pat[0] == ANY then
      if exists i :: 0 <= i <= |seg| && Match(pat[1..], seg[i..], m) == Matched then Matched else Unmatched
    else if seg == [] then Unmatched
    else
      match m(pat[0], seg[0])
      case Yes => Match(pat[1..], seg[1..], m)
      case No => Unmatched
      case BadPattern => Malformed
  }

  method MatchSegments(pattern: Segments, path: Segments, m: Matcher) returns (r: Outcome)
    ensures r == Match(pattern, path, m)
    decreases |pattern|
  {
    var pat, seg := pattern, path;
    while |pat| > 0
      invariant |pat| <= |pattern| && Match(pat, seg, m) == Match(pattern, path, m)
      decreases |pat|
    {
      if pat[0] == ANY {
        for i := 0 to |seg| + 1
          invariant forall k :: 0 <= k < i ==> Match(pat[1..], seg[k..], m) != Matched
        {
          var sub := MatchSegments(pat[1..], seg[i..], m);
          if sub == Matched { return Matched; }
        }
        return Unmatched;
      }
      if |seg| == 0 { return Unmatched; }
      var one := m(pat[0], seg[0]);
      if one == BadPattern { return Malformed; }
      if one == No { return Unmatched; }
      pat, seg := pat[1..], seg[1..];
    }
    r := if |seg| == 0 then Matched else Unmatched;
  }

  // ---------------------------------------------------------------- the search finds the meaning

  /** The cuts of the rest of a pattern, moved behind its first segment. */
  function Shifted(cuts: seq<nat>, shift: nat): (r: seq<nat>)
    ensures |r| == |cuts| + 1 && r[0] == 0 && forall k :: 0 <= k < |cuts| ==> r[k + 1] == cuts[k] + shift
  {
    [0] + seq(|cuts|, k requires 0 <= k < |cuts| => cuts[k] + shift)
  }

  lemma FitsCons(pat: Segments, seg: Segments, i: nat, cuts: seq<nat>, m: Matcher)
    requires pat != [] && i <= |seg| && Fits(pat[1..], seg[i..], cuts, m)
    requires pat[0] != ANY ==> i == 1 && m(pat[0], seg[0]) == Yes
    ensures Fits(pat, seg, Shifted(cuts, i), m)
  {
    var c := Shifted(cuts, i);
    forall k | 0 <= k < |pat|
      ensures CoversAt(pat, seg, c, m, k)
    {
      if k > 0 { assert CoversAt(pat[1..], seg[i..], cuts, m, k - 1); }
    }
  }

  lemma FitsTail(pat: Segments, seg: Segments, cuts: seq<nat>, m: Matcher) returns (rest: seq<nat>)
    requires pat != [] && Fits(pat, seg, cuts, m)
    ensures cuts[1] <= |seg| && Fits(pat[1..], seg[cuts[1]..], rest, m)
    ensures pat[0] != ANY ==> seg != [] && cuts[1] == 1 && m(pat[0], seg[0]) == Yes
  {
    assert CoversAt(pat, seg, cuts, m, 0);
    var shift := cuts[1];
    forall k | 1 <= k <= |pat|
      ensures cuts[k] >= shift
    {
      CutsGrow(pat, seg, cuts, m, 1, k);
    }
    rest := seq(|pat|, k requires 0 <= k < |pat| => cuts[k + 1] - shift);
    forall k | 0 <= k < |pat| - 1
      ensures CoversAt(pat[1..], seg[shift..], rest, m, k)
    {
      assert CoversAt(pat, seg, cuts, m, k + 1);
    }
  }

  lemma {:induction false} CutsGrow(pat: Segments, seg: Segments, cuts: seq<nat>, m: Matcher, a: nat, b: nat)
    requires Fits(pat, seg, cuts, m) && a <= b <= |pat|
    ensures cuts[a] <= cuts[b]
    decreases b - a
  {
    if a < b {
      assert CoversAt(pat, seg, cuts, m, b - 1);
      CutsGrow(pat, seg, cuts, m, a, b - 1);
    }
  }

  lemma {:induction false} MatchIff(pat: Segments, seg: Segments, m: Matcher)
    ensures Match(pat, seg, m) == Matched <==> Matches(pat, seg, m)
    decreases |pat|
  {
    if Matches(pat, seg, m) {
      var cuts :| Fits(pat, seg, cuts, m);
      if pat != [] {
        var rest := FitsTail(pat, seg, cuts, m);
        MatchIff(pat[1..], seg[cuts[1]..], m);
      }
    }
    if Match(pat, seg, m) == Matched {
      if pat == [] {
        assert Fits(pat, seg, [0], m);
      } else {
        var i := FirstCut(pat, seg, m);
        MatchIff(pat[1..], seg[i..], m);
        var cuts :| Fits(pat[1..], seg[i..], cuts, m);
        FitsCons(pat, seg, i, cuts, m);
      }
    }
  }

  lemma FirstCut(pat: Segments, seg: Segments, m: Matcher) returns (i: nat)
    requires pat != [] && Match(pat, seg, m) == Matched
    ensures i <= |seg| && Match(pat[1..], seg[i..], m) == Matched
    ensures pat[0] != ANY ==> i == 1 && m(pat[0], seg[0]) == Yes
  {
    if pat[0] == ANY {
      i :| 0 <= i <= |seg| && Match(pat[1..], seg[i..], m) == Matched;
    } else {
      i := 1;
    }
  }

  /** The first malformed segment reached by plain matching, before any **. */
  predicate StumblesAt(pat: Segments, seg: Segments, m: Matcher, k: int) {
    && 0 <= k < |pat| && k < |seg| && pat[k] != ANY && m(pat[k], seg[k]) == BadPattern
    && forall i :: 0 <= i < k ==> pat[i] != ANY && m(pat[i], seg[i]) == Yes
  }

  /** A malformed pattern is reported exactly when plain matching stumbles on it;
      behind a ** it only fails to match. */
  lemma {:induction false} MalformedIff(pat: Segments, seg: Segments, m: Matcher)
    ensures Match(pat, seg, m) == Malformed <==> exists k :: StumblesAt(pat, seg, m, k)
    decreases |pat|
  {
    if pat != [] && pat[0] != ANY && seg != [] {
      if m(pat[0], seg[0]) == BadPattern {
        assert StumblesAt(pat, seg, m, 0);
      } else if m(pat[0], seg[0]) == Yes {
        MalformedIff(pat[1..], seg[1..], m);
        forall k
          ensures StumblesAt(pat, seg, m, k) <==> StumblesAt(pat[1..], seg[1..], m, k - 1)
        {
          StumbleTail(pat, seg, m, k);
        }
        if exists k :: StumblesAt(pat[1..], seg[1..], m, k) {
          var k :| StumblesAt(pat[1..], seg[1..], m, k);
          assert StumblesAt(pat, seg, m, k + 1);
        }
      }
    }
  }

  lemma StumbleTail(pat: Segments, seg: Segments, m: Matcher, k: int)
    requires pat != [] && seg != [] && pat[0] != ANY && m(pat[0], seg[0]) == Yes
    ensures StumblesAt(pat, seg, m, k) <==> StumblesAt(pat[1..], seg[1..], m, k - 1)
  {
    var p, s := pat[1..], seg[1..];
    if StumblesAt(pat, seg, m, k) {
      assert forall i :: 0 <= i < k - 1 ==> p[i] == pat[i + 1] && s[i] == seg[i + 1];
    }
    if StumblesAt(p, s, m, k - 1) {
      forall i | 0 <= i < k
        ensures pat[i] != ANY && m(pat[i], seg[i]) == Yes
      {
        if i > 0 { assert pat[i] == p[i - 1] && seg[i] == s[i - 1]; }
      }
    }
  }

  // ---------------------------------------------------------------- patterns side by side

  ghost predicate SplitsAt(p: Segments, q: Segments, seg: Segments, m: Matcher, i: int) {
    0 <= i <= |seg| && Matches(p, seg[..i], m) && Matches(q, seg[i..], m)
  }

  lemma JoinCuts(p: Segments, q: Segments, seg: Segments, m: Matcher, i: nat, a: seq<nat>, b: seq<nat>)
    requires i <= |seg| && Fits(p, seg[..i], a, m) && Fits(q, seg[i..], b, m)
    ensures Matches(p + q, seg, m)
  {
    var n := |p|;
    var c := a[..n] + seq(|q| + 1, k requires 0 <= k <= |q| => b[k] + i);
    forall k | 0 <= k < |p + q|
      ensures CoversAt(p + q, seg, c, m, k)
    {
      if k < n {
        assert CoversAt(p, seg[..i], a, m, k);
        assert c[k] == a[k] && c[k + 1] == a[k + 1];
      } else {
        assert CoversAt(q, seg[i..], b, m, k - n);
        assert c[k] == b[k - n] + i && c[k + 1] == b[k - n + 1] + i;
      }
    }
    assert Fits(p + q, seg, c, m);
  }

  lemma SplitCuts(p: Segments, q: Segments, seg: Segments, m: Matcher, c: seq<nat>)
    requires Fits(p + q, seg, c, m)
    ensures c[|p|] <= |seg| && SplitsAt(p, q, seg, m, c[|p|])
  {
    var n, t := |p|, p + q;
    var i := c[n];
    CutsGrow(t, seg, c, m, n, |t|);
    var a := c[..n + 1];
    forall k | 0 <= k < n
      ensures CoversAt(p, seg[..i], a, m, k)
    {
      assert CoversAt(t, seg, c, m, k);
      CutsGrow(t, seg, c, m, k + 1, n);
    }
    assert Fits(p, seg[..i], a, m);
    forall k | n <= k <= |t|
      ensures c[k] >= i
    {
      CutsGrow(t, seg, c, m, n, k);
    }
    var b := seq(|q| + 1, k requires 0 <= k <= |q| => c[n + k] - i);
    forall k | 0 <= k < |q|
      ensures CoversAt(q, seg[i..], b, m, k)
    {
      assert CoversAt(t, seg, c, m, n + k);
    }
    assert Fits(q, seg[i..], b, m);
  }

  /** Two patterns one after the other match exactly the paths that split so. */
  lemma ConcatMatches(p: Segments, q: Segments, seg: Segments, m: Matcher)
    ensures Matches(p + q, seg, m) <==> exists i :: SplitsAt(p, q, seg, m, i)
  {
    if Matches(p + q, seg, m) {
      var c :| Fits(p + q, seg, c, m);
      SplitCuts(p, q, seg, m, c);
    }
    if exists i :: SplitsAt(p, q, seg, m, i) {
      var i :| SplitsAt(p, q, seg, m, i);
      var a :| Fits(p, seg[..i], a, m);
      var b :| Fits(q, seg[i..], b, m);
      JoinCuts(p, q, seg, m, i, a, b);
    }
  }

  lemma AnyMatchesAll(seg: Segments, m: Matcher)
    ensures Matches([ANY], seg, m) && Matches([ANY, ANY], seg, m)
  {
    var c, d := [0, |seg|], [0, 0, |seg|];
    assert forall k :: 0 <= k < 1 ==> CoversAt([ANY], seg, c, m, k);
    assert Fits([ANY], seg, c, m);
    assert forall k :: 0 <= k < 2 ==> CoversAt([ANY, ANY], seg, d, m, k);
    assert Fits([ANY, ANY], seg, d, m);
  }

  /** ** behind ** adds nothing, wherever it stands. */
  lemma AdjacentCollapse(p: Segments, q: Segments, seg: Segments, m: Matcher)
    ensures Matches(p + ([ANY, ANY] + q), seg, m) <==> Matches(p + ([ANY] + q), seg, m)
  {
    forall s: Segments
      ensures Matches([ANY, ANY] + q, s, m) <==> Matches([ANY] + q, s, m)
    {
      FrontCollapse(q, s, m);
    }
    ConcatMatches(p, [ANY, ANY] + q, seg, m);
    ConcatMatches(p, [ANY] + q, seg, m);
    forall i
      ensures SplitsAt(p, [ANY, ANY] + q, seg, m, i) <==> SplitsAt(p, [ANY] + q, seg, m, i)
    {
    }
  }

  lemma FrontCollapse(q: Segments, seg: Segments, m: Matcher)
    ensures Matches([ANY, ANY] + q, seg, m) <==> Matches([ANY] + q, seg, m)
  {
    ConcatMatches([ANY, ANY], q, seg, m);
    ConcatMatches([ANY], q, seg, m);
    forall i | 0 <= i <= |seg|
      ensures SplitsAt([ANY, ANY], q, seg, m, i) <==> SplitsAt([ANY], q, seg, m, i)
    {
      AnyMatchesAll(seg[..i], m);
    }
  }

  // ---------------------------------------------------------------- whole texts

  function TrimSlashes(s: string): string {
    if s != "" && s[0] == '/' then TrimSlashes(s[1..])
    else if s != "" && s[|s| - 1] == '/' then TrimSlashes(s[..|s| - 1])
    else s
  }

  predicate OnlySlashes(s: string) {
    forall i :: 0 <= i < |s| ==> s[i] == '/'
  }

  /** What is left has no slash at either end; only slashes went. */
  lemma {:induction false} TrimSlashesMeaning(s: string) returns (a: string, b: string)
    ensures var r := TrimSlashes(s);
            s == a + r + b && OnlySlashes(a) && OnlySlashes(b) && (r != "" ==> r[0] != '/' && r[|r| - 1] != '/')
    decreases |s|
  {
    a, b := "", "";
    if s != "" && s[0] == '/' {
      a, b := TrimSlashesMeaning(s[1..]);
      a := "/" + a;
      assert s == [s[0]] + s[1..];
    } else if s != "" && s[|s| - 1] == '/' {
      a, b := TrimSlashesMeaning(s[..|s| - 1]);
      b := b + "/";
      assert s == s[..|s| - 1] + [s[|s| - 1]];
    } else {
      assert s == "" + s + "";
    }
  }

  /** The segments of a slash-separated text. */
  function SegmentsOf(s: string): Segments {
    Text.Split(TrimSlashes(s), '/')
  }

  method MatchGlob(pattern: string, name: string, m: Matcher) returns (r: Outcome)
    ensures r == Matched <==> Matches(SegmentsOf(pattern), SegmentsOf(name), m)
    ensures r == Malformed <==> exists k :: StumblesAt(SegmentsOf(pattern), SegmentsOf(name), m, k)
  {
    r := MatchSegments(SegmentsOf(pattern), SegmentsOf(name), m);
    MatchIff(SegmentsOf(pattern), SegmentsOf(name), m);
    MalformedIff(SegmentsOf(pattern), SegmentsOf(name), m);
  }
}
