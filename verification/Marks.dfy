/** Marks that the condition rewrite looks for in the text, found in its tokens:
    a mark stands in a string literal, or is the end of an identifier with the
    next character right behind it. */
module Marks {
  import opened Prelude
  import opened Lexing
  import opened Scanner
  import Txt = Text

  /** Lower-case letters. */
  predicate Word(w: string) {
    w != [] && forall i :: 0 <= i < |w| ==> 'a' <= w[i] <= 'z'
  }

  predicate MarkEnd(c: char) { c == '(' || c == '.' }

  predicate EndsWith(s: string, w: string) { |w| <= |s| && s[|s| - |w|..] == w }

  /** The token carries the mark made of a word and one character. */
  predicate Carries(s: string, x: Lexeme, w: string, c: char) {
    match x.token
    case Some(Ident(t)) => EndsWith(Txt.Lower(t), w) && x.at.offset + |t| < |s| && s[x.at.offset + |t|] == c
    case Some(Str(v)) => Txt.Contains(Txt.Lower(v), w + [c])
    case _ => false
  }

  // ---------------------------------------------------------------- quotes do not matter

  predicate Starts(s: string, m: string) { |m| <= |s| && s[..|m|] == m }

  lemma ContainsStep(s: string, m: string)
    requires m != []
    ensures Txt.Contains(s, m) <==> Starts(s, m) || (s != [] && Txt.Contains(s[1..], m))
  {
    if Starts(s, m) { assert Txt.OccursAt(s, m, 0); }
    if s != [] && Txt.Contains(s[1..], m) {
      var i :| 0 <= i <= |s[1..]| && Txt.OccursAt(s[1..], m, i);
      assert s[1..][i..i + |m|] == s[i + 1..i + 1 + |m|];
      assert Txt.OccursAt(s, m, i + 1);
    }
    if Txt.Contains(s, m) && !Starts(s, m) {
      var i :| 0 <= i <= |s| && Txt.OccursAt(s, m, i);
      assert i > 0;
      assert s[1..][i - 1..i - 1 + |m|] == s[i..i + |m|];
      assert Txt.OccursAt(s[1..], m, i - 1);
    }
  }

  lemma {:induction false} StartsQuoted(u: string, m: string)
    requires '\'' !in m
    ensures Starts(Quoted(u), m) <==> Starts(u, m)
    decreases |m|
  {
    if m != [] && u != [] {
      var q := Quoted(u);
      StartsStep(u, m);
      StartsStep(q, m);
      if u[0] != '\'' {
        assert q == [u[0]] + Quoted(u[1..]) && q[1..] == Quoted(u[1..]);
        StartsQuoted(u[1..], m[1..]);
      } else {
        assert q[0] == '\'';
      }
    }
  }

  lemma StartsStep(s: string, m: string)
    requires m != [] && s != []
    ensures Starts(s, m) <==> s[0] == m[0] && Starts(s[1..], m[1..])
  {
    if s[0] == m[0] && Starts(s[1..], m[1..]) { assert s[..|m|] == [s[0]] + s[1..][..|m| - 1] && m == [m[0]] + m[1..]; }
    if Starts(s, m) {
      assert s[0] == s[..|m|][0];
      assert s[1..][..|m| - 1] == s[..|m|][1..];
    }
  }

  lemma {:induction false} QuotedContains(u: string, m: string)
    requires m != [] && '\'' !in m
    ensures Txt.Contains(Quoted(u), m) <==> Txt.Contains(u, m)
  {
    var q := Quoted(u);
    ContainsStep(u, m);
    ContainsStep(q, m);
    StartsQuoted(u, m);
    if u != [] {
      QuotedContains(u[1..], m);
      if u[0] == '\'' {
        assert q[1..] == ['\''] + Quoted(u[1..]);
        ContainsStep(q[1..], m);
        assert q[1..][0] == '\'' && q[1..][1..] == Quoted(u[1..]);
        assert !Starts(q[1..], m) by { StartsStep(q[1..], m); }
      } else {
        assert q[1..] == Quoted(u[1..]);
      }
    }
  }

  lemma LowerConcat(a: string, b: string)
    ensures Txt.Lower(a + b) == Txt.Lower(a) + Txt.Lower(b)
  {}

  lemma {:induction false} LowerQuoted(u: string)
    ensures Txt.Lower(Quoted(u)) == Quoted(Txt.Lower(u))
  {
    if u != [] {
      LowerQuoted(u[1..]);
      var c, l := u[0], Txt.LowerChar(u[0]);
      assert Txt.Lower(u) == [l] + Txt.Lower(u[1..]);
      var front := if c == '\'' then ['\'', '\''] else [c];
      assert Txt.Lower(front) == if l == '\'' then ['\'', '\''] else [l];
      LowerConcat(front, Quoted(u[1..]));
    }
  }

  /** What was read as a string is its text with quotes doubled, and the quote that ends it. */
  lemma {:induction false} BodyIsQuoted(s: string)
    requires StringBody(s).Some?
    ensures var (v, n) := StringBody(s).value; s[..n] == Quoted(v) + ['\'']
  {
    var (v, n) := StringBody(s).value;
    if s[0] != '\'' {
      BodyIsQuoted(s[1..]);
      assert s[..n] == [s[0]] + s[1..][..n - 1] && v[1..] == StringBody(s[1..]).value.0;
    } else if |s| > 1 && s[1] == '\'' {
      BodyIsQuoted(s[2..]);
      assert s[..n] == ['\'', '\''] + s[2..][..n - 2] && v[1..] == StringBody(s[2..]).value.0;
    }
  }

  // ---------------------------------------------------------------- an occurrence within one token

  ghost predicate OccursIn(low: string, m: string, a: nat, b: nat) {
    exists i :: a <= i < b && Txt.OccursAt(low, m, i)
  }

  lemma OccursSplit(low: string, m: string, a: nat, b: nat, c: nat)
    requires a <= b <= c
    ensures OccursIn(low, m, a, c) <==> OccursIn(low, m, a, b) || OccursIn(low, m, b, c)
  {}

  /** No occurrence starts where its first character cannot stand. */
  lemma NoneStarts(low: string, m: string, a: nat, b: nat)
    requires m != [] && b <= |low| && forall i :: a <= i < b ==> low[i] != m[0]
    ensures !OccursIn(low, m, a, b)
  {
    forall i | a <= i < b
      ensures !Txt.OccursAt(low, m, i)
    {
      if Txt.OccursAt(low, m, i) { Txt.CharAt(low, m, i, 0); }
    }
  }

  lemma Covered(low: string, m: string, i: int, q: nat)
    requires Txt.OccursAt(low, m, i) && q < |low|
    ensures i <= q < i + |m| ==> low[q] in m
  {
    if i <= q < i + |m| { Txt.CharAt(low, m, i, q - i); }
  }

  /** Between two quotes, a mark without quotes stays between them. */
  lemma InQuotes(low: string, m: string, k: nat, e: nat)
    requires m != [] && '\'' !in m && k + 1 < e <= |low| && low[k] == '\'' && low[e - 1] == '\''
    ensures OccursIn(low, m, k, e) <==> Txt.Contains(low[k + 1..e - 1], m)
  {
    var body := low[k + 1..e - 1];
    if OccursIn(low, m, k, e) {
      var i :| k <= i < e && Txt.OccursAt(low, m, i);
      Covered(low, m, i, k);
      Covered(low, m, i, e - 1);
      Txt.OccursWithin(low, m, k + 1, e - 1, i);
    }
    if Txt.Contains(body, m) {
      var j :| 0 <= j <= |body| && Txt.OccursAt(body, m, j);
      Txt.OccursInside(low, m, k + 1, e - 1, j);
    }
  }

  predicate Letter(c: char) { 'a' <= c <= 'z' }

  /** In an identifier from k to e, a word and a character behind it occur only at its end. */
  lemma AtEnd(low: string, w: string, c: char, k: nat, e: nat)
    requires Word(w) && MarkEnd(c) && k <= e <= |low|
    requires forall i :: k <= i < e ==> low[i] != c
    requires e < |low| ==> !Letter(low[e])
    ensures OccursIn(low, w + [c], k, e) <==> EndsWith(low[k..e], w) && e < |low| && low[e] == c
  {
    var m := w + [c];
    if OccursIn(low, m, k, e) {
      var i :| k <= i < e && Txt.OccursAt(low, m, i);
      OccursAtEnd(low, w, c, k, e, i);
    }
    if EndsWith(low[k..e], w) && e < |low| && low[e] == c {
      var i := e - |w|;
      assert low[i..e] == low[k..e][i - k..];
      assert low[i..i + |m|] == low[i..e] + [low[e]];
      assert Txt.OccursAt(low, m, i);
    }
  }

  lemma OccursAtEnd(low: string, w: string, c: char, k: nat, e: nat, i: nat)
    requires Word(w) && MarkEnd(c) && k <= i < e <= |low| && Txt.OccursAt(low, w + [c], i)
    requires forall n :: k <= n < e ==> low[n] != c
    requires e < |low| ==> !Letter(low[e])
    ensures EndsWith(low[k..e], w) && e < |low| && low[e] == c
  {
    var m := w + [c];
    Txt.CharAt(low, m, i, |w|);
    if e < i + |w| { Txt.CharAt(low, m, i, e - i); }
    assert low[i..i + |m|][..|w|] == low[i..e];
    assert low[k..e][i - k..] == low[i..e];
  }

  // ---------------------------------------------------------------- token by token

  /** One read of the lexer: the text from k is a token that ends before e. */
  ghost predicate ReadFrom(s: string, k: nat, e: nat, tok: Token, floats: Floats) {
    && k < e <= |s| && !IsBlank(s[k])
    && Front(s[k..], floats) == Ok((tok, e - k))
  }

  lemma IdentRead(s: string, k: nat, e: nat, tok: Token, floats: Floats)
    requires ReadFrom(s, k, e, tok, floats) && tok.Ident?
    ensures tok.text == s[k..e] && (forall i :: k <= i < e ==> IsIdentPart(s[i])) && (e < |s| ==> !IsIdentPart(s[e]))
  {
    var t := s[k..];
    IdentRunParts(t);
    RunStops(t);
    assert t[..e - k] == s[k..e];
    assert forall i :: k <= i < e ==> s[i] == t[i - k];
  }

  lemma {:induction false} RunStops(t: string)
    ensures IdentRun(t) < |t| ==> !IsIdentPart(t[IdentRun(t)])
  {
    if t != [] && IsIdentPart(t[0]) { RunStops(t[1..]); }
  }

  lemma StrRead(s: string, k: nat, e: nat, tok: Token, floats: Floats)
    requires ReadFrom(s, k, e, tok, floats) && tok.Str?
    ensures k + 1 < e && s[k] == '\'' && s[e - 1] == '\'' && s[k + 1..e - 1] == Quoted(tok.str)
  {
    var t := s[k..];
    BodyIsQuoted(t[1..]);
    assert t[1..][..e - k - 1] == s[k + 1..e];
    assert s[k + 1..e][e - k - 2] == '\'';
    assert s[k + 1..e - 1] == s[k + 1..e][..e - k - 2];
  }

  /** Characters of numbers and operators. */
  predicate Plainly(c: char) {
    IsDigit(c) || c == '-' || c == '&' || c == '|' || c == '=' || OneCharOp(c)
  }

  lemma OtherRead(s: string, k: nat, e: nat, tok: Token, floats: Floats)
    requires ReadFrom(s, k, e, tok, floats) && (tok.Number? || tok.Punct?)
    ensures forall i :: k <= i < e ==> Plainly(s[i])
  {
    var t := s[k..];
    if tok.Number? {
      if t[0] == '-' { NumberChars(t[1..], false); } else { NumberChars(t, false); }
      forall i | k <= i < e
        ensures Plainly(s[i])
      {
        assert s[i] == t[i - k];
        assert i > k ==> s[i] == t[1..][i - k - 1];
      }
    } else {
      assert forall i :: k <= i < e ==> s[i] == t[i - k];
    }
  }

  lemma {:induction false} NumberChars(t: string, hasDot: bool)
    ensures forall i :: 0 <= i < NumberRun(t, hasDot) ==> IsDigit(t[i]) || t[i] == '.'
  {
    var n := NumberRun(t, hasDot);
    if n > 0 {
      NumberChars(t[1..], if StartsDigit(t) then hasDot else true);
      forall i | 0 <= i < n
        ensures IsDigit(t[i]) || t[i] == '.'
      {
        assert i > 0 ==> t[i] == t[1..][i - 1];
      }
    }
  }

  lemma StrCarries(s: string, k: nat, e: nat, tok: Token, m: string, floats: Floats)
    requires ReadFrom(s, k, e, tok, floats) && tok.Str? && m != [] && '\'' !in m
    ensures OccursIn(Txt.Lower(s), m, k, e) <==> Txt.Contains(Txt.Lower(tok.str), m)
  {
    var low := Txt.Lower(s);
    StrRead(s, k, e, tok, floats);
    InQuotes(low, m, k, e);
    assert low[k + 1..e - 1] == Txt.Lower(s[k + 1..e - 1]);
    LowerQuoted(tok.str);
    QuotedContains(Txt.Lower(tok.str), m);
  }

  lemma IdentCarries(s: string, k: nat, e: nat, tok: Token, w: string, c: char, floats: Floats)
    requires ReadFrom(s, k, e, tok, floats) && tok.Ident? && Word(w) && MarkEnd(c)
    ensures OccursIn(Txt.Lower(s), w + [c], k, e) <==> EndsWith(Txt.Lower(tok.text), w) && e < |s| && s[e] == c
  {
    var low := Txt.Lower(s);
    IdentRead(s, k, e, tok, floats);
    AtEnd(low, w, c, k, e);
    assert low[k..e] == Txt.Lower(tok.text);
  }

  lemma TokenCarries(s: string, k: nat, e: nat, x: Lexeme, w: string, c: char, floats: Floats)
    requires x.token.Some? && x.at.offset == k && ReadFrom(s, k, e, x.token.value, floats) && Word(w) && MarkEnd(c)
    ensures OccursIn(Txt.Lower(s), w + [c], k, e) <==> Carries(s, x, w, c)
  {
    var tok := x.token.value;
    match tok
    case Ident(t) =>
      IdentCarries(s, k, e, tok, w, c, floats);
      IdentRead(s, k, e, tok, floats);
    case Str(v) =>
      NoQuoteInMark(w, c);
      StrCarries(s, k, e, tok, w + [c], floats);
    case Number(t) => OtherCarries(s, k, e, tok, w, c, floats);
    case Punct(t) => OtherCarries(s, k, e, tok, w, c, floats);
  }

  lemma NoQuoteInMark(w: string, c: char)
    requires Word(w) && MarkEnd(c)
    ensures '\'' !in w + [c]
  {}

  lemma OtherCarries(s: string, k: nat, e: nat, tok: Token, w: string, c: char, floats: Floats)
    requires ReadFrom(s, k, e, tok, floats) && (tok.Number? || tok.Punct?) && Word(w)
    ensures !OccursIn(Txt.Lower(s), w + [c], k, e)
  {
    OtherRead(s, k, e, tok, floats);
    NoneStarts(Txt.Lower(s), w + [c], k, e);
  }

  ghost predicate AnyCarries(s: string, xs: seq<Lexeme>, w: string, c: char) {
    exists x :: x in xs && Carries(s, x, w, c)
  }

  lemma BlanksCarryNothing(s: string, n: nat, k: nat, m: string)
    requires n <= k <= |s| && (forall i :: n <= i < k ==> IsBlank(s[i])) && m != [] && !IsBlank(m[0])
    ensures !OccursIn(Txt.Lower(s), m, n, k)
  {
    NoneStarts(Txt.Lower(s), m, n, k);
  }

  lemma ReadIs(s: string, n: nat, floats: Floats) returns (k: nat, e: nat)
    requires n <= |s| && ReadAt(s, n, floats).Ok?
    ensures n <= k <= e <= |s| && (forall i :: n <= i < k ==> IsBlank(s[i]))
    ensures var (x, m) := ReadAt(s, n, floats).value;
            && x.at.offset == k && m == e
            && if x.token.None? then k == e == |s| else ReadFrom(s, k, e, x.token.value, floats)
  {
    StartMeaning(s, n);
    k := Start(s, n);
    e := ReadAt(s, n, floats).value.1;
    assert k < |s| ==> s[k] == s[k..][0];
  }

  lemma {:induction false} MarkFrom(s: string, n: nat, w: string, c: char, floats: Floats)
    requires n <= |s| && ScanFrom(s, n, floats).Ok? && Word(w) && MarkEnd(c)
    ensures OccursIn(Txt.Lower(s), w + [c], n, |s|) <==> AnyCarries(s, ScanFrom(s, n, floats).value, w, c)
    decreases |s| - n
  {
    var low, m := Txt.Lower(s), w + [c];
    var k, e := ReadIs(s, n, floats);
    var x := ReadAt(s, n, floats).value.0;
    BlanksCarryNothing(s, n, k, m);
    OccursSplit(low, m, n, k, |s|);
    if x.token.Some? {
      TokenCarries(s, k, e, x, w, c, floats);
      OccursSplit(low, m, k, e, |s|);
      MarkFrom(s, e, w, c, floats);
      var rest := ScanFrom(s, e, floats).value;
      assert ScanFrom(s, n, floats).value == [x] + rest;
      assert forall y :: y in [x] + rest <==> y == x || y in rest;
    }
  }

  /** A mark is in a text exactly when one of its tokens carries it. */
  lemma MarkIff(s: string, w: string, c: char, floats: Floats)
    requires ScanFrom(s, 0, floats).Ok? && Word(w) && MarkEnd(c)
    ensures Txt.Contains(Txt.Lower(s), w + [c]) <==> AnyCarries(s, ScanFrom(s, 0, floats).value, w, c)
  {
    MarkFrom(s, 0, w, c, floats);
    WholeText(Txt.Lower(s), w + [c]);
  }

  lemma WholeText(low: string, m: string)
    requires m != []
    ensures Txt.Contains(low, m) <==> OccursIn(low, m, 0, |low|)
  {}

  // ---------------------------------------------------------------- templates

  predicate Holds(x: Lexeme, m: string) {
    x.token.Some? && x.token.value.Str? && Txt.Contains(Txt.Lower(x.token.value.str), m)
  }

  ghost predicate AnyHolds(xs: seq<Lexeme>, m: string) {
    exists x :: x in xs && Holds(x, m)
  }

  lemma TokenHolds(s: string, k: nat, e: nat, x: Lexeme, m: string, floats: Floats)
    requires x.token.Some? && ReadFrom(s, k, e, x.token.value, floats) && m != [] && m[0] == '$' && '\'' !in m
    ensures OccursIn(Txt.Lower(s), m, k, e) <==> Holds(x, m)
  {
    var tok := x.token.value;
    match tok
    case Str(v) => StrCarries(s, k, e, tok, m, floats);
    case Ident(t) =>
      IdentRead(s, k, e, tok, floats);
      NoneStarts(Txt.Lower(s), m, k, e);
    case _ =>
      OtherRead(s, k, e, tok, floats);
      NoneStarts(Txt.Lower(s), m, k, e);
  }

  lemma {:induction false} HoldsFrom(s: string, n: nat, m: string, floats: Floats)
    requires n <= |s| && ScanFrom(s, n, floats).Ok? && m != [] && m[0] == '$' && '\'' !in m
    ensures OccursIn(Txt.Lower(s), m, n, |s|) <==> AnyHolds(ScanFrom(s, n, floats).value, m)
    decreases |s| - n
  {
    var low := Txt.Lower(s);
    var k, e := ReadIs(s, n, floats);
    var x := ReadAt(s, n, floats).value.0;
    BlanksCarryNothing(s, n, k, m);
    OccursSplit(low, m, n, k, |s|);
    if x.token.Some? {
      TokenHolds(s, k, e, x, m, floats);
      OccursSplit(low, m, k, e, |s|);
      HoldsFrom(s, e, m, floats);
      var rest := ScanFrom(s, e, floats).value;
      assert ScanFrom(s, n, floats).value == [x] + rest;
      assert forall y :: y in [x] + rest <==> y == x || y in rest;
    }
  }

  /** A template in a text that lexes stands in a string literal. */
  lemma TemplateIff(s: string, m: string, floats: Floats)
    requires ScanFrom(s, 0, floats).Ok? && m != [] && m[0] == '$' && '\'' !in m
    ensures Txt.Contains(Txt.Lower(s), m) <==> AnyHolds(ScanFrom(s, 0, floats).value, m)
  {
    HoldsFrom(s, 0, m, floats);
    WholeText(Txt.Lower(s), m);
  }
}
