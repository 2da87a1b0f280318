/** The expression lexer (internal/workflow/expression/lexer.go) as a function
    on the remaining text: tokens, faults, and how lexing acts on concatenation. */
module Lexing {
  import opened Prelude

  datatype Token = Ident(text: string) | Number(lexeme: string) | Str(str: string) | Punct(text: string)

  datatype LexFault = BadNumber | Unterminated | DoubleQuoted | Arithmetic | UnexpectedCharacter

  /** The fault and how much text was left where the faulty token starts. */
  datatype LexError = LexError(fault: LexFault, left: nat)

  /** Whether a 64-bit float can hold the number a lexeme denotes. */
  type Floats = string -> bool

  predicate IsBlank(c: char) { c == ' ' || c == '\t' || c == '\r' || c == '\n' }
  predicate IsDigit(c: char) { '0' <= c <= '9' }
  predicate IsIdentStart(c: char) { 'a' <= c <= 'z' || 'A' <= c <= 'Z' || c == '_' }
  predicate IsIdentPart(c: char) { IsIdentStart(c) || IsDigit(c) || c == '-' }

  /** The text without the blanks at the front. */
  function Unblank(s: string): (r: string)
    ensures |r| <= |s| && Tight(r)
  {
    if s != [] && IsBlank(s[0]) then Unblank(s[1..]) else s
  }

  predicate Tight(s: string) { s == [] || !IsBlank(s[0]) }

  /** The identifier characters at the front. */
  function IdentRun(s: string): (n: nat)
    ensures n <= |s|
  {
    if s != [] && IsIdentPart(s[0]) then 1 + IdentRun(s[1..]) else 0
  }

  predicate StartsDigit(s: string) { s != [] && IsDigit(s[0]) }

  /** Digits, with one '.' allowed where a digit follows it. */
  function NumberRun(s: string, hasDot: bool): (n: nat)
    ensures n <= |s|
  {
    if StartsDigit(s) then 1 + NumberRun(s[1..], hasDot)
    else if s != [] && s[0] == '.' && !hasDot && StartsDigit(s[1..]) then 1 + NumberRun(s[1..], true)
    else 0
  }

  predicate StartsNumber(s: string) {
    StartsDigit(s) || (s != [] && s[0] == '-' && StartsDigit(s[1..]))
  }

  function NumberLength(s: string): (n: nat)
    requires StartsNumber(s)
    ensures n <= |s|
  {
    if s[0] == '-' then 1 + NumberRun(s[1..], false) else NumberRun(s, false)
  }

  /** The decoded text and the length of a string body, closing quote included. */
  function StringBody(s: string): (r: Option<(string, nat)>)
    ensures r.Some? ==> 1 <= r.value.1 <= |s|
  {
    if s == [] then None
    else if s[0] != '\'' then
      match StringBody(s[1..])
      case None => None
      case Some((text, n)) => Some(([s[0]] + text, n + 1))
    else if |s| > 1 && s[1] == '\'' then
      match StringBody(s[2..])
      case None => None
      case Some((text, n)) => Some((['\''] + text, n + 2))
    else Some(("", 1))
  }

  predicate TwoCharOp(s: string) {
    && |s| >= 2
    && ((s[0] == '&' && s[1] == '&') || (s[0] == '|' && s[1] == '|')
        || ((s[0] == '=' || s[0] == '!' || s[0] == '<' || s[0] == '>') && s[1] == '='))
  }

  predicate OneCharOp(c: char) {
    || c == '!' || c == '<' || c == '>' || c == '.' || c == '[' || c == ']' || c == '(' || c == ')' || c == ','
  }

  /** The token at the front of non-blank text, and its length. */
  function Front(s: string, floats: Floats): (r: Result<(Token, nat), LexFault>)
    requires s != [] && !IsBlank(s[0])
    ensures r.Ok? ==> 1 <= r.value.1 <= |s|
  {
    var c := s[0];
    if IsIdentStart(c) then Ok((Ident(s[..IdentRun(s)]), IdentRun(s)))
    else if StartsNumber(s) then
      var n := NumberLength(s);
      if floats(s[..n]) then Ok((Number(s[..n]), n)) else Err(BadNumber)
    else if c == '\'' then
      match StringBody(s[1..])
      case None => Err(Unterminated)
      case Some((text, n)) => Ok((Str(text), n + 1))
    else if TwoCharOp(s) then Ok((Punct(s[..2]), 2))
    else if OneCharOp(c) then Ok((Punct([c]), 1))
    else if c == '"' then Err(DoubleQuoted)
    else if c == '+' || c == '-' || c == '*' || c == '/' || c == '%' then Err(Arithmetic)
    else Err(UnexpectedCharacter)
  }

  /** All tokens of a text, end marker left off. */
  function Lex(s: string, floats: Floats): Result<seq<Token>, LexError>
    decreases |s|, 1
  {
    LexTight(Unblank(s), floats)
  }

  function LexTight(t: string, floats: Floats): Result<seq<Token>, LexError>
    requires Tight(t)
    decreases |t|, 0
  {
    if t == [] then Ok([])
    else
      match Front(t, floats)
      case Err(f) => Err(LexError(f, |t|))
      case Ok((tok, n)) =>
        match Lex(t[n..], floats)
        case Err(e) => Err(e)
        case Ok(rest) => Ok([tok] + rest)
  }

  // ---------------------------------------------------------------- lexemes

  predicate IsIdent(s: string) {
    s != [] && IsIdentStart(s[0]) && forall i :: 0 <= i < |s| ==> IsIdentPart(s[i])
  }

  predicate Digits(s: string) {
    s != [] && forall i :: 0 <= i < |s| ==> IsDigit(s[i])
  }

  /** A decimal literal: optional '-', digits, optionally '.' and digits. */
  ghost predicate IsNumber(s: string) {
    Unsigned(s) || (s != [] && s[0] == '-' && Unsigned(s[1..]))
  }

  ghost predicate Unsigned(s: string) {
    Digits(s) || exists i :: DottedAt(s, i)
  }

  predicate DottedAt(s: string, i: int) {
    0 < i < |s| && Digits(s[..i]) && s[i] == '.' && Digits(s[i + 1..])
  }

  predicate IsPunct(s: string) {
    (|s| == 1 && OneCharOp(s[0])) || (|s| == 2 && TwoCharOp(s))
  }

  /** The tokens the lexer can produce. */
  ghost predicate ValidToken(t: Token, floats: Floats) {
    match t
    case Ident(x) => IsIdent(x)
    case Number(x) => IsNumber(x) && floats(x)
    case Str(_) => true
    case Punct(x) => IsPunct(x)
  }

  ghost predicate ValidTokens(ts: seq<Token>, floats: Floats) {
    forall i :: 0 <= i < |ts| ==> ValidToken(ts[i], floats)
  }

  /** Doubles every quote. */
  function Quoted(s: string): string {
    if s == [] then [] else (if s[0] == '\'' then ['\'', '\''] else [s[0]]) + Quoted(s[1..])
  }

  function TokenText(t: Token): string {
    match t
    case Ident(x) => x
    case Number(x) => x
    case Str(x) => ['\''] + Quoted(x) + ['\'']
    case Punct(x) => x
  }

  // ---------------------------------------------------------------- a token does not look past a separator

  /** Characters that neither extend a token nor change where it ends. */
  predicate IsSeparator(c: char) {
    c == ' ' || c == '(' || c == ')' || c == '[' || c == ']' || c == ','
  }

  predicate Apart(b: string) {
    b == [] || IsSeparator(b[0])
  }

  lemma {:induction false} IdentRunLocal(a: string, b: string)
    requires Apart(b)
    ensures IdentRun(a + b) == IdentRun(a)
  {
    if a == [] {
      assert a + b == b;
    } else {
      assert (a + b)[0] == a[0] && (a + b)[1..] == a[1..] + b;
      IdentRunLocal(a[1..], b);
    }
  }

  lemma StartsDigitLocal(a: string, b: string)
    requires Apart(b)
    ensures StartsDigit(a + b) == StartsDigit(a)
  {}

  lemma {:induction false} NumberRunLocal(a: string, b: string, hasDot: bool)
    requires Apart(b)
    ensures NumberRun(a + b, hasDot) == NumberRun(a, hasDot)
  {
    StartsDigitLocal(a, b);
    if a == [] {
      assert a + b == b;
    } else {
      assert (a + b)[0] == a[0] && (a + b)[1..] == a[1..] + b;
      StartsDigitLocal(a[1..], b);
      NumberRunLocal(a[1..], b, hasDot);
      NumberRunLocal(a[1..], b, true);
    }
  }

  lemma {:induction false} StringBodyLocal(a: string, b: string)
    requires Apart(b) && StringBody(a).Some?
    ensures StringBody(a + b) == StringBody(a)
  {
    assert (a + b)[0] == a[0] && (a + b)[1..] == a[1..] + b;
    if a[0] != '\'' {
      StringBodyLocal(a[1..], b);
    } else if |a| > 1 {
      assert (a + b)[1] == a[1] && (a + b)[2..] == a[2..] + b;
      if a[1] == '\'' { StringBodyLocal(a[2..], b); }
    }
  }

  lemma StartsNumberLocal(a: string, b: string)
    requires a != [] && Apart(b)
    ensures StartsNumber(a + b) == StartsNumber(a)
    ensures StartsNumber(a) ==> NumberLength(a + b) == NumberLength(a)
  {
    assert (a + b)[0] == a[0] && (a + b)[1..] == a[1..] + b;
    StartsDigitLocal(a, b);
    StartsDigitLocal(a[1..], b);
    NumberRunLocal(a, b, false);
    NumberRunLocal(a[1..], b, false);
  }

  lemma TwoCharOpLocal(a: string, b: string)
    requires a != [] && Apart(b)
    ensures TwoCharOp(a + b) == TwoCharOp(a)
  {
    assert (a + b)[0] == a[0];
    if |a| >= 2 {
      assert (a + b)[1] == a[1];
    } else if b != [] {
      assert (a + b)[1] == b[0];
    }
  }

  lemma FrontLocal(a: string, b: string, floats: Floats)
    requires a != [] && !IsBlank(a[0]) && Apart(b) && Front(a, floats).Ok?
    ensures Front(a + b, floats) == Front(a, floats)
  {
    var s := a + b;
    assert s[0] == a[0] && s[1..] == a[1..] + b;
    StartsNumberLocal(a, b);
    TwoCharOpLocal(a, b);
    if IsIdentStart(a[0]) {
      IdentRunLocal(a, b);
      assert s[..IdentRun(a)] == a[..IdentRun(a)];
    } else if StartsNumber(a) {
      assert s[..NumberLength(a)] == a[..NumberLength(a)];
    } else if a[0] == '\'' {
      StringBodyLocal(a[1..], b);
    } else if TwoCharOp(a) {
      assert s[..2] == a[..2];
    }
  }

  lemma {:induction false} UnblankConcat(a: string, b: string)
    ensures Unblank(a) != [] ==> Unblank(a + b) == Unblank(a) + b
    ensures Unblank(a) == [] ==> Unblank(a + b) == Unblank(b)
  {
    if a == [] {
      assert a + b == b;
    } else {
      assert (a + b)[0] == a[0] && (a + b)[1..] == a[1..] + b;
      if IsBlank(a[0]) { UnblankConcat(a[1..], b); }
    }
  }

  /** Lexing a concatenation at a separator is lexing the parts. */
  lemma {:induction false} LexConcat(a: string, b: string, floats: Floats)
    requires Apart(b) && Lex(a, floats).Ok? && Lex(b, floats).Ok?
    ensures Lex(a + b, floats) == Ok(Lex(a, floats).value + Lex(b, floats).value)
    decreases |a|, 1
  {
    UnblankConcat(a, b);
    if Unblank(a) != [] {
      LexTightConcat(Unblank(a), b, floats);
    } else {
      assert Lex(a, floats).value == [];
      assert [] + Lex(b, floats).value == Lex(b, floats).value;
    }
  }

  lemma {:induction false} LexTightConcat(t: string, b: string, floats: Floats)
    requires t != [] && Tight(t) && Apart(b) && LexTight(t, floats).Ok? && Lex(b, floats).Ok?
    ensures LexTight(t + b, floats) == Ok(LexTight(t, floats).value + Lex(b, floats).value)
    decreases |t|, 0
  {
    var (tok, k) := Front(t, floats).value;
    FrontLocal(t, b, floats);
    var u := t[k..];
    assert (t + b)[k..] == u + b;
    LexConcat(u, b, floats);
    var rest := Lex(u, floats).value;
    assert [tok] + (rest + Lex(b, floats).value) == ([tok] + rest) + Lex(b, floats).value;
  }

  lemma IdentRunBefore(x: string, y: string)
    requires (forall i :: 0 <= i < |x| ==> IsIdentPart(x[i])) && y != [] && !IsIdentPart(y[0])
    ensures IdentRun(x + y) == |x|
  {
    if x == [] {
      assert x + y == y;
    } else {
      assert (x + y)[0] == x[0] && (x + y)[1..] == x[1..] + y;
      IdentRunBefore(x[1..], y);
    }
  }

  lemma DotLexes(r: string, floats: Floats)
    requires Lex(r, floats).Ok?
    ensures Lex("." + r, floats) == Ok([Punct(".")] + Lex(r, floats).value)
  {
    var s := "." + r;
    assert s[0] == '.' && s[1..] == r;
    assert !StartsNumber(s) && !TwoCharOp(s);
    assert Front(s, floats) == Ok((Punct("."), 1));
    assert Unblank(s) == s;
  }

  /** A dot ends an identifier. */
  lemma IdentDotLexes(x: string, r: string, floats: Floats)
    requires IsIdent(x) && Lex(r, floats).Ok?
    ensures Lex(x + ("." + r), floats) == Ok([Ident(x)] + ([Punct(".")] + Lex(r, floats).value))
  {
    var y := "." + r;
    var s := x + y;
    IdentRunBefore(x, y);
    DotLexes(r, floats);
    assert s[0] == x[0] && s[..|x|] == x && s[|x|..] == y;
    assert Front(s, floats) == Ok((Ident(x), |x|));
    assert Unblank(s) == s;
  }

  lemma {:induction false} NoQuotes(v: string)
    requires '\'' !in v
    ensures Quoted(v) == v
  {
    if v != [] {
      NoQuotes(v[1..]);
      assert v == [v[0]] + v[1..];
    }
  }

  // ---------------------------------------------------------------- faults stay faults

  lemma {:induction false} NoQuoteNoBody(b: string)
    requires '\'' !in b
    ensures StringBody(b).None?
  {
    if b != [] { NoQuoteNoBody(b[1..]); }
  }

  lemma {:induction false} StringBodyOpen(a: string, b: string)
    requires StringBody(a).None? && '\'' !in b
    ensures StringBody(a + b).None?
  {
    if a == [] {
      assert a + b == b;
      NoQuoteNoBody(b);
    } else {
      assert (a + b)[0] == a[0] && (a + b)[1..] == a[1..] + b;
      if a[0] != '\'' {
        StringBodyOpen(a[1..], b);
      } else {
        assert (a + b)[1] == a[1] && (a + b)[2..] == a[2..] + b;
        StringBodyOpen(a[2..], b);
      }
    }
  }

  lemma FrontFails(a: string, b: string, floats: Floats)
    requires a != [] && !IsBlank(a[0]) && Apart(b) && '\'' !in b && Front(a, floats).Err?
    ensures Front(a + b, floats).Err?
  {
    var s := a + b;
    assert s[0] == a[0] && s[1..] == a[1..] + b;
    StartsNumberLocal(a, b);
    TwoCharOpLocal(a, b);
    if StartsNumber(a) {
      assert s[..NumberLength(a)] == a[..NumberLength(a)];
    } else if a[0] == '\'' {
      StringBodyOpen(a[1..], b);
    }
  }

  /** Text that does not lex does not lex with more text behind a separator,
      unless that could close a string. */
  lemma {:induction false} LexFails(a: string, b: string, floats: Floats)
    requires Apart(b) && '\'' !in b && Lex(a, floats).Err?
    ensures Lex(a + b, floats).Err?
    decreases |a|
  {
    UnblankConcat(a, b);
    var t := Unblank(a);
    assert t != [];
    if Front(t, floats).Err? {
      FrontFails(t, b, floats);
    } else {
      FrontLocal(t, b, floats);
      var k := Front(t, floats).value.1;
      assert (t + b)[k..] == t[k..] + b;
      LexFails(t[k..], b, floats);
    }
  }

  /** A fault behind a separator is found after good text. */
  lemma {:induction false} LexFailsBehind(a: string, b: string, floats: Floats)
    requires Apart(b) && Lex(a, floats).Ok? && Lex(b, floats).Err?
    ensures Lex(a + b, floats).Err?
    decreases |a|
  {
    UnblankConcat(a, b);
    var t := Unblank(a);
    if t != [] {
      FrontLocal(t, b, floats);
      var k := Front(t, floats).value.1;
      assert (t + b)[k..] == t[k..] + b;
      LexFailsBehind(t[k..], b, floats);
    }
  }

  // ---------------------------------------------------------------- every token can be written and read back

  lemma {:induction false} IdentRunAll(s: string)
    requires forall i :: 0 <= i < |s| ==> IsIdentPart(s[i])
    ensures IdentRun(s) == |s|
  {
    if s != [] { IdentRunAll(s[1..]); }
  }

  lemma {:induction false} DigitRun(s: string, rest: string, hasDot: bool)
    requires forall i :: 0 <= i < |s| ==> IsDigit(s[i])
    ensures NumberRun(s + rest, hasDot) == |s| + NumberRun(rest, hasDot)
  {
    if s == [] {
      assert s + rest == rest;
    } else {
      assert (s + rest)[0] == s[0] && (s + rest)[1..] == s[1..] + rest;
      DigitRun(s[1..], rest, hasDot);
    }
  }

  lemma DottedRun(a: string, b: string)
    requires Digits(a) && Digits(b)
    ensures NumberRun(a + (['.'] + b), false) == |a| + 1 + |b|
  {
    var d := ['.'] + b;
    DigitRun(a, d, false);
    assert d[0] == '.' && d[1..] == b;
    DigitRun(b, "", true);
    assert b + "" == b;
  }

  lemma DottedAtRun(s: string, i: int)
    requires DottedAt(s, i)
    ensures StartsDigit(s) && NumberRun(s, false) == |s|
  {
    var a, b := s[..i], s[i + 1..];
    DottedRun(a, b);
    assert s == a + (['.'] + b);
    assert s[0] == a[0];
  }

  lemma UnsignedRun(s: string)
    requires Unsigned(s)
    ensures StartsDigit(s) && NumberRun(s, false) == |s|
  {
    if Digits(s) {
      DigitRun(s, "", false);
      assert s + "" == s;
    } else {
      var i :| DottedAt(s, i);
      DottedAtRun(s, i);
    }
  }

  lemma {:induction false} QuotedBody(x: string)
    ensures StringBody(Quoted(x) + ['\'']) == Some((x, |Quoted(x)| + 1))
  {
    var q := Quoted(x) + ['\''];
    if x != [] {
      QuotedBody(x[1..]);
      var rest := Quoted(x[1..]) + ['\''];
      if x[0] == '\'' {
        assert q == ['\'', '\''] + rest;
        assert q[2..] == rest;
      } else {
        assert q == [x[0]] + rest;
        assert q[1..] == rest;
      }
      assert [x[0]] + x[1..] == x;
    }
  }

  lemma TokenFront(t: Token, floats: Floats)
    requires ValidToken(t, floats)
    ensures TokenText(t) != [] && !IsBlank(TokenText(t)[0])
    ensures Front(TokenText(t), floats) == Ok((t, |TokenText(t)|))
  {
    var s := TokenText(t);
    match t
    case Ident(x) =>
      IdentRunAll(x);
      assert x[..|x|] == x;
    case Number(x) =>
      if Unsigned(x) {
        UnsignedRun(x);
      } else {
        UnsignedRun(x[1..]);
      }
      assert x[..|x|] == x;
    case Str(x) =>
      QuotedBody(x);
      assert s[1..] == Quoted(x) + ['\''];
    case Punct(x) =>
      assert |x| == 2 ==> x[..2] == x;
      assert |x| == 1 ==> x == [x[0]];
  }

  /** The text of a token lexes to that token. */
  lemma TokenLexes(t: Token, floats: Floats)
    requires ValidToken(t, floats)
    ensures Lex(TokenText(t), floats) == Ok([t])
  {
    TokenFront(t, floats);
    var s := TokenText(t);
    assert Unblank(s) == s;
    assert s[|s|..] == [];
    assert Lex([], floats) == Ok([]);
    assert [t] + [] == [t];
  }

  /** Tokens written with one blank between neighbours. */
  function Render(ts: seq<Token>): string {
    if ts == [] then ""
    else if |ts| == 1 then TokenText(ts[0])
    else TokenText(ts[0]) + (" " + Render(ts[1..]))
  }

  /** Rendering and lexing undo each other on every list the lexer can produce. */
  lemma {:induction false} RenderLexes(ts: seq<Token>, floats: Floats)
    requires ValidTokens(ts, floats)
    ensures Lex(Render(ts), floats) == Ok(ts)
  {
    if |ts| == 1 {
      TokenLexes(ts[0], floats);
      assert ts == [ts[0]];
    } else if |ts| > 1 {
      TokenLexes(ts[0], floats);
      RenderLexes(ts[1..], floats);
      BlankLexes(Render(ts[1..]), floats);
      LexConcat(TokenText(ts[0]), " " + Render(ts[1..]), floats);
      assert ts == [ts[0]] + ts[1..];
    }
  }

  lemma BlankLexes(s: string, floats: Floats)
    ensures Lex(" " + s, floats) == Lex(s, floats)
  {
    assert (" " + s)[0] == ' ' && (" " + s)[1..] == s;
  }

  // ---------------------------------------------------------------- the lexer yields valid tokens only

  lemma {:induction false} IdentRunParts(s: string)
    ensures forall i :: 0 <= i < IdentRun(s) ==> IsIdentPart(s[i])
  {
    if s != [] && IsIdentPart(s[0]) {
      IdentRunParts(s[1..]);
      forall i | 0 <= i < IdentRun(s)
        ensures IsIdentPart(s[i])
      {
        assert i > 0 ==> s[i] == s[1..][i - 1];
      }
    }
  }

  /** What a run of number characters looks like: digits, then perhaps '.' and digits. */
  ghost predicate NumberTail(s: string, hasDot: bool) {
    || AllDigits(s)
    || (!hasDot && exists i :: 0 <= i < |s| && AllDigits(s[..i]) && s[i] == '.' && Digits(s[i + 1..]))
  }

  predicate AllDigits(s: string) {
    forall i :: 0 <= i < |s| ==> IsDigit(s[i])
  }

  lemma TailCons(c: char, u: string, hasDot: bool)
    requires IsDigit(c) && NumberTail(u, hasDot)
    ensures NumberTail([c] + u, hasDot)
  {
    var r := [c] + u;
    if !AllDigits(u) {
      var i :| 0 <= i < |u| && AllDigits(u[..i]) && u[i] == '.' && Digits(u[i + 1..]);
      assert r[..i + 1] == [c] + u[..i] && r[i + 1] == '.' && r[i + 1 + 1..] == u[i + 1..];
    }
  }

  lemma TailDot(u: string)
    requires Digits(u)
    ensures NumberTail(['.'] + u, false)
  {
    var r := ['.'] + u;
    assert r[..0] == [] && r[0] == '.' && r[0 + 1..] == u;
  }

  lemma {:induction false} NumberRunShape(s: string, hasDot: bool)
    ensures NumberTail(s[..NumberRun(s, hasDot)], hasDot)
    ensures StartsDigit(s) ==> NumberRun(s, hasDot) > 0
  {
    var n := NumberRun(s, hasDot);
    if StartsDigit(s) {
      NumberRunShape(s[1..], hasDot);
      TailCons(s[0], s[1..][..n - 1], hasDot);
      assert s[..n] == [s[0]] + s[1..][..n - 1];
    } else if n > 0 {
      NumberRunShape(s[1..], true);
      TailDot(s[1..][..n - 1]);
      assert s[..n] == ['.'] + s[1..][..n - 1];
    }
  }

  lemma UnsignedFromRun(s: string)
    requires StartsDigit(s)
    ensures Unsigned(s[..NumberRun(s, false)])
  {
    NumberRunShape(s, false);
    var r := s[..NumberRun(s, false)];
    assert r[0] == s[0];
    if !AllDigits(r) {
      var i :| 0 <= i < |r| && AllDigits(r[..i]) && r[i] == '.' && Digits(r[i + 1..]);
      assert DottedAt(r, i);
    }
  }

  lemma FrontValid(s: string, floats: Floats)
    requires s != [] && !IsBlank(s[0]) && Front(s, floats).Ok?
    ensures ValidToken(Front(s, floats).value.0, floats)
  {
    if IsIdentStart(s[0]) {
      IdentRunParts(s);
    } else if StartsNumber(s) {
      var x := s[..NumberLength(s)];
      if s[0] == '-' {
        UnsignedFromRun(s[1..]);
        assert x[1..] == s[1..][..NumberRun(s[1..], false)];
      } else {
        UnsignedFromRun(s);
      }
    }
  }

  /** Every token list that lexing yields can be rendered and read back. */
  lemma {:induction false} LexValid(s: string, floats: Floats)
    requires Lex(s, floats).Ok?
    ensures ValidTokens(Lex(s, floats).value, floats)
    decreases |s|
  {
    var t := Unblank(s);
    if t != [] {
      FrontValid(t, floats);
      LexValid(t[Front(t, floats).value.1..], floats);
    }
  }

  // ---------------------------------------------------------------- which texts are which tokens

  predicate Letter(c: char) { 'a' <= c <= 'z' || 'A' <= c <= 'Z' }

  /** Spaces, tabs and line breaks between tokens mean nothing. */
  lemma BlankIgnored(c: char, s: string, floats: Floats)
    requires c == ' ' || c == '\t' || c == '\n' || c == '\r'
    ensures Lex([c] + s, floats) == Lex(s, floats)
  {
    assert ([c] + s)[1..] == s;
  }

  /** A letter or underscore and any letters, digits, underscores and dashes make
      one identifier. */
  lemma WordLexes(s: string, floats: Floats)
    requires s != "" && (Letter(s[0]) || s[0] == '_')
    requires forall i :: 0 <= i < |s| ==> Letter(s[i]) || '0' <= s[i] <= '9' || s[i] == '_' || s[i] == '-'
    ensures Lex(s, floats) == Ok([Ident(s)])
  {
    TokenLexes(Ident(s), floats);
  }

  /** Digits, with a minus before them or a point and digits behind, make one
      number, if a float can hold it. */
  lemma NumeralLexes(whole: string, fraction: string, negative: bool, floats: Floats)
    requires whole != "" && forall i :: 0 <= i < |whole| ==> '0' <= whole[i] <= '9'
    requires forall i :: 0 <= i < |fraction| ==> '0' <= fraction[i] <= '9'
    ensures var u := if fraction == "" then whole else whole + ("." + fraction);
            var s := if negative then "-" + u else u;
            floats(s) ==> Lex(s, floats) == Ok([Number(s)])
  {
    var u := if fraction == "" then whole else whole + ("." + fraction);
    var s := if negative then "-" + u else u;
    if fraction != "" {
      var i := |whole|;
      assert u[..i] == whole && u[i] == '.' && u[i + 1..] == fraction;
      assert DottedAt(u, i);
    }
    assert Unsigned(u);
    assert negative ==> s[1..] == u;
    if floats(s) { TokenLexes(Number(s), floats); }
  }

  predicate Arith(c: char) { c == '+' || c == '*' || c == '/' || c == '%' }

  /** What no token starts with. */
  predicate Odd(c: char) {
    c == '$' || c == '#' || c == '@' || c == ';' || c == ':' || c == '?' || c == '~' || c == '^' || c == '{' || c == '}'
  }

  lemma FaultThere(s: string, f: LexFault, floats: Floats)
    requires s != "" && !IsBlank(s[0]) && Front(s, floats) == Err(f)
    ensures Lex(s, floats) == Err(LexError(f, |s|))
  {
    assert Unblank(s) == s;
  }

  /** Texts that are no tokens are errors where they stand, by their kind. */
  lemma CharacterFaults(s: string, floats: Floats)
    requires s != ""
    ensures s[0] == '"' ==> Lex(s, floats) == Err(LexError(DoubleQuoted, |s|))
    ensures Arith(s[0]) ==> Lex(s, floats) == Err(LexError(Arithmetic, |s|))
    ensures Odd(s[0]) ==> Lex(s, floats) == Err(LexError(UnexpectedCharacter, |s|))
  {
    if s[0] == '"' {
      FaultThere(s, DoubleQuoted, floats);
    } else if Arith(s[0]) {
      FaultThere(s, Arithmetic, floats);
    } else if Odd(s[0]) {
      FaultThere(s, UnexpectedCharacter, floats);
    }
  }

  /** A minus with no digit behind it, and a quote that is never closed. */
  lemma OpenFaults(s: string, floats: Floats)
    requires s != ""
    ensures s[0] == '-' && (|s| == 1 || !('0' <= s[1] <= '9')) ==> Lex(s, floats) == Err(LexError(Arithmetic, |s|))
    ensures s[0] == '\'' && '\'' !in s[1..] ==> Lex(s, floats) == Err(LexError(Unterminated, |s|))
  {
    if s[0] == '-' && (|s| == 1 || !('0' <= s[1] <= '9')) {
      assert |s| > 1 ==> s[1..][0] == s[1];
      FaultThere(s, Arithmetic, floats);
    } else if s[0] == '\'' && '\'' !in s[1..] {
      NeverEnds(s[1..]);
      FaultThere(s, Unterminated, floats);
    }
  }

  lemma {:induction false} NeverEnds(s: string)
    requires '\'' !in s
    ensures StringBody(s).None?
  {
    if s != "" { NeverEnds(s[1..]); }
  }
}
