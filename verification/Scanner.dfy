/** The lexer object (internal/workflow/expression/lexer.go): offset, line and
    column advance together over the text, one character at a time. */
module Scanner {
  import opened Prelude
  import opened Lexing

  // ---------------------------------------------------------------- positions

  datatype Position = Position(offset: nat, line: nat, column: nat)

  /** One more than the line breaks before an offset. */
  function LineAt(s: string, n: nat): (r: nat)
    requires n <= |s|
    ensures r >= 1
  {
    if n == 0 then 1 else LineAt(s, n - 1) + (if s[n - 1] == '\n' then 1 else 0)
  }

  function ColumnAt(s: string, n: nat): (r: nat)
    requires n <= |s|
  {
    if n == 0 || s[n - 1] == '\n' then 1 else ColumnAt(s, n - 1) + 1
  }

  function PositionAt(s: string, n: nat): Position
    requires n <= |s|
  {
    Position(n, LineAt(s, n), ColumnAt(s, n))
  }

  /** The column counts from the start of the text or the last line break. */
  lemma {:induction false} ColumnCounts(s: string, n: nat)
    requires n <= |s|
    ensures 1 <= ColumnAt(s, n) <= n + 1
    ensures forall i :: n - (ColumnAt(s, n) - 1) <= i < n ==> s[i] != '\n'
    ensures ColumnAt(s, n) <= n ==> s[n - ColumnAt(s, n)] == '\n'
  {
    if n > 0 { ColumnCounts(s, n - 1); }
  }

  lemma {:induction false} LineGrows(s: string, m: nat, n: nat)
    requires m <= n <= |s|
    ensures LineAt(s, m) <= LineAt(s, n)
    ensures LineAt(s, m) == LineAt(s, n) <==> forall i :: m <= i < n ==> s[i] != '\n'
  {
    if m < n { LineGrows(s, m, n - 1); }
  }

  lemma SameLine(s: string, m: nat, n: nat)
    requires m <= n <= |s| && LineAt(s, m) == LineAt(s, n)
    ensures ColumnAt(s, n) == ColumnAt(s, m) + (n - m)
    decreases n - m
  {
    if m < n {
      LineGrows(s, m, n - 1);
      LineGrows(s, m, n);
      SameLine(s, m, n - 1);
    }
  }

  /** Line and column tell any two places of a text apart. */
  lemma PositionsDiffer(s: string, m: nat, n: nat)
    requires m <= |s| && n <= |s|
    requires LineAt(s, m) == LineAt(s, n) && ColumnAt(s, m) == ColumnAt(s, n)
    ensures m == n
  {
    if m <= n { SameLine(s, m, n); } else { SameLine(s, n, m); }
  }

  // ---------------------------------------------------------------- tokens with positions

  /** A token and where it starts; no token marks the end of the text. */
  datatype Lexeme = Lexeme(token: Option<Token>, at: Position)

  datatype ScanError = ScanError(fault: LexFault, at: Position)

  /** Where the first non-blank character at or after an offset is. */
  function Start(s: string, n: nat): (r: nat)
    requires n <= |s|
    ensures n <= r <= |s|
  {
    |s| - |Unblank(s[n..])|
  }

  lemma {:induction false} UnblankIsSuffix(s: string)
    ensures |Unblank(s)| <= |s|
    ensures Unblank(s) == s[|s| - |Unblank(s)|..]
    ensures forall i :: 0 <= i < |s| - |Unblank(s)| ==> IsBlank(s[i])
  {
    if s != [] && IsBlank(s[0]) {
      UnblankIsSuffix(s[1..]);
      var k := |s| - |Unblank(s)|;
      forall i | 0 <= i < k
        ensures IsBlank(s[i])
      {
        assert i > 0 ==> s[i] == s[1..][i - 1];
      }
    }
  }

  lemma StartMeaning(s: string, n: nat)
    requires n <= |s|
    ensures s[Start(s, n)..] == Unblank(s[n..])
    ensures forall i :: n <= i < Start(s, n) ==> IsBlank(s[i])
  {
    UnblankIsSuffix(s[n..]);
    var k := Start(s, n);
    assert s[n..][k - n..] == s[k..];
    forall i | n <= i < k
      ensures IsBlank(s[i])
    {
      assert s[i] == s[n..][i - n];
    }
  }

  lemma StartSteps(s: string, n: nat)
    requires n < |s| && IsBlank(s[n])
    ensures Start(s, n + 1) == Start(s, n)
  {
    assert s[n..][1..] == s[n + 1..];
  }

  lemma StartStops(s: string, n: nat)
    requires n <= |s| && (n < |s| ==> !IsBlank(s[n]))
    ensures Start(s, n) == n
  {}

  /** What one call of the lexer reads from an offset: the token and the offset after it. */
  function ReadAt(s: string, n: nat, floats: Floats): (r: Result<(Lexeme, nat), ScanError>)
    requires n <= |s|
    ensures r.Ok? ==> r.value.1 <= |s| && (r.value.0.token.Some? ==> n < r.value.1)
  {
    var t := Unblank(s[n..]);
    var k := Start(s, n);
    if t == [] then Ok((Lexeme(None, PositionAt(s, k)), k))
    else
      match Front(t, floats)
      case Err(f) => Err(ScanError(f, PositionAt(s, k)))
      case Ok((tok, len)) => Ok((Lexeme(Some(tok), PositionAt(s, k)), k + len))
  }

  /** The lexemes from an offset, end marker last. */
  ghost function ScanFrom(s: string, n: nat, floats: Floats): Result<seq<Lexeme>, ScanError>
    requires n <= |s|
    decreases |s| - n
  {
    match ReadAt(s, n, floats)
    case Err(e) => Err(e)
    case Ok((x, m)) =>
      if x.token.None? then Ok([x])
      else
        match ScanFrom(s, m, floats)
        case Err(e) => Err(e)
        case Ok(rest) => Ok([x] + rest)
  }

  /** Tokens, then one end marker. */
  predicate Ended(xs: seq<Lexeme>) {
    && xs != []
    && xs[|xs| - 1].token == None
    && forall i :: 0 <= i < |xs| - 1 ==> xs[i].token.Some?
  }

  function Kinds(xs: seq<Lexeme>): (ts: seq<Token>)
    requires Ended(xs)
    ensures |ts| == |xs| - 1
    ensures forall i :: 0 <= i < |ts| ==> Some(ts[i]) == xs[i].token
  {
    seq(|xs| - 1, i requires 0 <= i < |xs| - 1 => xs[i].token.value)
  }

  /** The positioned scan finds the tokens that lexing the text finds, or its
      fault where lexing meets it. */
  ghost predicate ScanIs(s: string, r: Result<seq<Lexeme>, ScanError>, lexed: Result<seq<Token>, LexError>) {
    match lexed
    case Ok(ts) => r.Ok? && Ended(r.value) && Kinds(r.value) == ts
    case Err(e) => e.left <= |s| && r == Err(ScanError(e.fault, PositionAt(s, |s| - e.left)))
  }

  lemma {:induction false} ScanTokens(s: string, n: nat, floats: Floats)
    requires n <= |s|
    ensures ScanIs(s, ScanFrom(s, n, floats), Lex(s[n..], floats))
    decreases |s| - n
  {
    LexReads(s, n, floats);
    match ReadAt(s, n, floats)
    case Err(e) =>
    case Ok((x, m)) =>
      if x.token.None? {
        assert Kinds([x]) == [];
      } else {
        ScanTokens(s, m, floats);
        if Lex(s[m..], floats).Ok? { PrependKinds(x, ScanFrom(s, m, floats).value); }
      }
  }

  /** Lexing a text, one read at a time. */
  lemma LexReads(s: string, n: nat, floats: Floats)
    requires n <= |s|
    ensures match ReadAt(s, n, floats)
            case Err(e) =>
              && e.at.offset <= |s| && e.at == PositionAt(s, e.at.offset)
              && Lex(s[n..], floats) == Err(LexError(e.fault, |s| - e.at.offset))
            case Ok((x, m)) =>
              if x.token.None? then Lex(s[n..], floats) == Ok([])
              else
                match Lex(s[m..], floats)
                case Err(e) => Lex(s[n..], floats) == Err(e)
                case Ok(ts) => Lex(s[n..], floats) == Ok([x.token.value] + ts)
  {
    StartMeaning(s, n);
    var t, k := Unblank(s[n..]), Start(s, n);
    assert Lex(s[n..], floats) == LexTight(t, floats);
    if t != [] && Front(t, floats).Ok? {
      var m := k + Front(t, floats).value.1;
      assert t[m - k..] == s[m..];
    }
  }

  lemma PrependKinds(x: Lexeme, xs: seq<Lexeme>)
    requires x.token.Some? && Ended(xs)
    ensures Ended([x] + xs) && Kinds([x] + xs) == [x.token.value] + Kinds(xs)
  {}

  // ---------------------------------------------------------------- what lies between tokens

  /** From offset n: blanks, the token's own text, and so on; only blanks are
      skipped and the end marker sits at the end of the text. */
  ghost predicate Covers(s: string, n: nat, xs: seq<Lexeme>, floats: Floats)
    requires n <= |s|
    decreases |xs|
  {
    && xs != []
    && n <= xs[0].at.offset <= |s|
    && xs[0].at == PositionAt(s, xs[0].at.offset)
    && (forall i :: n <= i < xs[0].at.offset ==> IsBlank(s[i]))
    && match xs[0].token
       case None => xs[0].at.offset == |s| && |xs| == 1
       case Some(tok) =>
         var k := xs[0].at.offset;
         && k < |s| && !IsBlank(s[k])
         && Front(s[k..], floats).Ok?
         && Front(s[k..], floats).value.0 == tok
         && Covers(s, k + Front(s[k..], floats).value.1, xs[1..], floats)
  }

  lemma {:induction false} ScanCovers(s: string, n: nat, floats: Floats)
    requires n <= |s| && ScanFrom(s, n, floats).Ok?
    ensures Covers(s, n, ScanFrom(s, n, floats).value, floats)
    decreases |s| - n
  {
    StartMeaning(s, n);
    var t, k := Unblank(s[n..]), Start(s, n);
    if t != [] {
      var m := k + Front(t, floats).value.1;
      ScanCovers(s, m, floats);
      var xs := ScanFrom(s, n, floats).value;
      assert xs[1..] == ScanFrom(s, m, floats).value;
    }
  }

  lemma StartUnique(s: string, n: nat, o: nat)
    requires n <= o <= |s| && (forall i :: n <= i < o ==> IsBlank(s[i])) && (o < |s| ==> !IsBlank(s[o]))
    ensures Start(s, n) == o
  {
    StartMeaning(s, n);
    var k := Start(s, n);
    assert k < |s| ==> s[k] == s[k..][0];
  }

  /** Covering the text leaves no choice: it is the scan. */
  lemma {:induction false} CoversOnlyScan(s: string, n: nat, xs: seq<Lexeme>, floats: Floats)
    requires n <= |s| && Covers(s, n, xs, floats)
    ensures ScanFrom(s, n, floats) == Ok(xs)
    decreases |xs|
  {
    StartMeaning(s, n);
    var k := xs[0].at.offset;
    StartUnique(s, n, k);
    assert xs == [xs[0]] + xs[1..];
    if xs[0].token.Some? {
      var m := k + Front(s[k..], floats).value.1;
      assert ReadAt(s, n, floats) == Ok((xs[0], m));
      CoversOnlyScan(s, m, xs[1..], floats);
    } else {
      assert ReadAt(s, n, floats) == Ok((xs[0], k));
      assert xs == [xs[0]];
    }
  }

  // ---------------------------------------------------------------- the lexer object

  class Lexer {
    const src: string
    const floats: Floats
    var pos: nat
    var line: nat
    var col: nat

    ghost predicate Valid()
      reads this
    {
      pos <= |src| && Position(pos, line, col) == PositionAt(src, pos)
    }

    constructor (src: string, floats: Floats)
      ensures Valid() && pos == 0 && this.src == src && this.floats == floats
    {
      this.src, this.floats := src, floats;
      pos, line, col := 0, 1, 1;
    }

    method Advance() returns (c: char)
      requires Valid() && pos < |src|
      modifies this
      ensures Valid() && pos == old(pos) + 1 && c == src[old(pos)]
    {
      c := src[pos];
      pos := pos + 1;
      if c == '\n' {
        line, col := line + 1, 1;
      } else {
        col := col + 1;
      }
    }

    method SkipBlanks()
      requires Valid()
      modifies this
      ensures Valid() && pos == Start(src, old(pos))
    {
      while pos < |src| && IsBlank(src[pos])
        invariant Valid() && Start(src, pos) == Start(src, old(pos))
        decreases |src| - pos
      {
        StartSteps(src, pos);
        var _ := Advance();
      }
      StartStops(src, pos);
    }

    method IdentText() returns (text: string)
      requires Valid()
      modifies this
      ensures Valid() && pos == old(pos) + IdentRun(src[old(pos)..]) && text == src[old(pos)..pos]
    {
      text := "";
      while pos < |src| && IsIdentPart(src[pos])
        invariant Valid() && old(pos) <= pos && text == src[old(pos)..pos]
        invariant IdentRun(src[old(pos)..]) == pos - old(pos) + IdentRun(src[pos..])
        decreases |src| - pos
      {
        assert src[pos..][1..] == src[pos + 1..];
        var c := Advance();
        text := text + [c];
      }
    }

    method DigitsText() returns (digits: string)
      requires Valid()
      modifies this
      ensures Valid() && pos == old(pos) + NumberRun(src[old(pos)..], false) && digits == src[old(pos)..pos]
    {
      digits := "";
      var hasDot := false;
      while pos < |src|
        invariant Valid() && old(pos) <= pos && digits == src[old(pos)..pos]
        invariant NumberRun(src[old(pos)..], false) == pos - old(pos) + NumberRun(src[pos..], hasDot)
        decreases |src| - pos
      {
        var ch := src[pos];
        assert src[pos..][1..] == src[pos + 1..];
        if IsDigit(ch) {
        } else if ch == '.' && !hasDot && pos + 1 < |src| && IsDigit(src[pos + 1]) {
          assert StartsDigit(src[pos..][1..]);
          hasDot := true;
        } else {
          break;
        }
        var c := Advance();
        digits := digits + [c];
      }
    }

    /** After the opening quote. */
    method StringText() returns (text: Option<string>)
      requires Valid()
      modifies this
      ensures Valid()
      ensures match StringBody(src[old(pos)..])
              case None => text == None
              case Some((t, n)) => text == Some(t) && pos == old(pos) + n
    {
      var sb := "";
      ghost var first, body := pos, StringBody(src[pos..]);
      BodyStarts(body);
      while true
        invariant Valid() && first <= pos
        invariant body == BodyOn(sb, pos - first, src, pos)
        decreases |src| - pos
      {
        if pos >= |src| { return None; }
        ghost var n := pos;
        var ch := Advance();
        if ch == '\'' {
          if pos < |src| && src[pos] == '\'' {
            BodyEscape(sb, n - first, src, n);
            var c := Advance();
            sb := sb + [c];
            continue;
          }
          BodyCloses(sb, n - first, src, n);
          return Some(sb);
        }
        BodyPlain(sb, n - first, src, n);
        sb := sb + [ch];
      }
    }

    method NumberToken(at: Position) returns (r: Result<Lexeme, ScanError>)
      requires Valid() && pos < |src| && StartsNumber(src[pos..])
      modifies this
      ensures Valid() && pos == old(pos) + NumberLength(src[old(pos)..])
      ensures r == NumberRead(src[old(pos)..pos], at, floats)
    {
      ghost var t := src[pos..];
      var digits := "";
      if src[pos] == '-' {
        assert t[1..] == src[pos + 1..];
        var d := Advance();
        digits := [d];
      }
      var more := DigitsText();
      digits := digits + more;
      assert digits == src[old(pos)..pos];
      if !floats(digits) { return Err(ScanError(BadNumber, at)); }
      return Ok(Lexeme(Some(Number(digits)), at));
    }

    /** Operators, the longer ones first; anything else is a fault. */
    method OperatorToken(at: Position) returns (r: Result<Lexeme, ScanError>)
      requires Valid() && pos < |src| && !IsBlank(src[pos])
      requires !IsIdentStart(src[pos]) && !StartsNumber(src[pos..]) && src[pos] != '\''
      modifies this
      ensures Valid()
      ensures match Front(src[old(pos)..], floats)
              case Err(f) => r == Err(ScanError(f, at))
              case Ok((tok, n)) => r == Ok(Lexeme(Some(tok), at)) && pos == old(pos) + n
    {
      var c := src[pos];
      ghost var t := src[pos..];
      assert t[0] == c;
      if TwoCharOp(src[pos..]) {
        var c1 := Advance();
        var c2 := Advance();
        assert t[..2] == [c1, c2];
        return Ok(Lexeme(Some(Punct([c1, c2])), at));
      }
      if OneCharOp(c) {
        var _ := Advance();
        return Ok(Lexeme(Some(Punct([c])), at));
      }
      if c == '"' { return Err(ScanError(DoubleQuoted, at)); }
      if c == '+' || c == '-' || c == '*' || c == '/' || c == '%' { return Err(ScanError(Arithmetic, at)); }
      return Err(ScanError(UnexpectedCharacter, at));
    }

    method Next() returns (r: Result<Lexeme, ScanError>)
      requires Valid()
      modifies this
      ensures Valid()
      ensures match ReadAt(src, old(pos), floats)
              case Err(e) => r == Err(e)
              case Ok((x, m)) => r == Ok(x) && pos == m
    {
      StartMeaning(src, pos);
      SkipBlanks();
      var at := Position(pos, line, col);
      if pos >= |src| { return Ok(Lexeme(None, at)); }
      ghost var t := src[pos..];
      var c := src[pos];
      assert t[0] == c;
      if IsIdentStart(c) {
        var text := IdentText();
        assert text == t[..IdentRun(t)];
        return Ok(Lexeme(Some(Ident(text)), at));
      }
      var negative := c == '-' && pos + 1 < |src| && IsDigit(src[pos + 1]);
      assert negative == (c == '-' && StartsDigit(t[1..]));
      if IsDigit(c) || negative {
        r := NumberToken(at);
        assert src[at.offset..pos] == t[..NumberLength(t)];
        return;
      }
      if c == '\'' {
        assert t[1..] == src[pos + 1..];
        var _ := Advance();
        var text := StringText();
        if text.None? { return Err(ScanError(Unterminated, at)); }
        return Ok(Lexeme(Some(Str(text.value)), at));
      }
      r := OperatorToken(at);
    }

    /** The whole rest of the text, token by token. */
    method Tokens() returns (r: Result<seq<Lexeme>, ScanError>)
      requires Valid()
      modifies this
      ensures Valid()
      ensures r == ScanFrom(src, old(pos), floats)
    {
      var out: seq<Lexeme> := [];
      ScanStarts(ScanFrom(src, pos, floats));
      while true
        invariant Valid()
        invariant ScanFrom(src, old(pos), floats) == ScanAfter(out, ScanFrom(src, pos, floats))
        decreases |src| - pos
      {
        var x := Next();
        if x.Err? { return Err(x.error); }
        if x.value.token.None? { return Ok(out + [x.value]); }
        ScanShifts(out, x.value, ScanFrom(src, pos, floats));
        out := out + [x.value];
      }
    }
  }

  ghost function NumberRead(digits: string, at: Position, floats: Floats): Result<Lexeme, ScanError> {
    if floats(digits) then Ok(Lexeme(Some(Number(digits)), at)) else Err(ScanError(BadNumber, at))
  }

  ghost function BodyAfter(sb: string, read: nat, rest: Option<(string, nat)>): Option<(string, nat)> {
    match rest
    case None => None
    case Some((t, n)) => Some((sb + t, read + n))
  }

  ghost function ScanAfter(out: seq<Lexeme>, rest: Result<seq<Lexeme>, ScanError>): Result<seq<Lexeme>, ScanError> {
    match rest
    case Err(e) => Err(e)
    case Ok(xs) => Ok(out + xs)
  }

  /** The body that reading on from offset n completes. */
  ghost function BodyOn(sb: string, read: nat, s: string, n: nat): Option<(string, nat)>
    requires n <= |s|
  {
    BodyAfter(sb, read, StringBody(s[n..]))
  }

  lemma BodyStarts(rest: Option<(string, nat)>)
    ensures BodyAfter("", 0, rest) == rest
  {
    if rest.Some? { assert "" + rest.value.0 == rest.value.0; }
  }

  lemma BodyPlain(sb: string, read: nat, s: string, n: nat)
    requires n < |s| && s[n] != '\''
    ensures BodyOn(sb, read, s, n) == BodyOn(sb + [s[n]], read + 1, s, n + 1)
  {
    assert s[n..][1..] == s[n + 1..];
    var rest := StringBody(s[n + 1..]);
    if rest.Some? { assert sb + ([s[n]] + rest.value.0) == sb + [s[n]] + rest.value.0; }
  }

  lemma BodyEscape(sb: string, read: nat, s: string, n: nat)
    requires n + 1 < |s| && s[n] == '\'' && s[n + 1] == '\''
    ensures BodyOn(sb, read, s, n) == BodyOn(sb + [s[n + 1]], read + 2, s, n + 2)
  {
    assert s[n..][2..] == s[n + 2..] && s[n..][1] == s[n + 1];
    var rest := StringBody(s[n + 2..]);
    if rest.Some? { assert sb + (['\''] + rest.value.0) == sb + ['\''] + rest.value.0; }
  }

  lemma BodyCloses(sb: string, read: nat, s: string, n: nat)
    requires n < |s| && s[n] == '\'' && (n + 1 < |s| ==> s[n + 1] != '\'')
    ensures BodyOn(sb, read, s, n) == Some((sb, read + 1))
  {
    assert |s[n..]| > 1 ==> s[n..][1] == s[n + 1];
    assert sb + "" == sb;
  }

  lemma ScanStarts(rest: Result<seq<Lexeme>, ScanError>)
    ensures ScanAfter([], rest) == rest
  {
    if rest.Ok? { assert [] + rest.value == rest.value; }
  }

  lemma ScanShifts(out: seq<Lexeme>, x: Lexeme, rest: Result<seq<Lexeme>, ScanError>)
    ensures ScanAfter(out, ScanAfter([x], rest)) == ScanAfter(out + [x], rest)
  {
    if rest.Ok? { assert out + ([x] + rest.value) == out + [x] + rest.value; }
  }
}
