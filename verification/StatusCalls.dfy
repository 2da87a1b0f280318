/** Conditions that call a status function and conditions that are rewritten:
    when the one excludes the other, as the comment on condition evaluation has
    it (internal/workflow/expression/conditions.go). */
module StatusCalls {
  import opened Prelude
  import opened Lexing
  import opened Parsing
  import opened Scanner
  import opened ParserCalls
  import opened Marks
  import opened Evaluation
  import opened Conditions
  import Txt = Text

  const StatusFunctions := {"success", "failure", "cancelled", "always"}

  predicate CallsStatus(n: Node) { Calls(n, StatusFunctions) }

  // ---------------------------------------------------------------- what keeps a text from being rewritten

  predicate CarriesStatus(s: string, x: Lexeme) {
    || Carries(s, x, "success", '(') || Carries(s, x, "failure", '(')
    || Carries(s, x, "cancelled", '(') || Carries(s, x, "always", '(')
  }

  /** A string literal with a template or a mark in it, an identifier that ends
      like a status function with its parenthesis right behind it, or one that
      ends in "needs" or "job" with a dot right behind it. */
  predicate Blocks(s: string, x: Lexeme) {
    Holds(x, "${{") || CarriesStatus(s, x) || Carries(s, x, "needs", '.') || Carries(s, x, "job", '.')
  }

  lemma LettersAside(s: string, m: string)
    requires forall i :: 0 <= i < |m| ==> !('a' <= m[i] <= 'z') && !('A' <= m[i] <= 'Z')
    ensures Txt.Contains(Txt.Lower(s), m) <==> Txt.Contains(s, m)
  {
    forall i
      ensures Txt.OccursAt(Txt.Lower(s), m, i) <==> Txt.OccursAt(s, m, i)
    {
      LettersAsideAt(s, m, i);
    }
  }

  lemma LettersAsideAt(s: string, m: string, i: int)
    requires forall k :: 0 <= k < |m| ==> !('a' <= m[k] <= 'z') && !('A' <= m[k] <= 'Z')
    ensures Txt.OccursAt(Txt.Lower(s), m, i) <==> Txt.OccursAt(s, m, i)
  {
    var low := Txt.Lower(s);
    if 0 <= i <= |s| - |m| {
      forall k | 0 <= k < |m|
        ensures low[i..i + |m|][k] == m[k] <==> s[i..i + |m|][k] == m[k]
      {
        assert low[i + k] == Txt.LowerChar(s[i + k]);
      }
    }
  }

  lemma StatusMarks(s: string, xs: seq<Lexeme>, floats: Floats)
    requires ScanFrom(s, 0, floats) == Ok(xs)
    ensures MentionsStatusFunction(s) <==> exists x :: x in xs && CarriesStatus(s, x)
  {
    MarkIff(s, "success", '(', floats);
    MarkIff(s, "failure", '(', floats);
    MarkIff(s, "cancelled", '(', floats);
    MarkIff(s, "always", '(', floats);
    assert "success" + ['('] == "success(" && "failure" + ['('] == "failure(";
    assert "cancelled" + ['('] == "cancelled(" && "always" + ['('] == "always(";
  }

  lemma DotMark(s: string, xs: seq<Lexeme>, w: string, m: string, floats: Floats)
    requires ScanFrom(s, 0, floats) == Ok(xs) && Word(w) && m == w + ['.']
    ensures Txt.Contains(Txt.Lower(s), m) <==> exists x :: x in xs && Carries(s, x, w, '.')
  {
    MarkIff(s, w, '.', floats);
  }

  lemma TemplateMark(s: string, xs: seq<Lexeme>, m: string, floats: Floats)
    requires ScanFrom(s, 0, floats) == Ok(xs) && m == "${{"
    ensures Txt.Contains(s, m) <==> exists x :: x in xs && Holds(x, m)
  {
    TemplateIff(s, m, floats);
    LettersAside(s, m);
  }

  lemma DotMarks(s: string, xs: seq<Lexeme>, floats: Floats)
    requires ScanFrom(s, 0, floats) == Ok(xs)
    ensures Txt.Contains(Txt.Lower(s), "needs.") <==> exists x :: x in xs && Carries(s, x, "needs", '.')
    ensures Txt.Contains(Txt.Lower(s), "job.") <==> exists x :: x in xs && Carries(s, x, "job", '.')
  {
    assert "needs" + ['.'] == "needs." && "job" + ['.'] == "job.";
    DotMark(s, xs, "needs", "needs.", floats);
    DotMark(s, xs, "job", "job.", floats);
  }

  /** A text that lexes is rewritten exactly when no token of it blocks that. */
  lemma RewrittenIff(s: string, xs: seq<Lexeme>, floats: Floats)
    requires ScanFrom(s, 0, floats) == Ok(xs)
    ensures Rewritten(s) <==> forall x :: x in xs ==> !Blocks(s, x)
  {
    StatusMarks(s, xs, floats);
    DotMarks(s, xs, floats);
    TemplateMark(s, xs, "${{", floats);
  }

  // ---------------------------------------------------------------- calls

  /** A status function's name and the next parenthesis. */
  predicate CallAt(xs: seq<Lexeme>, i: int) {
    && 0 <= i < |xs| - 1 && xs[i].token.Some? && xs[i].token.value.Ident?
    && Txt.Lower(xs[i].token.value.text) in StatusFunctions && xs[i + 1].token == Some(Punct("("))
  }

  /** The parenthesis stands right behind the name. */
  predicate AdjacentAt(xs: seq<Lexeme>, i: int) {
    CallAt(xs, i) && xs[i + 1].at.offset == xs[i].at.offset + |xs[i].token.value.text|
  }

  lemma CallsIffCallAt(s: string, xs: seq<Lexeme>, n: Node, floats: Floats)
    requires ScanFrom(s, 0, floats) == Ok(xs) && Parse(s, floats) == Ok(n)
    ensures CallsStatus(n) <==> exists i :: CallAt(xs, i)
  {
    ScanTokens(s, 0, floats);
    assert s[0..] == s;
    var ts := Kinds(xs);
    CallsIffPair(ts, StatusFunctions);
    forall i
      ensures PairAt(ts, StatusFunctions, i) <==> CallAt(xs, i)
    {
    }
  }

  lemma {:induction false} CoversAt(s: string, n: nat, xs: seq<Lexeme>, i: nat, floats: Floats)
    requires n <= |s| && Covers(s, n, xs, floats) && i < |xs| - 1 && xs[i].token.Some? && xs[i].token.value.Ident?
    ensures var e := xs[i].at.offset + |xs[i].token.value.text|;
            && e <= xs[i + 1].at.offset <= |s| && xs[i].at.offset < |s|
            && (forall k :: e <= k < xs[i + 1].at.offset ==> IsBlank(s[k]))
            && (xs[i + 1].token.Some? ==> xs[i + 1].at.offset < |s| && !IsBlank(s[xs[i + 1].at.offset]))
    decreases |xs|
  {
    var k := xs[0].at.offset;
    if xs[0].token.Some? {
      var len := Front(s[k..], floats).value.1;
      if i == 0 {
        assert |xs[0].token.value.text| == len;
        assert xs[1..][0] == xs[1];
      } else {
        CoversAt(s, k + len, xs[1..], i - 1, floats);
        assert xs[1..][i - 1] == xs[i] && xs[1..][i] == xs[i + 1];
      }
    }
  }

  lemma {:induction false} CoversPunct(s: string, n: nat, xs: seq<Lexeme>, i: nat, floats: Floats)
    requires n <= |s| && Covers(s, n, xs, floats) && i < |xs| && xs[i].token == Some(Punct("("))
    ensures xs[i].at.offset < |s| && s[xs[i].at.offset] == '('
    decreases |xs|
  {
    var k := xs[0].at.offset;
    if i == 0 {
      assert s[k..][0] == s[k];
      PunctRead(s[k..], floats);
    } else if xs[0].token.Some? {
      CoversPunct(s, k + Front(s[k..], floats).value.1, xs[1..], i - 1, floats);
      assert xs[1..][i - 1] == xs[i];
    }
  }

  lemma PunctRead(t: string, floats: Floats)
    requires t != [] && !IsBlank(t[0]) && Front(t, floats).Ok? && Front(t, floats).value.0 == Punct("(")
    ensures t[0] == '('
  {
    var p := "(";
    assert p[0] == '(';
  }

  /** Where a call's parenthesis is adjacent, the name carries the mark; where it
      is not, blanks are in between. */
  lemma AdjacentCarries(s: string, xs: seq<Lexeme>, i: nat, floats: Floats)
    requires ScanFrom(s, 0, floats) == Ok(xs) && CallAt(xs, i)
    ensures AdjacentAt(xs, i) ==> CarriesStatus(s, xs[i])
    ensures !AdjacentAt(xs, i) ==> BlanksBetween(s, xs, i)
  {
    ScanCovers(s, 0, floats);
    CoversAt(s, 0, xs, i, floats);
    CoversPunct(s, 0, xs, i + 1, floats);
    if AdjacentAt(xs, i) { AdjacentMark(s, xs, i); }
  }

  lemma AdjacentMark(s: string, xs: seq<Lexeme>, i: nat)
    requires AdjacentAt(xs, i) && xs[i + 1].at.offset < |s| && s[xs[i + 1].at.offset] == '('
    ensures CarriesStatus(s, xs[i])
  {
    Whole(Txt.Lower(xs[i].token.value.text));
  }

  lemma Whole(t: string)
    ensures EndsWith(t, t)
  {
    assert t[0..] == t;
  }

  /** At least one blank, and nothing else, between the name and its parenthesis. */
  predicate BlanksBetween(s: string, xs: seq<Lexeme>, i: int)
    requires CallAt(xs, i)
  {
    var a, b := xs[i].at.offset + |xs[i].token.value.text|, xs[i + 1].at.offset;
    a < b <= |s| && forall k :: a <= k < b ==> IsBlank(s[k])
  }

  // ---------------------------------------------------------------- the comment and the code

  /** A condition that calls a status function is rewritten exactly when no token
      blocks that; then every call has blanks before its parenthesis. */
  lemma CallingRewrittenIff(s: string, xs: seq<Lexeme>, n: Node, floats: Floats)
    requires ScanFrom(s, 0, floats) == Ok(xs) && Parse(s, floats) == Ok(n) && CallsStatus(n)
    ensures exists i :: CallAt(xs, i)
    ensures Rewritten(s) <==> forall x :: x in xs ==> !Blocks(s, x)
    ensures Rewritten(s) ==> forall i :: CallAt(xs, i) ==> BlanksBetween(s, xs, i)
    ensures (exists i :: AdjacentAt(xs, i)) ==> !Rewritten(s)
  {
    CallsIffCallAt(s, xs, n, floats);
    RewrittenIff(s, xs, floats);
    forall i | CallAt(xs, i)
      ensures AdjacentAt(xs, i) ==> xs[i] in xs && Blocks(s, xs[i])
      ensures !AdjacentAt(xs, i) ==> BlanksBetween(s, xs, i)
    {
      AdjacentCarries(s, xs, i, floats);
    }
  }

  /** A mark that is no call: in a string literal, at the end of a longer
      identifier, or of a context named needs or job. */
  predicate StrayMark(s: string, x: Lexeme) {
    && x.token.Some?
    && match x.token.value
       case Str(v) => Blocks(s, x)
       case Ident(t) =>
         Carries(s, x, "needs", '.') || Carries(s, x, "job", '.') || (CarriesStatus(s, x) && Txt.Lower(t) !in StatusFunctions)
       case _ => false
  }

  /** A condition that calls none is kept from being rewritten exactly by a mark
      that is no call. */
  lemma NotCallingKeptIff(s: string, xs: seq<Lexeme>, n: Node, floats: Floats)
    requires ScanFrom(s, 0, floats) == Ok(xs) && Parse(s, floats) == Ok(n) && !CallsStatus(n)
    ensures !Rewritten(s) <==> exists x :: x in xs && StrayMark(s, x)
  {
    CallsIffCallAt(s, xs, n, floats);
    RewrittenIff(s, xs, floats);
    forall x | x in xs && Blocks(s, x)
      ensures StrayMark(s, x)
    {
      BlocksIsStray(s, xs, x, floats);
    }
  }

  /** Where no call is, whatever blocks the rewrite is no call. */
  lemma BlocksIsStray(s: string, xs: seq<Lexeme>, x: Lexeme, floats: Floats)
    requires ScanFrom(s, 0, floats) == Ok(xs) && x in xs && Blocks(s, x) && !exists i :: CallAt(xs, i)
    ensures StrayMark(s, x)
  {
    if x.token.value.Ident? && CarriesStatus(s, x) {
      var i :| 0 <= i < |xs| && xs[i] == x;
      CarriesParen(s, x);
      NoCallThere(s, xs, i, floats);
    }
  }

  lemma NoCallThere(s: string, xs: seq<Lexeme>, i: nat, floats: Floats)
    requires ScanFrom(s, 0, floats) == Ok(xs) && i < |xs| && !CallAt(xs, i)
    requires xs[i].token.Some? && xs[i].token.value.Ident?
    requires var e := xs[i].at.offset + |xs[i].token.value.text|; e < |s| && s[e] == '('
    ensures Txt.Lower(xs[i].token.value.text) !in StatusFunctions
  {
    if Txt.Lower(xs[i].token.value.text) in StatusFunctions { CarriedCall(s, xs, i, floats); }
  }

  /** The parenthesis behind a name is the next token. */
  lemma CarriedCall(s: string, xs: seq<Lexeme>, i: nat, floats: Floats)
    requires ScanFrom(s, 0, floats) == Ok(xs) && i < |xs| && xs[i].token.Some? && xs[i].token.value.Ident?
    requires Txt.Lower(xs[i].token.value.text) in StatusFunctions
    requires var e := xs[i].at.offset + |xs[i].token.value.text|; e < |s| && s[e] == '('
    ensures CallAt(xs, i)
  {
    ScanCovers(s, 0, floats);
    NextIsParen(s, 0, xs, i, floats);
  }

  lemma CarriesParen(s: string, x: Lexeme)
    requires x.token.Some? && x.token.value.Ident? && CarriesStatus(s, x)
    ensures var e := x.at.offset + |x.token.value.text|; e < |s| && s[e] == '('
  {}

  lemma ParenFront(t: string, floats: Floats)
    requires t != [] && t[0] == '('
    ensures Front(t, floats) == Ok((Punct("("), 1))
  {
    assert !StartsNumber(t) && !TwoCharOp(t);
  }

  lemma {:induction false} NextIsParen(s: string, n: nat, xs: seq<Lexeme>, i: nat, floats: Floats)
    requires n <= |s| && Covers(s, n, xs, floats) && i < |xs| && xs[i].token.Some? && xs[i].token.value.Ident?
    requires var e := xs[i].at.offset + |xs[i].token.value.text|; e < |s| && s[e] == '('
    ensures i + 1 < |xs| && xs[i + 1].token == Some(Punct("("))
    decreases |xs|
  {
    var k := xs[0].at.offset;
    if xs[0].token.Some? {
      var len := Front(s[k..], floats).value.1;
      var rest := xs[1..];
      if i == 0 {
        assert |xs[0].token.value.text| == len;
        assert rest[0].at.offset == k + len;
        ParenFront(s[k + len..], floats);
      } else {
        assert rest[i - 1] == xs[i];
        NextIsParen(s, k + len, rest, i - 1, floats);
      }
    }
  }

  /** A condition is rewritten just if it calls no status function exactly when it
      has a call among its tokens just if some token blocks the rewrite. */
  lemma CommentHoldsIff(s: string, xs: seq<Lexeme>, n: Node, floats: Floats)
    requires ScanFrom(s, 0, floats) == Ok(xs) && Parse(s, floats) == Ok(n)
    ensures (Rewritten(s) <==> !CallsStatus(n)) <==> ((exists i :: CallAt(xs, i)) <==> (exists x :: x in xs && Blocks(s, x)))
  {
    CallsIffCallAt(s, xs, n, floats);
    RewrittenIff(s, xs, floats);
  }

  // ---------------------------------------------------------------- witnesses

  const LITERAL := "'always('"

  /** A postfix expression is an expression. */
  lemma PostfixParses(ts: Tokens, n: Node)
    requires ParsePostfix(ts) == Good(n, []) && !At(ts, "!")
    ensures ParseTokens(ts) == Ok(n)
  {
    assert ParseUnary(ts) == Good(n, []);
    assert ParseCompare(ts) == Good(n, []);
    assert ParseAnd(ts) == Good(n, []);
    assert ParseOr(ts) == Good(n, []);
  }

  lemma LiteralTokens(ts: Tokens, v: string)
    requires ts == [Str(v)]
    ensures ParseTokens(ts) == Ok(Text(v))
  {
    assert ts[1..] == [];
    assert ParsePrimary(ts) == Good(Text(v), []);
    assert PostfixLoop(Text(v), []) == Good(Text(v), []);
    PostfixParses(ts, Text(v));
  }

  lemma LiteralParsed(s: string, v: string, floats: Floats)
    requires '\'' !in v && s == ['\''] + v + ['\'']
    ensures Parse(s, floats) == Ok(Text(v))
  {
    NoQuotes(v);
    assert s == TokenText(Str(v));
    TokenLexes(Str(v), floats);
    LiteralTokens([Str(v)], v);
  }

  /** A trimmed text that is neither a template nor rewritten is evaluated as it stands. */
  lemma KeptMeaning(s: string, n: Node, v: Value, env: Env, lib: Library)
    requires Txt.Trim(s) == s && s != "" && !Rewritten(s) && !Txt.Contains(s, "${{")
    requires Parse(s, FloatsOf(lib)) == Ok(n) && Eval(n, env, lib) == Ok(v)
    ensures EvaluateCondition(s, env, lib) == Ok(Truthy(v))
  {}

  lemma LiteralKept(s: string, m: string)
    requires s == LITERAL && m == "always("
    ensures Txt.Trim(s) == s && s != "" && !Rewritten(s) && !Txt.Contains(s, "${{")
  {
    assert Txt.Lower(s) == s;
    assert s[1..1 + |m|] == m;
    assert Txt.OccursAt(s, m, 1);
    AbsentCharacter(s, "${{", 0);
  }

  /** A string literal with a mark in it calls nothing and is not rewritten: the
      condition holds whatever the job status. */
  lemma LiteralHoldsAlways(s: string, env: Env, lib: Library)
    requires s == LITERAL
    ensures exists n :: Parse(s, FloatsOf(lib)) == Ok(n) && !CallsStatus(n)
    ensures EvaluateCondition(s, env, lib) == Ok(true)
  {
    var v := "always(";
    LiteralText(s, v);
    LiteralParsed(s, v, FloatsOf(lib));
    LiteralKept(s, v);
    var n := Text(v);
    assert !CallsStatus(n);
    KeptMeaning(s, n, VString(v), env, lib);
  }

  lemma LiteralText(s: string, v: string)
    requires s == LITERAL && v == "always("
    ensures '\'' !in v && s == ['\''] + v + ['\''] && v != ""
  {}

  const JOBTEXT := "job.status"

  lemma MemberParsed(ts: Tokens, x: string, y: string)
    requires ts == [Ident(x), Punct("."), Ident(y)] && !Keyworded(x) && !Keyworded(y)
    ensures ParseTokens(ts) == Ok(Member(Name(x), Text(y)))
  {
    var n := Member(Name(x), Text(y));
    assert ts[1..] == [Punct("."), Ident(y)] && ts[1..][1..] == [Ident(y)] && ts[1..][1..][1..] == [];
    assert ParsePrimary(ts) == Good(Name(x), ts[1..]);
    assert ParsePrimary(ts[1..][1..]) == Good(Name(y), []);
    assert PostfixLoop(n, []) == Good(n, []);
    assert PostfixLoop(Name(x), ts[1..]) == Good(n, []);
    PostfixParses(ts, n);
  }

  predicate Keyworded(x: string) { x == "null" || x == "true" || x == "false" }

  lemma DottedParsed(x: string, y: string, floats: Floats)
    requires IsIdent(x) && IsIdent(y) && !Keyworded(x) && !Keyworded(y)
    ensures Parse(x + ("." + y), floats) == Ok(Member(Name(x), Text(y)))
  {
    TokenLexes(Ident(y), floats);
    IdentDotLexes(x, y, floats);
    assert [Ident(x)] + ([Punct(".")] + [Ident(y)]) == [Ident(x), Punct("."), Ident(y)];
    MemberParsed([Ident(x), Punct("."), Ident(y)], x, y);
  }

  lemma JobText(s: string, x: string, y: string)
    requires s == JOBTEXT && x == "job" && y == "status"
    ensures s == x + ("." + y) && IsIdent(x) && IsIdent(y) && !Keyworded(x) && !Keyworded(y) && Txt.Lower(x) == x
  {}

  lemma JobKept(s: string, m: string)
    requires s == JOBTEXT && m == "job."
    ensures Txt.Trim(s) == s && s != "" && !Rewritten(s) && !Txt.Contains(s, "${{")
  {
    assert Txt.Lower(s) == s;
    assert s[0..0 + |m|] == m;
    assert Txt.OccursAt(s, m, 0);
    AbsentCharacter(s, "${{", 0);
  }

  /** So does a condition that reads the job context: this one calls nothing and
      holds for a job whose needs failed. */
  lemma JobHoldsOnFailure(s: string, env: Env, status: map<string, Value>, lib: Library)
    requires s == JOBTEXT && "job" in env.contexts && env.contexts["job"] == VObject(status)
    requires "status" in status && status["status"] == VString("failure")
    ensures exists n :: Parse(s, FloatsOf(lib)) == Ok(n) && !CallsStatus(n)
    ensures EvaluateCondition(s, env, lib) == Ok(true)
  {
    JobText(s, "job", "status");
    JobKept(s, "job.");
    FieldHolds(s, "job", "status", status, "failure", env, lib);
  }

  lemma FieldHolds(s: string, x: string, y: string, fields: map<string, Value>, v: string, env: Env, lib: Library)
    requires s == x + ("." + y) && IsIdent(x) && IsIdent(y) && !Keyworded(x) && !Keyworded(y) && Txt.Lower(x) == x
    requires Txt.Trim(s) == s && s != "" && !Rewritten(s) && !Txt.Contains(s, "${{")
    requires x in env.contexts && env.contexts[x] == VObject(fields) && y in fields && fields[y] == VString(v) && v != ""
    ensures exists n :: Parse(s, FloatsOf(lib)) == Ok(n) && !CallsStatus(n)
    ensures EvaluateCondition(s, env, lib) == Ok(true)
  {
    DottedParsed(x, y, FloatsOf(lib));
    var n := Member(Name(x), Text(y));
    assert !CallsStatus(Name(x)) && !CallsStatus(Text(y));
    ReadsField(x, y, fields, VString(v), env, lib);
    KeptMeaning(s, n, VString(v), env, lib);
  }

  lemma ReadsField(x: string, y: string, fields: map<string, Value>, v: Value, env: Env, lib: Library)
    requires Txt.Lower(x) == x && x in env.contexts && env.contexts[x] == VObject(fields) && y in fields && fields[y] == v
    ensures Eval(Member(Name(x), Text(y)), env, lib) == Ok(v)
  {
    assert Eval(Name(x), env, lib) == Ok(VObject(fields));
    assert Eval(Text(y), env, lib) == Ok(VString(y));
  }
}
