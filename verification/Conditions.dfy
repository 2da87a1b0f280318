/** `if:` conditions: the textual rewrite `success() && (...)` and its meaning
    (internal/workflow/expression/conditions.go, interpolate.go). */
module Conditions {
  import opened Prelude
  import opened Lexing
  import opened Parsing
  import opened Evaluation
  import opened Printing
  import opened ParserFacts
  import opened ParserBalance
  import Txt = Text

  datatype ConditionFault = EvalProblem(fault: EvalFault) | UnterminatedTemplate

  /** The position of the first "}}" in s, or the length. */
  function ClosingBraces(s: string): (i: nat)
    ensures i <= |s| && (i < |s| ==> i + 1 < |s| && s[i] == '}' && s[i + 1] == '}')
  {
    if s == [] then 0
    else if |s| > 1 && s[0] == '}' && s[1] == '}' then 0
    else 1 + ClosingBraces(s[1..])
  }

  predicate Opens(s: string) {
    |s| >= 3 && s[0] == '$' && s[1] == '{' && s[2] == '{'
  }

  /** Expands every placeholder; text outside is kept. */
  ghost function Interpolate(tpl: string, env: Env, lib: Library): Result<string, ConditionFault>
    decreases |tpl|
  {
    if tpl == [] then Ok("")
    else if !Opens(tpl) then
      var rest :- Interpolate(tpl[1..], env, lib);
      Ok([tpl[0]] + rest)
    else
      var inside := ClosingBraces(tpl[3..]);
      if inside == |tpl| - 3 then Err(UnterminatedTemplate)
      else
        match EvalText(Txt.Trim(tpl[3..3 + inside]), env, lib)
        case Err(f) => Err(EvalProblem(f))
        case Ok(v) =>
          var rest :- Interpolate(tpl[3 + inside + 2..], env, lib);
          Ok(Show(v, lib) + rest)
  }

  predicate MentionsStatusFunction(cond: string) {
    var lower := Txt.Lower(cond);
    || Txt.Contains(lower, "success(") || Txt.Contains(lower, "failure(")
    || Txt.Contains(lower, "cancelled(") || Txt.Contains(lower, "always(")
  }

  /** Conditions that are rewritten: no template, no status function, and, unlike
      the comment on the function says, no "needs." or "job." either. */
  ghost predicate Rewritten(cond: string) {
    && !Txt.Contains(cond, "${{") && !MentionsStatusFunction(cond)
    && !Txt.Contains(Txt.Lower(cond), "needs.") && !Txt.Contains(Txt.Lower(cond), "job.")
  }

  const PREFIX := "success() && ("

  function Wrap(cond: string): string {
    PREFIX + cond + ")"
  }

  ghost function Decide(cond: string, env: Env, lib: Library): Result<bool, ConditionFault> {
    match EvalText(cond, env, lib)
    case Err(f) => Err(EvalProblem(f))
    case Ok(v) => Ok(Truthy(v))
  }

  ghost function EvaluateCondition(raw: string, env: Env, lib: Library): Result<bool, ConditionFault> {
    var cond := Txt.Trim(raw);
    if cond == "" then Ok(true)
    else if Txt.Contains(cond, "${{") then
      var rendered :- Interpolate(cond, env, lib);
      if Txt.Trim(rendered) == "" then Ok(true) else Decide(Txt.Trim(rendered), env, lib)
    else if Rewritten(cond) then Decide(Wrap(cond), env, lib)
    else Decide(cond, env, lib)
  }

  // ---------------------------------------------------------------- the rewritten text

  const SuccessCall := Call("success", [])

  /** Glues a token, a separator and lexed text. */
  lemma Glue(t: Token, rest: string, floats: Floats)
    requires ValidToken(t, floats) && Apart(rest) && Lex(rest, floats).Ok?
    ensures Lex(TokenText(t) + rest, floats) == Ok([t] + Lex(rest, floats).value)
  {
    TokenLexes(t, floats);
    LexConcat(TokenText(t), rest, floats);
  }

  /** An opening parenthesis never joins what follows it. */
  lemma OpenParen(x: string, floats: Floats)
    requires Lex(x, floats).Ok?
    ensures Lex("(" + x, floats) == Ok([Punct("(")] + Lex(x, floats).value)
  {
    var s := "(" + x;
    assert s[0] == '(' && s[1..] == x;
    assert !StartsNumber(s) && !TwoCharOp(s);
    assert Front(s, floats) == Ok((Punct("("), 1));
    assert Unblank(s) == s;
  }

  lemma PrefixText(x: string)
    ensures PREFIX + x == "success" + ("(" + (")" + (" " + ("&&" + (" " + ("(" + x))))))
  {
    assert PREFIX == "success" + ("(" + (")" + (" " + ("&&" + (" " + "(")))));
  }

  /** The part of the prefix after "success()". */
  lemma AndLexes(x: string, floats: Floats)
    requires Lex(x, floats).Ok?
    ensures Lex(" " + ("&&" + (" " + ("(" + x))), floats) == Ok([Punct("&&")] + ([Punct("(")] + Lex(x, floats).value))
  {
    OpenParen(x, floats);
    var s1 := "(" + x;
    BlankLexes(s1, floats);
    Glue(Punct("&&"), " " + s1, floats);
    BlankLexes("&&" + (" " + s1), floats);
  }

  lemma CallLexes(name: string, y: string, floats: Floats)
    requires IsIdent(name) && Apart(y) && Lex(y, floats).Ok?
    ensures Lex(name + ("(" + (")" + y)), floats) ==
            Ok([Ident(name)] + ([Punct("(")] + ([Punct(")")] + Lex(y, floats).value)))
  {
    Glue(Punct(")"), y, floats);
    Glue(Punct("("), ")" + y, floats);
    Glue(Ident(name), "(" + (")" + y), floats);
  }

  lemma FiveTokens<T>(a: T, b: T, c: T, d: T, e: T, x: seq<T>)
    ensures [a] + ([b] + ([c] + ([d] + ([e] + x)))) == [a, b, c, d, e] + x
  {}

  lemma PrefixLexes(x: string, floats: Floats)
    requires Lex(x, floats).Ok?
    ensures Lex(PREFIX + x, floats) ==
            Ok([Ident("success"), Punct("("), Punct(")"), Punct("&&"), Punct("(")] + Lex(x, floats).value)
  {
    AndLexes(x, floats);
    assert IsIdent("success");
    CallLexes("success", " " + ("&&" + (" " + ("(" + x))), floats);
    PrefixText(x);
    FiveTokens(Ident("success"), Punct("("), Punct(")"), Punct("&&"), Punct("("), Lex(x, floats).value);
  }

  lemma WrapLexes(cond: string, floats: Floats)
    requires Lex(cond, floats).Ok?
    ensures Lex(Wrap(cond), floats) ==
            Ok([Ident("success"), Punct("("), Punct(")"), Punct("&&"), Punct("(")] + (Lex(cond, floats).value + [Punct(")")]))
  {
    TokenLexes(Punct(")"), floats);
    LexConcat(cond, ")", floats);
    PrefixLexes(cond + ")", floats);
    assert Wrap(cond) == PREFIX + (cond + ")");
  }

  // ---------------------------------------------------------------- its tree

  lemma ParenParses(ts: Tokens, n: Node)
    requires ParseOr(ts) == Good(n, [])
    ensures ParseCompare([Punct("(")] + (ts + [Punct(")")])) == Good(n, [])
  {
    var close := [Punct(")")];
    var s := [Punct("(")] + (ts + close);
    assert s[0] == Punct("(") && s[1..] == ts + close;
    OrExtends(ts, close);
    assert [] + close == close && close[1..] == [];
    assert ParsePrimary(s) == Good(n, []);
    assert ParsePostfix(s) == Good(n, []);
    assert ParseUnary(s) == Good(n, []);
  }

  lemma SuccessParses(rest: Tokens)
    requires At(rest, "&&")
    ensures ParseCompare([Ident("success"), Punct("("), Punct(")")] + rest) == Good(SuccessCall, rest)
  {
    var s := [Ident("success"), Punct("("), Punct(")")] + rest;
    assert s[0] == Ident("success") && s[1..][0] == Punct("(") && s[1..][1..] == [Punct(")")] + rest;
    assert s[1..][1..][0] == Punct(")") && s[1..][1..][1..] == rest;
    assert ParseCall("success", s[1..][1..]) == Good(SuccessCall, rest);
    assert ParsePrimary(s) == Good(SuccessCall, rest);
    assert ParsePostfix(s) == Good(SuccessCall, rest);
    assert ParseUnary(s) == Good(SuccessCall, rest);
    assert CompareOp(rest).None?;
  }

  lemma WrapTokensParse(ts: Tokens, n: Node)
    requires ParseOr(ts) == Good(n, [])
    ensures ParseTokens([Ident("success"), Punct("("), Punct(")"), Punct("&&"), Punct("(")] + (ts + [Punct(")")]))
            == Ok(Binary(And, SuccessCall, n))
  {
    var inner := [Punct("(")] + (ts + [Punct(")")]);
    var rest := [Punct("&&")] + inner;
    var all := [Ident("success"), Punct("("), Punct(")"), Punct("&&"), Punct("(")] + (ts + [Punct(")")]);
    assert all == [Ident("success"), Punct("("), Punct(")")] + rest;
    assert rest[0] == Punct("&&") && rest[1..] == inner;
    SuccessParses(rest);
    ParenParses(ts, n);
    assert AndLoop(SuccessCall, rest) == Good(Binary(And, SuccessCall, n), []);
    assert ParseAnd(all) == Good(Binary(And, SuccessCall, n), []);
    assert ParseOr(all) == Good(Binary(And, SuccessCall, n), []);
  }

  /** The rewritten text means "success and the condition", for every condition
      that is an expression on its own. */
  lemma WrapParses(cond: string, floats: Floats)
    requires Parse(cond, floats).Ok?
    ensures Parse(Wrap(cond), floats) == Ok(Binary(And, SuccessCall, Parse(cond, floats).value))
  {
    var ts := Lex(cond, floats).value;
    WrapLexes(cond, floats);
    WrapTokensParse(ts, Parse(cond, floats).value);
  }

  /** A rewritten condition is true exactly when the job status is success and
      the condition itself is truthy; with another status it is false without
      being evaluated. */
  lemma RewrittenMeaning(raw: string, env: Env, lib: Library)
    requires Txt.Trim(raw) != "" && Rewritten(Txt.Trim(raw))
    requires Parse(Txt.Trim(raw), FloatsOf(lib)).Ok?
    ensures EvaluateCondition(raw, env, lib) ==
            if JobStatus(env) != "success" then Ok(false) else Decide(Txt.Trim(raw), env, lib)
  {
    var cond := Txt.Trim(raw);
    var n := Parse(cond, FloatsOf(lib)).value;
    WrapParses(cond, FloatsOf(lib));
    assert Txt.Lower("success") == "success";
    assert EvalArgs([], env, lib) == Ok([]);
    assert Eval(SuccessCall, env, lib) == Ok(VBool(JobStatus(env) == "success"));
  }

  // ---------------------------------------------------------------- text that is not an expression

  lemma GlueFails(t: Token, rest: string, floats: Floats)
    requires ValidToken(t, floats) && Apart(rest) && Lex(rest, floats).Err?
    ensures Lex(TokenText(t) + rest, floats).Err?
  {
    TokenLexes(t, floats);
    LexFailsBehind(TokenText(t), rest, floats);
  }

  lemma OpenParenFails(x: string, floats: Floats)
    requires Lex(x, floats).Err?
    ensures Lex("(" + x, floats).Err?
  {
    var s := "(" + x;
    assert s[0] == '(' && s[1..] == x;
    assert !StartsNumber(s) && !TwoCharOp(s);
    assert Front(s, floats) == Ok((Punct("("), 1));
    assert Unblank(s) == s;
  }

  lemma AndFails(x: string, floats: Floats)
    requires Lex(x, floats).Err?
    ensures Lex(" " + ("&&" + (" " + ("(" + x))), floats).Err?
  {
    OpenParenFails(x, floats);
    var s1 := "(" + x;
    BlankLexes(s1, floats);
    GlueFails(Punct("&&"), " " + s1, floats);
    BlankLexes("&&" + (" " + s1), floats);
  }

  lemma SuccessFails(y: string, floats: Floats)
    requires Apart(y) && Lex(y, floats).Err?
    ensures Lex("success" + ("(" + (")" + y)), floats).Err?
  {
    GlueFails(Punct(")"), y, floats);
    GlueFails(Punct("("), ")" + y, floats);
    assert IsIdent("success");
    GlueFails(Ident("success"), "(" + (")" + y), floats);
  }

  /** A text that does not lex does not lex wrapped either. */
  lemma WrapLexFails(cond: string, floats: Floats)
    requires Lex(cond, floats).Err?
    ensures Lex(Wrap(cond), floats).Err?
  {
    LexFails(cond, ")", floats);
    var x := cond + ")";
    AndFails(x, floats);
    SuccessFails(" " + ("&&" + (" " + ("(" + x))), floats);
    PrefixText(x);
    assert Wrap(cond) == PREFIX + x;
  }

  /** What stands between the parentheses of the rewrite. */
  lemma ParenOpens(ts: Tokens)
    requires ParsePrimary([Punct("(")] + (ts + CLOSE)).Good?
    ensures var r := ParseOr(ts + CLOSE); r.Good? && At(r.rest, ")")
  {
    var s := [Punct("(")] + (ts + CLOSE);
    assert s[0] == Punct("(") && s[1..] == ts + CLOSE;
  }

  /** With no prefix that closes too much, the inner parse ends at the final ')'. */
  lemma EndsAtClose(ts: Tokens, n: Node, rest: Tokens)
    requires NeverCloses(ts) && ParseOr(ts + CLOSE) == Good(n, rest) && At(rest, ")")
    ensures rest == CLOSE
  {
    var all := ts + CLOSE;
    OrLeaves(all);
    var k := |all| - |rest|;
    if k < |ts| {
      assert all[k] == rest[0] && ts[..k + 1] == all[..k] + [rest[0]];
      DepthConcat(all[..k], [rest[0]]);
      DepthOne(rest[0]);
    } else {
      assert rest == all[k..];
    }
  }

  lemma WrappedInner(ts: Tokens)
    requires ParseTokens([Ident("success"), Punct("("), Punct(")"), Punct("&&"), Punct("(")] + (ts + CLOSE)).Ok?
    ensures ParsePrimary([Punct("(")] + (ts + CLOSE)).Good?
  {
    var inner := [Punct("(")] + (ts + CLOSE);
    var rest := [Punct("&&")] + inner;
    var all := [Ident("success"), Punct("("), Punct(")"), Punct("&&"), Punct("(")] + (ts + CLOSE);
    assert all == [Ident("success"), Punct("("), Punct(")")] + rest;
    assert rest[0] == Punct("&&") && rest[1..] == inner;
    SuccessParses(rest);
    assert ParseAnd(all) == AndLoop(SuccessCall, rest);
    assert ParseCompare(inner).Good?;
    assert inner[0] == Punct("(") && ParseUnary(inner) == ParsePostfix(inner);
  }

  lemma UnwrapParses(ts: Tokens)
    requires NeverCloses(ts)
    requires ParseTokens([Ident("success"), Punct("("), Punct(")"), Punct("&&"), Punct("(")] + (ts + CLOSE)).Ok?
    ensures ParseTokens(ts).Ok?
  {
    WrappedInner(ts);
    ParenOpens(ts);
    var r := ParseOr(ts + CLOSE);
    EndsAtClose(ts, r.value, r.rest);
    OrShrinks(ts, r.value);
  }

  /** The texts whose tokens never close more parentheses than they opened. */
  ghost predicate StaysInside(cond: string, floats: Floats) {
    Lex(cond, floats).Ok? ==> NeverCloses(Lex(cond, floats).value)
  }

  /** The rewrite keeps what a text means, or that it means nothing, whenever no
      prefix of its tokens closes more parentheses than it opened. */
  lemma WrapKeepsMeaningIff(cond: string, n: Node, floats: Floats)
    requires StaysInside(cond, floats)
    ensures Parse(Wrap(cond), floats).Ok? <==> Parse(cond, floats).Ok?
    ensures Parse(Wrap(cond), floats) == Ok(Binary(And, SuccessCall, n)) <==> Parse(cond, floats) == Ok(n)
  {
    if Parse(cond, floats).Ok? {
      WrapParses(cond, floats);
    } else if Lex(cond, floats).Err? {
      WrapLexFails(cond, floats);
    } else {
      WrapLexes(cond, floats);
      if Parse(Wrap(cond), floats).Ok? { UnwrapParses(Lex(cond, floats).value); }
    }
  }

  /** Any other text is no expression. */
  lemma OutsideNeverParses(cond: string, floats: Floats)
    requires !StaysInside(cond, floats)
    ensures Parse(cond, floats).Err?
  {
    var ts := Lex(cond, floats).value;
    OrLeaves(ts);
    var r := ParseOr(ts);
    assert ts[..|ts|] == ts;
  }

  const ESCAPE := "false) || (true"

  const EscapeTokens := [Ident("false"), Punct(")"), Punct("||"), Punct("("), Ident("true")]

  // The texts below are parameters, so that the verifier reasons by the lemmas
  // about concatenation instead of lexing literals character by character.

  lemma OrOpen(word: string, floats: Floats)
    requires IsIdent(word)
    ensures Lex(" " + ("||" + (" " + ("(" + word))), floats) == Ok([Punct("||")] + ([Punct("(")] + [Ident(word)]))
  {
    TokenLexes(Ident(word), floats);
    OpenParen(word, floats);
    var s1 := "(" + word;
    BlankLexes(s1, floats);
    Glue(Punct("||"), " " + s1, floats);
    BlankLexes("||" + (" " + s1), floats);
  }

  lemma WordClose(word: string, tail: string, floats: Floats)
    requires IsIdent(word) && Apart(tail) && Lex(tail, floats).Ok?
    ensures Lex(word + (")" + tail), floats) == Ok([Ident(word)] + ([Punct(")")] + Lex(tail, floats).value))
  {
    Glue(Punct(")"), tail, floats);
    Glue(Ident(word), ")" + tail, floats);
  }

  lemma EscapeShape(a: string, b: string, floats: Floats)
    requires IsIdent(a) && IsIdent(b)
    ensures Lex(a + (")" + (" " + ("||" + (" " + ("(" + b))))), floats) ==
            Ok([Ident(a), Punct(")"), Punct("||"), Punct("("), Ident(b)])
  {
    OrOpen(b, floats);
    WordClose(a, " " + ("||" + (" " + ("(" + b))), floats);
    assert [Ident(a)] + ([Punct(")")] + ([Punct("||")] + ([Punct("(")] + [Ident(b)]))) ==
           [Ident(a), Punct(")"), Punct("||"), Punct("("), Ident(b)];
  }

  lemma EscapeText(s: string, a: string, b: string)
    requires s == ESCAPE && a == "false" && b == "true"
    ensures s == a + (")" + (" " + ("||" + (" " + ("(" + b))))) && IsIdent(a) && IsIdent(b)
  {}

  lemma EscapeLexes(s: string, floats: Floats)
    requires s == ESCAPE
    ensures Lex(s, floats) == Ok(EscapeTokens)
  {
    var a: string, b: string :| a == "false" && b == "true";
    EscapeText(s, a, b);
    EscapeShape(a, b, floats);
  }

  lemma LiteralParses(b: bool, rest: Tokens)
    requires rest == [] || At(rest, ")") || At(rest, "||")
    ensures ParseCompare([Ident(if b then "true" else "false")] + rest) == Good(Boolean(b), rest)
  {
    var s := [Ident(if b then "true" else "false")] + rest;
    assert s[1..] == rest;
    assert ParsePrimary(s) == Good(Boolean(b), rest);
    assert ParsePostfix(s) == Good(Boolean(b), rest);
    assert ParseUnary(s) == Good(Boolean(b), rest);
  }

  lemma LiteralParenParses(b: bool, rest: Tokens)
    requires rest == [] || At(rest, "||")
    ensures ParseCompare([Punct("("), Ident(if b then "true" else "false"), Punct(")")] + rest) == Good(Boolean(b), rest)
  {
    var lit := Ident(if b then "true" else "false");
    var close := [Punct(")")] + rest;
    var s := [Punct("("), lit, Punct(")")] + rest;
    LiteralParses(b, close);
    assert s[0] == Punct("(") && s[1..] == [lit] + close && close[1..] == rest;
    assert ParseAnd([lit] + close) == Good(Boolean(b), close);
    assert ParseOr([lit] + close) == Good(Boolean(b), close);
    assert ParsePrimary(s) == Good(Boolean(b), rest);
    assert ParsePostfix(s) == Good(Boolean(b), rest);
    assert ParseUnary(s) == Good(Boolean(b), rest);
  }

  lemma EscapeIsNoExpression(s: string, floats: Floats)
    requires s == ESCAPE
    ensures Parse(s, floats).Err?
  {
    EscapeLexes(s, floats);
    var rest := EscapeTokens[1..];
    LiteralParses(false, rest);
    assert [Ident("false")] + rest == EscapeTokens;
    assert ParseAnd(EscapeTokens) == Good(Boolean(false), rest);
    assert ParseOr(EscapeTokens) == Good(Boolean(false), rest);
  }

  const EscapeTree := Binary(Or, Binary(And, SuccessCall, Boolean(false)), Boolean(true))

  const EscapeLast := [Punct("("), Ident("true"), Punct(")")]
  const EscapeOr := [Punct("||")] + EscapeLast
  const EscapeAnd := [Punct("&&")] + ([Punct("("), Ident("false"), Punct(")")] + EscapeOr)

  lemma EscapeWrappedTokens()
    ensures [Ident("success"), Punct("("), Punct(")"), Punct("&&"), Punct("(")] + (EscapeTokens + [Punct(")")])
            == [Ident("success"), Punct("("), Punct(")")] + EscapeAnd
  {}

  lemma EscapeLeft()
    ensures ParseAnd([Ident("success"), Punct("("), Punct(")")] + EscapeAnd)
            == Good(Binary(And, SuccessCall, Boolean(false)), EscapeOr)
  {
    SuccessParses(EscapeAnd);
    LiteralParenParses(false, EscapeOr);
    assert EscapeAnd[1..] == [Punct("("), Ident("false"), Punct(")")] + EscapeOr;
    assert AndLoop(SuccessCall, EscapeAnd) == Good(Binary(And, SuccessCall, Boolean(false)), EscapeOr);
  }

  lemma EscapeRight(left: Node)
    ensures OrLoop(left, EscapeOr) == Good(Binary(Or, left, Boolean(true)), [])
  {
    LiteralParenParses(true, []);
    assert EscapeLast + [] == EscapeLast;
    assert ParseAnd(EscapeLast) == Good(Boolean(true), []);
    assert EscapeOr[1..] == EscapeLast;
  }

  lemma EscapeWrappedParses(s: string, floats: Floats)
    requires s == ESCAPE
    ensures Parse(Wrap(s), floats) == Ok(EscapeTree)
  {
    EscapeLexes(s, floats);
    WrapLexes(s, floats);
    EscapeWrappedTokens();
    EscapeLeft();
    EscapeRight(Binary(And, SuccessCall, Boolean(false)));
  }

  lemma OccurringCharacter(s: string, sub: string, i: int, k: nat)
    requires Txt.OccursAt(s, sub, i) && k < |sub|
    ensures sub[k] in s
  {
    assert s[i..i + |sub|][k] == s[i + k];
  }

  lemma AbsentCharacter(s: string, sub: string, k: nat)
    requires k < |sub| && sub[k] !in s
    ensures !Txt.Contains(s, sub)
  {
    forall i
      ensures !Txt.OccursAt(s, sub, i)
    {
      if Txt.OccursAt(s, sub, i) { OccurringCharacter(s, sub, i, k); }
    }
  }

  lemma EscapeLower()
    ensures Txt.Lower(ESCAPE) == ESCAPE
  {}

  lemma EscapeIsRewritten()
    ensures Txt.Trim(ESCAPE) == ESCAPE && Rewritten(ESCAPE)
  {
    EscapeLower();
    AbsentCharacter(ESCAPE, "${{", 0);
    AbsentCharacter(ESCAPE, "success(", 2);
    AbsentCharacter(ESCAPE, "failure(", 2);
    AbsentCharacter(ESCAPE, "cancelled(", 0);
    AbsentCharacter(ESCAPE, "always(", 2);
    AbsentCharacter(ESCAPE, "needs.", 0);
    AbsentCharacter(ESCAPE, "job.", 0);
  }

  lemma EscapeTrue(env: Env, lib: Library)
    ensures Eval(EscapeTree, env, lib) == Ok(VBool(true))
  {
    assert Txt.Lower("success") == "success";
    assert EvalArgs([], env, lib) == Ok([]);
    assert Eval(SuccessCall, env, lib) == Ok(VBool(JobStatus(env) == "success"));
    assert Eval(Binary(And, SuccessCall, Boolean(false)), env, lib) == Ok(VBool(false));
  }

  /** A text that is no expression can close the parenthesis of the rewrite: this
      one fails to parse alone, yet the condition holds whatever the job status. */
  lemma EscapeHoldsAlways(s: string, env: Env, lib: Library)
    requires s == ESCAPE
    ensures Parse(s, FloatsOf(lib)).Err?
    ensures EvaluateCondition(s, env, lib) == Ok(true)
  {
    EscapeIsNoExpression(s, FloatsOf(lib));
    EscapeWrappedParses(s, FloatsOf(lib));
    EscapeIsRewritten();
    EscapeTrue(env, lib);
    assert Decide(Wrap(s), env, lib) == Ok(true);
  }

  // ---------------------------------------------------------------- status functions in the text and in the tree

  lemma PrintedCall(fn: string)
    ensures PrintText(Call(fn, [])) == fn + (" " + ("(" + (" " + ")")))
  {
    var n := Call(fn, []);
    var close := Cons(Punct(")"), []);
    assert close == [Punct(")")];
    assert PrintArgs(n.args, close) == close;
    var ts := [Ident(fn), Punct("("), Punct(")")];
    assert Raw(n, []) == Cons(Ident(fn), Cons(Punct("("), close));
    assert Cons(Punct("("), close) == [Punct("("), Punct(")")];
    assert Print(n, 0, []) == ts;
    assert ts[1..] == [Punct("("), Punct(")")] && ts[1..][1..] == [Punct(")")];
    assert Render([Punct(")")]) == ")";
    assert Render([Punct("("), Punct(")")]) == "(" + (" " + ")");
  }

  const BLANKCALL := "failure ( )"

  lemma BlankCallRewritten(s: string)
    requires s == BLANKCALL
    ensures Txt.Trim(s) == s && s != "" && Rewritten(s)
  {
    assert Txt.Lower(s) == s;
    AbsentCharacter(s, "${{", 0);
    AbsentCharacter(s, "success(", 0);
    AbsentCharacter(s, "cancelled(", 0);
    AbsentCharacter(s, "always(", 2);
    AbsentCharacter(s, "needs.", 0);
    AbsentCharacter(s, "job.", 0);
    forall i
      ensures !Txt.OccursAt(s, "failure(", i)
    {
      if Txt.OccursAt(s, "failure(", i) {
        OccurringCharacter(s, "failure(", i, 6);
        OccurringCharacter(s, "failure(", i, 7);
      }
    }
  }

  lemma BlankCallParses(s: string, floats: Floats)
    requires s == BLANKCALL
    ensures Parse(s, floats) == Ok(Call("failure", []))
  {
    PrintedCall("failure");
    assert s == "failure" + (" " + ("(" + (" " + ")")));
    assert IsIdent("failure");
    RoundTrip(Call("failure", []), floats);
  }

  /** With a blank before the parenthesis the text is rewritten although its tree
      calls a status function: failure() alone would be true of a failed job,
      the condition is false whatever the status. */
  lemma BlankCallNeverHolds(s: string, env: Env, lib: Library)
    requires s == BLANKCALL
    ensures Parse(s, FloatsOf(lib)) == Ok(Call("failure", []))
    ensures Decide(s, env, lib) == Ok(JobStatus(env) == "failure")
    ensures EvaluateCondition(s, env, lib) == Ok(false)
  {
    BlankCallParses(s, FloatsOf(lib));
    FailureDecides(s, env, lib);
    BlankCallRewritten(s);
    RewrittenMeaning(s, env, lib);
  }

  lemma FailureDecides(s: string, env: Env, lib: Library)
    requires Parse(s, FloatsOf(lib)) == Ok(Call("failure", []))
    ensures Decide(s, env, lib) == Ok(JobStatus(env) == "failure")
  {
    assert Txt.Lower("failure") == "failure";
    assert EvalArgs([], env, lib) == Ok([]);
  }
}
