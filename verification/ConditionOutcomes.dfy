/** What a condition can answer when objects are searched in any order, and when
    there is one answer only. */
module ConditionOutcomes {
  import opened Prelude
  import opened Lexing
  import opened Parsing
  import opened ParserFacts
  import opened ParserBalance
  import opened ParserCalls
  import opened Evaluation
  import opened Conditions
  import opened Lookups
  import Txt = Text

  // ---------------------------------------------------------------- all answers

  type Answer = Result<bool, ConditionFault>

  function Decision(o: Outcome): Answer {
    match o
    case Err(f) => Err(EvalProblem(f))
    case Ok(v) => Ok(Truthy(v))
  }

  ghost predicate CanEvalText(s: string, env: Env, lib: Library, o: Outcome) {
    match Parse(s, FloatsOf(lib))
    case Err(e) => o == Err(SyntaxFault(e))
    case Ok(n) => Evals(n, env, lib, o)
  }

  ghost predicate CanDecide(cond: string, env: Env, lib: Library, res: Answer) {
    exists o :: CanEvalText(cond, env, lib, o) && res == Decision(o)
  }

  ghost predicate CanInterpolate(tpl: string, env: Env, lib: Library, res: Result<string, ConditionFault>)
    decreases |tpl|
  {
    if tpl == [] then res == Ok("")
    else if !Opens(tpl) then
      exists r :: CanInterpolate(tpl[1..], env, lib, r) && res == Before([tpl[0]], r)
    else
      var inside := ClosingBraces(tpl[3..]);
      if inside == |tpl| - 3 then res == Err(UnterminatedTemplate)
      else
        exists o :: CanEvalText(Txt.Trim(tpl[3..3 + inside]), env, lib, o) && PlaceEnds(tpl, inside, env, lib, o, res)
  }

  ghost predicate PlaceEnds(tpl: string, inside: nat, env: Env, lib: Library, o: Outcome, res: Result<string, ConditionFault>)
    requires 3 + inside + 2 <= |tpl|
    decreases |tpl|, 0
  {
    match o
    case Err(f) => res == Err(EvalProblem(f))
    case Ok(v) => exists r :: CanInterpolate(tpl[3 + inside + 2..], env, lib, r) && res == Before(Show(v, lib), r)
  }

  function Before(s: string, r: Result<string, ConditionFault>): Result<string, ConditionFault> {
    match r
    case Err(f) => Err(f)
    case Ok(t) => Ok(s + t)
  }

  ghost predicate RenderedEnds(r: Result<string, ConditionFault>, env: Env, lib: Library, res: Answer) {
    match r
    case Err(f) => res == Err(f)
    case Ok(t) => if Txt.Trim(t) == "" then res == Ok(true) else CanDecide(Txt.Trim(t), env, lib, res)
  }

  /** Evaluating the condition can end in this answer. */
  ghost predicate CanAnswer(raw: string, env: Env, lib: Library, res: Answer) {
    var cond := Txt.Trim(raw);
    if cond == "" then res == Ok(true)
    else if Txt.Contains(cond, "${{") then exists r :: CanInterpolate(cond, env, lib, r) && RenderedEnds(r, env, lib, res)
    else CanDecide(if Rewritten(cond) then Wrap(cond) else cond, env, lib, res)
  }

  lemma TextIsPossible(s: string, env: Env, lib: Library)
    ensures CanEvalText(s, env, lib, EvalText(s, env, lib))
  {
    if Parse(s, FloatsOf(lib)).Ok? { EvalIsPossible(Parse(s, FloatsOf(lib)).value, env, lib); }
  }

  lemma DecisionIsPossible(s: string, env: Env, lib: Library)
    ensures CanDecide(s, env, lib, Decide(s, env, lib))
  {
    TextIsPossible(s, env, lib);
    assert Decide(s, env, lib) == Decision(EvalText(s, env, lib));
  }

  lemma {:induction false} InterpolationIsPossible(tpl: string, env: Env, lib: Library)
    ensures CanInterpolate(tpl, env, lib, Interpolate(tpl, env, lib))
    decreases |tpl|
  {
    if tpl != [] {
      if !Opens(tpl) {
        InterpolationIsPossible(tpl[1..], env, lib);
        assert Interpolate(tpl, env, lib) == Before([tpl[0]], Interpolate(tpl[1..], env, lib));
      } else {
        var inside := ClosingBraces(tpl[3..]);
        if inside != |tpl| - 3 {
          var text := Txt.Trim(tpl[3..3 + inside]);
          TextIsPossible(text, env, lib);
          InterpolationIsPossible(tpl[3 + inside + 2..], env, lib);
          var o, rest := EvalText(text, env, lib), Interpolate(tpl[3 + inside + 2..], env, lib);
          if o.Ok? { assert Interpolate(tpl, env, lib) == Before(Show(o.value, lib), rest); }
          assert PlaceEnds(tpl, inside, env, lib, o, Interpolate(tpl, env, lib));
        }
      }
    }
  }

  /** The answer with the evaluator's fixed choice is one of them. */
  lemma AnswerIsPossible(raw: string, env: Env, lib: Library)
    ensures CanAnswer(raw, env, lib, EvaluateCondition(raw, env, lib))
  {
    var cond := Txt.Trim(raw);
    if cond != "" {
      if Txt.Contains(cond, "${{") {
        InterpolationIsPossible(cond, env, lib);
        var r := Interpolate(cond, env, lib);
        if r.Ok? && Txt.Trim(r.value) != "" { DecisionIsPossible(Txt.Trim(r.value), env, lib); }
        assert RenderedEnds(r, env, lib, EvaluateCondition(raw, env, lib));
      } else {
        DecisionIsPossible(if Rewritten(cond) then Wrap(cond) else cond, env, lib);
      }
    }
  }

  // ---------------------------------------------------------------- texts without fromJSON

  /** No identifier of the text is fromJSON, in any spelling. */
  ghost predicate JsonFree(s: string, floats: Floats) {
    Lex(s, floats).Ok? ==> IdentsFree(Lex(s, floats).value)
  }

  ghost predicate IdentsFree(ts: Tokens) {
    forall i :: 0 <= i < |ts| && ts[i].Ident? ==> Txt.Lower(ts[i].text) !in JsonFunctions
  }

  lemma FreeTree(s: string, n: Node, floats: Floats)
    requires JsonFree(s, floats) && Parse(s, floats) == Ok(n)
    ensures !Calls(n, JsonFunctions)
  {
    CallsIffPair(Lex(s, floats).value, JsonFunctions);
  }

  lemma WrapFree(cond: string, floats: Floats)
    requires JsonFree(cond, floats)
    ensures JsonFree(Wrap(cond), floats)
  {
    if Lex(cond, floats).Err? {
      WrapLexFails(cond, floats);
    } else {
      WrapLexes(cond, floats);
      SuccessIsOther("success");
    }
  }

  lemma SuccessIsOther(s: string)
    requires s == "success"
    ensures Txt.Lower(s) !in JsonFunctions
  {
    assert |Txt.Lower(s)| == 7;
    var f := "fromjson";
    assert |f| == 8;
  }

  /** A text in which fromJSON does not occur has no such identifier. */
  lemma {:induction false} AbsentFree(s: string, f: string, floats: Floats)
    requires JsonFunctions == {f} && !Txt.Contains(Txt.Lower(s), f)
    ensures JsonFree(s, floats)
    decreases |s|
  {
    var t := Unblank(s);
    if t != [] && Front(t, floats).Ok? {
      var (tok, k) := Front(t, floats).value;
      TailAbsent(s, t, k, f);
      AbsentFree(t[k..], f, floats);
      if tok.Ident? { HeadAbsent(s, t, k, f); }
    }
  }

  lemma {:induction false} UnblankTail(s: string)
    ensures |Unblank(s)| <= |s| && Unblank(s) == s[|s| - |Unblank(s)|..]
  {
    if s != [] && IsBlank(s[0]) { UnblankTail(s[1..]); }
  }

  lemma PartAbsent(s: string, f: string, a: nat, b: nat)
    requires a <= b <= |s| && !Txt.Contains(Txt.Lower(s), f)
    ensures !Txt.Contains(Txt.Lower(s[a..b]), f)
  {
    assert Txt.Lower(s[a..b]) == Txt.Lower(s)[a..b];
    if Txt.Contains(Txt.Lower(s)[a..b], f) { Txt.ContainsInside(Txt.Lower(s), f, a, b); }
  }

  lemma TailAbsent(s: string, t: string, k: nat, f: string)
    requires t == Unblank(s) && k <= |t| && !Txt.Contains(Txt.Lower(s), f)
    ensures !Txt.Contains(Txt.Lower(t[k..]), f)
  {
    UnblankTail(s);
    var a := |s| - |t| + k;
    assert t[k..] == s[a..|s|];
    PartAbsent(s, f, a, |s|);
  }

  lemma HeadAbsent(s: string, t: string, k: nat, f: string)
    requires t == Unblank(s) && k <= |t| && !Txt.Contains(Txt.Lower(s), f)
    ensures Txt.Lower(t[..k]) != f
  {
    UnblankTail(s);
    var a := |s| - |t|;
    assert t[..k] == s[a..a + k];
    PartAbsent(s, f, a, a + k);
    WholeOccurs(Txt.Lower(t[..k]));
  }

  lemma WholeOccurs(s: string)
    ensures Txt.Contains(s, s)
  {
    assert s[0..0 + |s|] == s;
    assert Txt.OccursAt(s, s, 0);
  }

  // ---------------------------------------------------------------- one answer

  /** JSON read by expressions is steady, or the condition is no template and reads none. */
  ghost predicate ReadsSteadyJson(raw: string, lib: Library) {
    || SteadyJson(lib)
    || (!Txt.Contains(Txt.Trim(raw), "${{") && JsonFree(Txt.Trim(raw), FloatsOf(lib)))
  }

  lemma TextOnce(s: string, env: Env, lib: Library, o: Outcome)
    requires SteadyEnv(env) && (SteadyJson(lib) || JsonFree(s, FloatsOf(lib))) && CanEvalText(s, env, lib, o)
    ensures o == EvalText(s, env, lib)
  {
    var p := Parse(s, FloatsOf(lib));
    if p.Ok? {
      Reprint(s, FloatsOf(lib));
      if !SteadyJson(lib) { FreeTree(s, p.value, FloatsOf(lib)); }
      OneOutcome(p.value, env, lib, o);
    }
  }

  lemma DecidesOnce(s: string, env: Env, lib: Library, res: Answer)
    requires SteadyEnv(env) && (SteadyJson(lib) || JsonFree(s, FloatsOf(lib))) && CanDecide(s, env, lib, res)
    ensures res == Decide(s, env, lib)
  {
    var o :| CanEvalText(s, env, lib, o) && res == Decision(o);
    TextOnce(s, env, lib, o);
  }

  lemma {:induction false} InterpolatesOnce(tpl: string, env: Env, lib: Library, res: Result<string, ConditionFault>)
    requires SteadyEnv(env) && SteadyJson(lib) && CanInterpolate(tpl, env, lib, res)
    ensures res == Interpolate(tpl, env, lib)
    decreases |tpl|
  {
    if tpl != [] {
      if !Opens(tpl) {
        var r :| CanInterpolate(tpl[1..], env, lib, r) && res == Before([tpl[0]], r);
        InterpolatesOnce(tpl[1..], env, lib, r);
      } else {
        var inside := ClosingBraces(tpl[3..]);
        if inside != |tpl| - 3 { PlacedOnce(tpl, inside, env, lib, res); }
      }
    }
  }

  lemma {:induction false} PlacedOnce(tpl: string, inside: nat, env: Env, lib: Library, res: Result<string, ConditionFault>)
    requires SteadyEnv(env) && SteadyJson(lib) && Opens(tpl) && inside == ClosingBraces(tpl[3..]) && inside != |tpl| - 3
    requires CanInterpolate(tpl, env, lib, res)
    ensures res == Interpolate(tpl, env, lib)
    decreases |tpl|, 0
  {
    var text := Txt.Trim(tpl[3..3 + inside]);
    var o :| CanEvalText(text, env, lib, o) && PlaceEnds(tpl, inside, env, lib, o, res);
    TextOnce(text, env, lib, o);
    if o.Ok? {
      var r :| CanInterpolate(tpl[3 + inside + 2..], env, lib, r) && res == Before(Show(o.value, lib), r);
      InterpolatesOnce(tpl[3 + inside + 2..], env, lib, r);
    }
  }

  lemma RenderedOnce(r: Result<string, ConditionFault>, env: Env, lib: Library, res: Answer)
    requires SteadyEnv(env) && SteadyJson(lib) && RenderedEnds(r, env, lib, res)
    ensures res == match r
                   case Err(f) => Err(f)
                   case Ok(t) => if Txt.Trim(t) == "" then Ok(true) else Decide(Txt.Trim(t), env, lib)
  {
    if r.Ok? && Txt.Trim(r.value) != "" { DecidesOnce(Txt.Trim(r.value), env, lib, res); }
  }

  /** Over steady contexts a condition has one answer. */
  lemma AnswersOnce(raw: string, env: Env, lib: Library, res: Answer)
    requires SteadyEnv(env) && ReadsSteadyJson(raw, lib) && CanAnswer(raw, env, lib, res)
    ensures res == EvaluateCondition(raw, env, lib)
  {
    var cond := Txt.Trim(raw);
    if cond != "" {
      if Txt.Contains(cond, "${{") {
        var r :| CanInterpolate(cond, env, lib, r) && RenderedEnds(r, env, lib, res);
        InterpolatesOnce(cond, env, lib, r);
        RenderedOnce(r, env, lib, res);
      } else {
        if !SteadyJson(lib) { WrapFree(cond, FloatsOf(lib)); }
        DecidesOnce(if Rewritten(cond) then Wrap(cond) else cond, env, lib, res);
      }
    }
  }
}
