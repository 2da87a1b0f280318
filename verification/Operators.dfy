/** What the operators of expressions mean on values
    (internal/workflow/expression/eval.go, value.go): orders, equality, truth. */
module Operators {
  import opened Prelude
  import opened Lexing
  import opened Parsing
  import opened Evaluation
  import opened Conditions
  import Txt = Text

  // ---------------------------------------------------------------- orders

  predicate IsOrder(op: BinOp) { op.Lt? || op.Le? || op.Gt? || op.Ge? }

  predicate NumbersStand(op: BinOp, x: real, y: real)
    requires IsOrder(op)
  {
    match op
    case Lt => x < y
    case Le => x <= y
    case Gt => x > y
    case Ge => x >= y
  }

  /** The texts agree up to some place, where a ends or has the smaller character. */
  ghost predicate TextBefore(a: string, b: string) {
    exists i: nat :: Txt.PartsAt(a, b, i)
  }

  ghost predicate TextsStand(op: BinOp, a: string, b: string)
    requires IsOrder(op)
  {
    match op
    case Lt => TextBefore(a, b)
    case Le => TextBefore(a, b) || a == b
    case Gt => TextBefore(b, a)
    case Ge => TextBefore(b, a) || a == b
  }

  /** The value counts as this number: it is one, a truth value or a text that
      parses as it. */
  predicate CountsAs(v: Value, x: real, lib: Library) {
    || v == VNumber(x)
    || (v == VBool(true) && x == 1.0) || (v == VBool(false) && x == 0.0)
    || (v.VString? && lib.parseFloat(Txt.Trim(v.s)) == Some(x))
  }

  /** One side is a number and both count as one. */
  predicate NumberPair(a: Value, b: Value, x: real, y: real, lib: Library) {
    (a.VNumber? || b.VNumber?) && CountsAs(a, x, lib) && CountsAs(b, y, lib)
  }

  predicate TextPair(a: Value, b: Value) { a.VString? && b.VString? }

  ghost predicate Comparable(a: Value, b: Value, lib: Library) {
    TextPair(a, b) || exists x, y :: NumberPair(a, b, x, y, lib)
  }

  lemma CountsOnce(v: Value, lib: Library)
    ensures forall x :: CountsAs(v, x, lib) <==> ToNumber(v, lib) == Some(x)
  {}

  lemma TextOrder(a: string, b: string)
    ensures Txt.LexLess(a, b) <==> TextBefore(a, b)
    ensures !TextBefore(a, b) && a != b <==> TextBefore(b, a)
    ensures TextBefore(a, b) ==> a != b && !TextBefore(b, a)
  {
    Txt.LexLessIff(a, b);
    Txt.LexLessIff(b, a);
    Txt.LexLessTotal(a, b);
    if Txt.LexLess(a, b) { Txt.LexLessAsymmetric(a, b); }
    if Txt.LexLess(b, a) { Txt.LexLessAsymmetric(b, a); }
  }

  /** The four orders: by number where one side is a number and both count as one,
      by lower-cased text between texts, false between anything else. */
  lemma OrderMeaning(op: BinOp, a: Value, b: Value, lib: Library)
    requires IsOrder(op)
    ensures forall x, y :: NumberPair(a, b, x, y, lib) ==> Combine(op, a, b, lib) == VBool(NumbersStand(op, x, y))
    ensures TextPair(a, b) ==> Combine(op, a, b, lib) == VBool(TextsStand(op, Txt.Lower(a.s), Txt.Lower(b.s)))
    ensures !Comparable(a, b, lib) ==> Combine(op, a, b, lib) == VBool(false)
  {
    CountsOnce(a, lib);
    CountsOnce(b, lib);
    if TextPair(a, b) { TextOrder(Txt.Lower(a.s), Txt.Lower(b.s)); }
    if !Comparable(a, b, lib) && (a.VNumber? || b.VNumber?) && ToNumber(a, lib).Some? && ToNumber(b, lib).Some? {
      assert NumberPair(a, b, ToNumber(a, lib).value, ToNumber(b, lib).value, lib);
    }
  }

  /** The order of the evaluated sides is the value of the comparison. */
  lemma EvalOrder(op: BinOp, l: Node, r: Node, a: Value, b: Value, env: Env, lib: Library)
    requires IsOrder(op) && Eval(l, env, lib) == Ok(a) && Eval(r, env, lib) == Ok(b)
    ensures forall x, y :: NumberPair(a, b, x, y, lib) ==> Eval(Binary(op, l, r), env, lib) == Ok(VBool(NumbersStand(op, x, y)))
    ensures TextPair(a, b) ==> Eval(Binary(op, l, r), env, lib) == Ok(VBool(TextsStand(op, Txt.Lower(a.s), Txt.Lower(b.s))))
    ensures !Comparable(a, b, lib) ==> Eval(Binary(op, l, r), env, lib) == Ok(VBool(false))
  {
    OrderMeaning(op, a, b, lib);
  }

  ghost predicate Holds(op: BinOp, a: Value, b: Value, lib: Library) {
    Combine(op, a, b, lib) == VBool(true)
  }

  /** Between comparable values exactly one of <, == and > holds, and the other
      three operators are what they should be in terms of these. */
  lemma Trichotomy(a: Value, b: Value, lib: Library)
    requires Comparable(a, b, lib)
    ensures Holds(Lt, a, b, lib) || Holds(Eq, a, b, lib) || Holds(Gt, a, b, lib)
    ensures !(Holds(Lt, a, b, lib) && Holds(Eq, a, b, lib)) && !(Holds(Lt, a, b, lib) && Holds(Gt, a, b, lib))
    ensures !(Holds(Gt, a, b, lib) && Holds(Eq, a, b, lib))
    ensures Holds(Le, a, b, lib) <==> Holds(Lt, a, b, lib) || Holds(Eq, a, b, lib)
    ensures Holds(Ge, a, b, lib) <==> Holds(Gt, a, b, lib) || Holds(Eq, a, b, lib)
    ensures Holds(Ne, a, b, lib) <==> Holds(Lt, a, b, lib) || Holds(Gt, a, b, lib)
    ensures Holds(Lt, a, b, lib) <==> Holds(Gt, b, a, lib)
  {
    CountsOnce(a, lib);
    CountsOnce(b, lib);
    if TextPair(a, b) {
      TextOrder(Txt.Lower(a.s), Txt.Lower(b.s));
      TextOrder(Txt.Lower(b.s), Txt.Lower(a.s));
    }
  }

  // ---------------------------------------------------------------- equality

  /** Which values are equal: texts but for case, null and the empty text, numbers
      with what counts as the same number, and else what is shown alike. */
  lemma EqualMeaning(a: Value, b: Value, lib: Library)
    ensures Holds(Ne, a, b, lib) <==> !Holds(Eq, a, b, lib)
    ensures TextPair(a, b) ==> (Holds(Eq, a, b, lib) <==> EqualFold(a.s, b.s))
    ensures a.VNull? ==> (Holds(Eq, a, b, lib) <==>
              b.VNull? || b == VString("") || ((b.VBool? || b.VArray? || b.VObject?) && EqualFold("", Show(b, lib))))
    ensures a.VBool? && b.VBool? ==> (Holds(Eq, a, b, lib) <==> a == b)
    ensures a.VNumber? || b.VNumber? ==> (Holds(Eq, a, b, lib) <==> exists x :: CountsAs(a, x, lib) && CountsAs(b, x, lib))
    ensures (a.VArray? && b.VArray?) || (a.VObject? && b.VObject?) ==> (Holds(Eq, a, b, lib) <==> Show(a, lib) == Show(b, lib))
    ensures !SameKind(a, b) && !a.VNumber? && !b.VNumber? && !a.VNull? && !b.VNull? ==>
              (Holds(Eq, a, b, lib) <==> EqualFold(Show(a, lib), Show(b, lib)))
  {
    NumericEqual(a, b, lib);
  }

  lemma NumericEqual(a: Value, b: Value, lib: Library)
    ensures a.VNumber? || b.VNumber? ==> (Holds(Eq, a, b, lib) <==> exists x :: CountsAs(a, x, lib) && CountsAs(b, x, lib))
  {
    CountsOnce(a, lib);
    CountsOnce(b, lib);
    if (a.VNumber? || b.VNumber?) && Holds(Eq, a, b, lib) {
      var x := ToNumber(a, lib).value;
      assert CountsAs(a, x, lib) && CountsAs(b, x, lib);
    }
  }

  lemma EqualSymmetric(a: Value, b: Value, lib: Library)
    ensures Holds(Eq, a, b, lib) <==> Holds(Eq, b, a, lib)
    ensures Holds(Eq, a, a, lib)
  {}

  /** Equality is no equivalence: '0' equals 0 and 0 equals false, but '0' is shown
      otherwise than false. */
  lemma EqualNotTransitive(lib: Library)
    requires lib.parseFloat("0") == Some(0.0)
    ensures Holds(Eq, VString("0"), VNumber(0.0), lib) && Holds(Eq, VNumber(0.0), VBool(false), lib)
    ensures !Holds(Eq, VString("0"), VBool(false), lib)
  {
    assert Txt.Trim("0") == "0";
    assert Txt.Lower("0") == "0" && |Txt.Lower("false")| == 5;
  }

  // ---------------------------------------------------------------- truth

  /** Only null, false, zero and the empty text are not truthy. */
  lemma TruthMeaning(v: Value)
    ensures Truthy(v) <==> v != VNull && v != VBool(false) && v != VNumber(0.0) && v != VString("")
  {}

  /** && and || yield one of their operands, the right one only if it decides; then
      alone is it evaluated. */
  lemma LogicMeaning(l: Node, r: Node, a: Value, env: Env, lib: Library)
    requires Eval(l, env, lib) == Ok(a)
    ensures Truthy(a) ==> Eval(Binary(And, l, r), env, lib) == Eval(r, env, lib) && Eval(Binary(Or, l, r), env, lib) == Ok(a)
    ensures !Truthy(a) ==> Eval(Binary(And, l, r), env, lib) == Ok(a) && Eval(Binary(Or, l, r), env, lib) == Eval(r, env, lib)
    ensures Eval(Not(l), env, lib) == Ok(VBool(!Truthy(a)))
  {}

  /** De Morgan, in truth and in errors. */
  lemma DeMorgan(l: Node, r: Node, env: Env, lib: Library)
    ensures Eval(Not(Binary(And, l, r)), env, lib).Ok? <==> Eval(Binary(Or, Not(l), Not(r)), env, lib).Ok?
    ensures Eval(Not(Binary(And, l, r)), env, lib).Ok? ==>
              Truthy(Eval(Not(Binary(And, l, r)), env, lib).value) == Truthy(Eval(Binary(Or, Not(l), Not(r)), env, lib).value)
  {
    var a := Eval(l, env, lib);
    if a.Ok? {
      LogicMeaning(l, r, a.value, env, lib);
      LogicMeaning(Not(l), Not(r), VBool(!Truthy(a.value)), env, lib);
    }
  }

  // ---------------------------------------------------------------- names, members, literals

  /** A registered context answers to every spelling of its name; the others stay. */
  lemma ContextMeaning(env: Env, name: string, v: Value, other: string)
    ensures env.With(name, v).Lookup(other) == if EqualFold(name, other) then Some(v) else env.Lookup(other)
    ensures env.With(name, v).hasher == env.hasher
  {}

  /** A context is found under any spelling of its name; a missing one is an error. */
  lemma NameMeaning(name: string, env: Env, lib: Library)
    ensures match Eval(Name(name), env, lib)
            case Ok(v) => exists c :: c in env.contexts && Txt.Lower(name) == c && env.contexts[c] == v
            case Err(f) => f == ContextUnavailable(name) && Txt.Lower(name) !in env.contexts
  {}

  /** n is x without its fraction. */
  predicate WithoutFraction(x: real, n: int) {
    if x >= 0.0 then n as real <= x < (n + 1) as real else (n - 1) as real < x <= n as real
  }

  lemma TruncateMeaning(x: real)
    ensures forall n: int :: WithoutFraction(x, n) <==> n == Truncate(x)
  {
    var y := if x >= 0.0 then x else -x;
    assert y.Floor as real <= y < (y.Floor + 1) as real;
    forall n: int | WithoutFraction(x, n)
      ensures n == Truncate(x)
    {
      if x < 0.0 { assert (-n) as real <= y < (-n + 1) as real; }
    }
    assert WithoutFraction(x, Truncate(x));
  }

  /** An index picks the item at its whole part, and null outside of the list; what
      is no object or list has no members. */
  lemma IndexMeaning(obj: Value, prop: Value)
    ensures obj.VArray? && prop.VNumber? ==>
              forall i: int :: WithoutFraction(prop.n, i) ==>
                MemberOf(obj, prop) == if 0 <= i < |obj.items| then obj.items[i] else VNull
    ensures obj.VArray? && !prop.VNumber? ==> MemberOf(obj, prop) == VNull
    ensures obj.VObject? && !prop.VString? ==> MemberOf(obj, prop) == VNull
    ensures !obj.VArray? && !obj.VObject? ==> MemberOf(obj, prop) == VNull
  {
    if prop.VNumber? { TruncateMeaning(prop.n); }
  }

  // ---------------------------------------------------------------- in texts

  function Sign(op: BinOp): string {
    match op
    case Eq => "==" case Ne => "!=" case Lt => "<" case Le => "<=" case Gt => ">" case Ge => ">="
    case And => "&&" case Or => "||"
  }

  lemma ComparisonTokens(ts: Tokens, op: BinOp, x: string, y: string)
    requires IsOrder(op) && ts == [Number(x), Punct(Sign(op)), Number(y)]
    ensures ParseTokens(ts) == Ok(Binary(op, Num(x), Num(y)))
  {
    assert ts[1..] == [Punct(Sign(op)), Number(y)] && ts[1..][1..] == [Number(y)] && ts[1..][1..][1..] == [];
    OperandParsed(ts, x, ts[1..]);
    OperandParsed([Number(y)], y, []);
    assert CompareOp(ts[1..]) == Some(op);
    var n := Binary(op, Num(x), Num(y));
    assert CompareLoop(n, []) == Good(n, []);
    assert CompareLoop(Num(x), ts[1..]) == Good(n, []);
    assert ParseCompare(ts) == Good(n, []);
    assert ParseAnd(ts) == Good(n, []);
    assert ParseOr(ts) == Good(n, []);
  }

  lemma OperandParsed(ts: Tokens, x: string, rest: Tokens)
    requires ts == [Number(x)] + rest && !At(rest, ".") && !At(rest, "[")
    ensures ParseUnary(ts) == Good(Num(x), rest)
  {
    assert ts[1..] == rest;
    assert ParsePrimary(ts) == Good(Num(x), rest);
    assert PostfixLoop(Num(x), rest) == Good(Num(x), rest);
  }

  lemma InfixLexes(p: string, x: string, y: string, floats: Floats)
    requires ValidToken(Punct(p), floats) && ValidToken(Number(x), floats) && ValidToken(Number(y), floats)
    ensures Lex(x + (" " + (p + (" " + y))), floats) == Ok([Number(x)] + ([Punct(p)] + [Number(y)]))
  {
    TokenLexes(Number(y), floats);
    BlankLexes(y, floats);
    Glue(Punct(p), " " + y, floats);
    BlankLexes(p + (" " + y), floats);
    Glue(Number(x), " " + (p + (" " + y)), floats);
  }

  /** So a comparison of two numbers, as written, says how the numbers stand. */
  lemma ComparisonText(op: BinOp, x: string, y: string, a: real, b: real, env: Env, lib: Library)
    requires IsOrder(op) && IsNumber(x) && IsNumber(y) && lib.parseFloat(x) == Some(a) && lib.parseFloat(y) == Some(b)
    ensures EvalText(x + (" " + (Sign(op) + (" " + y))), env, lib) == Ok(VBool(NumbersStand(op, a, b)))
  {
    InfixLexes(Sign(op), x, y, FloatsOf(lib));
    assert [Number(x)] + ([Punct(Sign(op))] + [Number(y)]) == [Number(x), Punct(Sign(op)), Number(y)];
    ComparisonTokens([Number(x), Punct(Sign(op)), Number(y)], op, x, y);
    EvalOrder(op, Num(x), Num(y), VNumber(a), VNumber(b), env, lib);
    assert NumberPair(VNumber(a), VNumber(b), a, b, lib);
  }
}
