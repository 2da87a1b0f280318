/** Parentheses: what a parse consumes is balanced, and a parse that only a
    closing parenthesis at the end completes has consumed it. */
module ParserBalance {
  import opened Prelude
  import opened Lexing
  import opened Parsing
  import opened Printing
  import opened ParserFacts

  // ---------------------------------------------------------------- a parse completed by ')'

  const CLOSE: Tokens := [Punct(")")]

  /** What does not parse alone parses with ')' behind it only by consuming it. */
  ghost predicate Needs<T>(r: Parsed<T>, longer: Parsed<T>) {
    r.Bad? ==> longer.Bad? || longer.rest == []
  }

  lemma {:induction false} OrNeeds(ts: Tokens)
    ensures Needs(ParseOr(ts), ParseOr(ts + CLOSE))
    decreases |ts|, 6
  {
    AndNeeds(ts);
    AndExtends(ts, CLOSE);
    var r := ParseAnd(ts);
    if r.Good? { OrLoopNeeds(r.value, r.rest); }
  }

  lemma {:induction false} OrLoopNeeds(left: Node, ts: Tokens)
    ensures Needs(OrLoop(left, ts), OrLoop(left, ts + CLOSE))
    decreases |ts|, 7
  {
    AppendFront(ts, CLOSE);
    if At(ts, "||") {
      AndNeeds(ts[1..]);
      AndExtends(ts[1..], CLOSE);
      var r := ParseAnd(ts[1..]);
      if r.Good? { OrLoopNeeds(Binary(Or, left, r.value), r.rest); }
    }
  }

  lemma {:induction false} AndNeeds(ts: Tokens)
    ensures Needs(ParseAnd(ts), ParseAnd(ts + CLOSE))
    decreases |ts|, 5
  {
    CompareNeeds(ts);
    CompareExtends(ts, CLOSE);
    var r := ParseCompare(ts);
    if r.Good? { AndLoopNeeds(r.value, r.rest); }
  }

  lemma {:induction false} AndLoopNeeds(left: Node, ts: Tokens)
    ensures Needs(AndLoop(left, ts), AndLoop(left, ts + CLOSE))
    decreases |ts|, 7
  {
    AppendFront(ts, CLOSE);
    if At(ts, "&&") {
      CompareNeeds(ts[1..]);
      CompareExtends(ts[1..], CLOSE);
      var r := ParseCompare(ts[1..]);
      if r.Good? { AndLoopNeeds(Binary(And, left, r.value), r.rest); }
    }
  }

  lemma {:induction false} CompareNeeds(ts: Tokens)
    ensures Needs(ParseCompare(ts), ParseCompare(ts + CLOSE))
    decreases |ts|, 4
  {
    UnaryNeeds(ts);
    UnaryExtends(ts, CLOSE);
    var r := ParseUnary(ts);
    if r.Good? { CompareLoopNeeds(r.value, r.rest); }
  }

  lemma {:induction false} CompareLoopNeeds(left: Node, ts: Tokens)
    ensures Needs(CompareLoop(left, ts), CompareLoop(left, ts + CLOSE))
    decreases |ts|, 7
  {
    AppendFront(ts, CLOSE);
    var op := CompareOp(ts);
    if op.Some? {
      UnaryNeeds(ts[1..]);
      UnaryExtends(ts[1..], CLOSE);
      var r := ParseUnary(ts[1..]);
      if r.Good? { CompareLoopNeeds(Binary(op.value, left, r.value), r.rest); }
    }
  }

  lemma {:induction false} UnaryNeeds(ts: Tokens)
    ensures Needs(ParseUnary(ts), ParseUnary(ts + CLOSE))
    decreases |ts|, 3
  {
    AppendFront(ts, CLOSE);
    if At(ts, "!") { UnaryNeeds(ts[1..]); } else { PostfixNeeds(ts); }
  }

  lemma {:induction false} PostfixNeeds(ts: Tokens)
    ensures Needs(ParsePostfix(ts), ParsePostfix(ts + CLOSE))
    decreases |ts|, 2
  {
    PrimaryNeeds(ts);
    PrimaryExtends(ts, CLOSE);
    var r := ParsePrimary(ts);
    if r.Good? { PostfixLoopNeeds(r.value, r.rest); }
  }

  lemma {:induction false} PostfixLoopNeeds(x: Node, ts: Tokens)
    ensures Needs(PostfixLoop(x, ts), PostfixLoop(x, ts + CLOSE))
    decreases |ts|, 7
  {
    AppendFront(ts, CLOSE);
    if At(ts, ".") {
      DotNeeds(x, ts);
    } else if At(ts, "[") {
      IndexNeeds(x, ts);
    }
  }

  lemma {:induction false} DotNeeds(x: Node, ts: Tokens)
    requires At(ts, ".")
    ensures Needs(PostfixLoop(x, ts), PostfixLoop(x, ts + CLOSE))
    decreases |ts|, 6
  {
    AppendFront(ts, CLOSE);
    PrimaryNeeds(ts[1..]);
    PrimaryExtends(ts[1..], CLOSE);
    var r := ParsePrimary(ts[1..]);
    if r.Good? {
      if r.value.Name? { PostfixLoopNeeds(Member(x, Text(r.value.name)), r.rest); }
      if r.value.Num? { PostfixLoopNeeds(Member(x, r.value), r.rest); }
    }
  }

  lemma {:induction false} IndexNeeds(x: Node, ts: Tokens)
    requires At(ts, "[")
    ensures Needs(PostfixLoop(x, ts), PostfixLoop(x, ts + CLOSE))
    decreases |ts|, 6
  {
    AppendFront(ts, CLOSE);
    OrNeeds(ts[1..]);
    OrExtends(ts[1..], CLOSE);
    var r := ParseOr(ts[1..]);
    if r.Good? {
      AppendFront(r.rest, CLOSE);
      if At(r.rest, "]") { PostfixLoopNeeds(Member(x, r.value), r.rest[1..]); }
    }
  }

  lemma {:induction false} PrimaryNeeds(ts: Tokens)
    ensures Needs(ParsePrimary(ts), ParsePrimary(ts + CLOSE))
    decreases |ts|, 1
  {
    AppendFront(ts, CLOSE);
    if ts != [] {
      AppendFront(ts[1..], CLOSE);
      if At(ts, "(") {
        OrNeeds(ts[1..]);
        OrExtends(ts[1..], CLOSE);
        var r := ParseOr(ts[1..]);
        if r.Good? { AppendFront(r.rest, CLOSE); }
      } else if ts[0].Ident? && !Keyword(ts[0].text) && At(ts[1..], "(") {
        CallNeeds(ts[0].text, ts[1..][1..]);
      }
    }
  }

  lemma {:induction false} CallNeeds(fn: string, ts: Tokens)
    ensures Needs(ParseCall(fn, ts), ParseCall(fn, ts + CLOSE))
    decreases |ts|, 8
  {
    AppendFront(ts, CLOSE);
    if !At(ts, ")") { ArgsNeeds([], ts); }
  }

  lemma {:induction false} ArgsNeeds(args: seq<Node>, ts: Tokens)
    ensures Needs(ArgsLoop(args, ts), ArgsLoop(args, ts + CLOSE))
    decreases |ts|, 7
  {
    OrNeeds(ts);
    OrExtends(ts, CLOSE);
    var r := ParseOr(ts);
    if r.Good? {
      AppendFront(r.rest, CLOSE);
      if At(r.rest, ",") { ArgsNeeds(args + [r.value], r.rest[1..]); }
    }
  }

  /** A parse that stops before the final ')' is the parse without it. */
  lemma OrShrinks(ts: Tokens, n: Node)
    requires ParseOr(ts + CLOSE) == Good(n, CLOSE)
    ensures ParseOr(ts) == Good(n, [])
  {
    OrNeeds(ts);
    OrExtends(ts, CLOSE);
    var r := ParseOr(ts);
    assert (r.rest + CLOSE)[..|r.rest|] == r.rest && CLOSE[..0] == [];
  }

  // ---------------------------------------------------------------- balance

  function Delta(t: Token): int {
    if t == Punct("(") then 1 else if t == Punct(")") then -1 else 0
  }

  /** Opening minus closing parentheses. */
  function Depth(ts: Tokens): int {
    if ts == [] then 0 else Depth(ts[..|ts| - 1]) + Delta(ts[|ts| - 1])
  }

  /** No prefix closes more than it opens. */
  ghost predicate NeverCloses(ts: Tokens) {
    forall k {:trigger ts[..k]} :: 0 <= k <= |ts| ==> Depth(ts[..k]) >= 0
  }

  ghost predicate Balanced(ts: Tokens) {
    NeverCloses(ts) && Depth(ts) == 0
  }

  lemma {:induction false} DepthConcat(a: Tokens, b: Tokens)
    ensures Depth(a + b) == Depth(a) + Depth(b)
    decreases |b|
  {
    if b == [] {
      assert a + b == a;
    } else {
      var n := |b| - 1;
      DepthConcat(a, b[..n]);
      assert (a + b)[..|a + b| - 1] == a + b[..n];
    }
  }

  lemma BalancedConcat(a: Tokens, b: Tokens)
    requires Balanced(a) && Balanced(b)
    ensures Balanced(a + b)
  {
    DepthConcat(a, b);
    forall k | 0 <= k <= |a + b|
      ensures Depth((a + b)[..k]) >= 0
    {
      if k <= |a| {
        assert (a + b)[..k] == a[..k];
      } else {
        assert (a + b)[..k] == a + b[..k - |a|];
        DepthConcat(a, b[..k - |a|]);
      }
    }
  }

  lemma BalancedOne(t: Token)
    requires Delta(t) == 0
    ensures Balanced([t])
  {
    DepthOne(t);
    var ts := [t];
    forall k | 0 <= k <= |ts|
      ensures Depth(ts[..k]) >= 0
    {
      assert ts[..k] == if k == 0 then [] else ts;
    }
  }

  lemma DepthOne(t: Token)
    ensures Depth([t]) == Delta(t)
  {
    assert [t][..0] == [];
  }

  lemma BalancedParens(p: Tokens)
    requires Balanced(p)
    ensures Balanced([Punct("(")] + p + [Punct(")")])
  {
    var o, c := [Punct("(")], [Punct(")")];
    var t := o + p + c;
    DepthOne(Punct("("));
    DepthOne(Punct(")"));
    DepthConcat(o, p);
    DepthConcat(o + p, c);
    forall k | 0 <= k <= |t|
      ensures Depth(t[..k]) >= 0
    {
      if k == 0 {
        assert t[..0] == [];
      } else if k <= |p| + 1 {
        assert t[..k] == o + p[..k - 1];
        DepthConcat(o, p[..k - 1]);
      } else {
        assert t[..k] == t;
      }
    }
  }

  /** rest is what is left of ts after a balanced part. */
  ghost predicate Leaves(ts: Tokens, rest: Tokens) {
    |rest| <= |ts| && ts[|ts| - |rest|..] == rest && Balanced(ts[..|ts| - |rest|])
  }

  ghost predicate LeavesOf<T>(ts: Tokens, r: Parsed<T>) {
    r.Good? ==> Leaves(ts, r.rest)
  }

  lemma LeavesAll(ts: Tokens)
    ensures Leaves(ts, ts)
  {
    var none := ts[..0];
    assert none == [] && none[..0] == [] && ts[0..] == ts;
  }

  lemma LeavesThen(ts: Tokens, mid: Tokens, rest: Tokens)
    requires Leaves(ts, mid) && Leaves(mid, rest)
    ensures Leaves(ts, rest)
  {
    var a, b := ts[..|ts| - |mid|], mid[..|mid| - |rest|];
    BalancedConcat(a, b);
    assert ts == a + mid && mid == b + rest;
    assert ts[..|ts| - |rest|] == a + b;
  }

  lemma LeavesOne(ts: Tokens)
    requires ts != [] && Delta(ts[0]) == 0
    ensures Leaves(ts, ts[1..])
  {
    BalancedOne(ts[0]);
    assert ts[..1] == [ts[0]];
  }

  lemma LeavesParens(ts: Tokens, mid: Tokens)
    requires At(ts, "(") && Leaves(ts[1..], mid) && At(mid, ")")
    ensures Leaves(ts, mid[1..])
  {
    var p := ts[1..][..|ts| - 1 - |mid|];
    BalancedParens(p);
    assert ts == [Punct("(")] + (p + mid) && mid == [Punct(")")] + mid[1..];
    assert ts[..|ts| - |mid[1..]|] == [Punct("(")] + p + [Punct(")")];
  }

  lemma {:induction false} OrLeaves(ts: Tokens)
    ensures LeavesOf(ts, ParseOr(ts))
    decreases |ts|, 6
  {
    AndLeaves(ts);
    var r := ParseAnd(ts);
    if r.Good? {
      OrLoopLeaves(r.value, r.rest);
      LeavesOn(ts, r, OrLoop(r.value, r.rest));
    }
  }

  /** An operator or bracket, then what a parse consumed. */
  lemma LeavesStep<T>(ts: Tokens, r: Parsed<T>)
    requires ts != [] && Delta(ts[0]) == 0 && LeavesOf(ts[1..], r)
    ensures LeavesOf(ts, r)
  {
    LeavesOne(ts);
    if r.Good? { LeavesThen(ts, ts[1..], r.rest); }
  }

  lemma LeavesOn<T, U>(ts: Tokens, r: Parsed<T>, z: Parsed<U>)
    requires LeavesOf(ts, r) && r.Good? && LeavesOf(r.rest, z)
    ensures LeavesOf(ts, z)
  {
    if z.Good? { LeavesThen(ts, r.rest, z.rest); }
  }

  lemma {:induction false} OrLoopLeaves(left: Node, ts: Tokens)
    ensures LeavesOf(ts, OrLoop(left, ts))
    decreases |ts|, 7
  {
    LeavesAll(ts);
    if At(ts, "||") {
      AndLeaves(ts[1..]);
      var r := ParseAnd(ts[1..]);
      LeavesStep(ts, r);
      if r.Good? {
        OrLoopLeaves(Binary(Or, left, r.value), r.rest);
        LeavesOn(ts, r, OrLoop(Binary(Or, left, r.value), r.rest));
      }
    }
  }

  lemma {:induction false} AndLeaves(ts: Tokens)
    ensures LeavesOf(ts, ParseAnd(ts))
    decreases |ts|, 5
  {
    CompareLeaves(ts);
    var r := ParseCompare(ts);
    if r.Good? {
      AndLoopLeaves(r.value, r.rest);
      LeavesOn(ts, r, AndLoop(r.value, r.rest));
    }
  }

  lemma {:induction false} AndLoopLeaves(left: Node, ts: Tokens)
    ensures LeavesOf(ts, AndLoop(left, ts))
    decreases |ts|, 7
  {
    LeavesAll(ts);
    if At(ts, "&&") {
      CompareLeaves(ts[1..]);
      var r := ParseCompare(ts[1..]);
      LeavesStep(ts, r);
      if r.Good? {
        AndLoopLeaves(Binary(And, left, r.value), r.rest);
        LeavesOn(ts, r, AndLoop(Binary(And, left, r.value), r.rest));
      }
    }
  }

  lemma {:induction false} CompareLeaves(ts: Tokens)
    ensures LeavesOf(ts, ParseCompare(ts))
    decreases |ts|, 4
  {
    UnaryLeaves(ts);
    var r := ParseUnary(ts);
    if r.Good? {
      CompareLoopLeaves(r.value, r.rest);
      LeavesOn(ts, r, CompareLoop(r.value, r.rest));
    }
  }

  lemma {:induction false} CompareLoopLeaves(left: Node, ts: Tokens)
    ensures LeavesOf(ts, CompareLoop(left, ts))
    decreases |ts|, 7
  {
    LeavesAll(ts);
    var op := CompareOp(ts);
    if op.Some? {
      UnaryLeaves(ts[1..]);
      var r := ParseUnary(ts[1..]);
      LeavesStep(ts, r);
      if r.Good? {
        CompareLoopLeaves(Binary(op.value, left, r.value), r.rest);
        LeavesOn(ts, r, CompareLoop(Binary(op.value, left, r.value), r.rest));
      }
    }
  }

  lemma {:induction false} UnaryLeaves(ts: Tokens)
    ensures LeavesOf(ts, ParseUnary(ts))
    decreases |ts|, 3
  {
    if At(ts, "!") {
      UnaryLeaves(ts[1..]);
      LeavesStep(ts, ParseUnary(ts[1..]));
    } else {
      PostfixLeaves(ts);
    }
  }

  lemma {:induction false} PostfixLeaves(ts: Tokens)
    ensures LeavesOf(ts, ParsePostfix(ts))
    decreases |ts|, 2
  {
    PrimaryLeaves(ts);
    var r := ParsePrimary(ts);
    if r.Good? {
      PostfixLoopLeaves(r.value, r.rest);
      LeavesOn(ts, r, PostfixLoop(r.value, r.rest));
    }
  }

  lemma {:induction false} PostfixLoopLeaves(x: Node, ts: Tokens)
    ensures LeavesOf(ts, PostfixLoop(x, ts))
    decreases |ts|, 7
  {
    LeavesAll(ts);
    if At(ts, ".") { DotLeaves(x, ts); } else if At(ts, "[") { IndexLeaves(x, ts); }
  }

  lemma {:induction false} DotLeaves(x: Node, ts: Tokens)
    requires At(ts, ".")
    ensures LeavesOf(ts, PostfixLoop(x, ts))
    decreases |ts|, 6
  {
    PrimaryLeaves(ts[1..]);
    var r := ParsePrimary(ts[1..]);
    LeavesStep(ts, r);
    if r.Good? && (r.value.Name? || r.value.Num?) {
      var y := Member(x, if r.value.Name? then Text(r.value.name) else r.value);
      PostfixLoopLeaves(y, r.rest);
      LeavesOn(ts, r, PostfixLoop(y, r.rest));
    }
  }

  lemma {:induction false} IndexLeaves(x: Node, ts: Tokens)
    requires At(ts, "[")
    ensures LeavesOf(ts, PostfixLoop(x, ts))
    decreases |ts|, 6
  {
    OrLeaves(ts[1..]);
    var r := ParseOr(ts[1..]);
    LeavesStep(ts, r);
    if r.Good? && At(r.rest, "]") {
      var y := Member(x, r.value);
      PostfixLoopLeaves(y, r.rest[1..]);
      LeavesStep(r.rest, PostfixLoop(y, r.rest[1..]));
      LeavesOn(ts, r, PostfixLoop(y, r.rest[1..]));
    }
  }

  lemma {:induction false} PrimaryLeaves(ts: Tokens)
    ensures LeavesOf(ts, ParsePrimary(ts))
    decreases |ts|, 1
  {
    if ts != [] {
      if At(ts, "(") {
        OrLeaves(ts[1..]);
        var r := ParseOr(ts[1..]);
        if r.Good? && At(r.rest, ")") { LeavesParens(ts, r.rest); }
      } else if !ts[0].Punct? {
        LeavesOne(ts);
        if ts[0].Ident? && !Keyword(ts[0].text) && At(ts[1..], "(") {
          CallLeaves(ts[0].text, ts[1..]);
          LeavesStep(ts, ParseCall(ts[0].text, ts[1..][1..]));
        }
      }
    }
  }

  /** From the opening parenthesis of the call. */
  lemma {:induction false} CallLeaves(fn: string, ts: Tokens)
    requires At(ts, "(")
    ensures LeavesOf(ts, ParseCall(fn, ts[1..]))
    decreases |ts|, 8
  {
    if At(ts[1..], ")") {
      LeavesAll(ts[1..]);
      LeavesParens(ts, ts[1..]);
    } else {
      ArgsLeaves([], ts[1..]);
      var r := ArgsLoop([], ts[1..]);
      if r.Good? {
        var mid := ClosingAt(ts[1..], r.rest);
        LeavesParens(ts, mid);
      }
    }
  }

  /** What is left, with the closing parenthesis in front, after a balanced part. */
  ghost predicate LeavesClosing(ts: Tokens, rest: Tokens) {
    Leaves(ts, CLOSE + rest)
  }

  lemma ClosingAt(ts: Tokens, rest: Tokens) returns (mid: Tokens)
    requires LeavesClosing(ts, rest)
    ensures At(mid, ")") && mid[1..] == rest && Leaves(ts, mid)
  {
    mid := CLOSE + rest;
  }

  lemma {:induction false} ArgsLeaves(args: seq<Node>, ts: Tokens)
    ensures var r := ArgsLoop(args, ts); r.Good? ==> LeavesClosing(ts, r.rest)
    decreases |ts|, 7
  {
    OrLeaves(ts);
    var r := ParseOr(ts);
    if r.Good? {
      if At(r.rest, ",") {
        ArgsLeaves(args + [r.value], r.rest[1..]);
        var z := ArgsLoop(args + [r.value], r.rest[1..]);
        if z.Good? {
          LeavesOne(r.rest);
          LeavesThen(ts, r.rest, r.rest[1..]);
          LeavesThen(ts, r.rest[1..], CLOSE + z.rest);
        }
      } else if At(r.rest, ")") {
        assert CLOSE + r.rest[1..] == r.rest;
      }
    }
  }
}
