/** Function calls in the tree and in the tokens: a parsed tree calls a function
    exactly where its name stands before an opening parenthesis. */
module ParserCalls {
  import opened Prelude
  import opened Lexing
  import opened Parsing
  import opened Printing
  import Txt = Text

  /** The tree calls a function of one of these lower-case names. */
  predicate Calls(n: Node, names: set<string>) {
    match n
    case Member(obj, prop) => Calls(obj, names) || Calls(prop, names)
    case Not(x) => Calls(x, names)
    case Binary(op, l, r) => Calls(l, names) || Calls(r, names)
    case Call(fn, args) => Txt.Lower(fn) in names || CallsAny(args, names)
    case _ => false
  }

  predicate CallsAny(ns: seq<Node>, names: set<string>) {
    exists i :: 0 <= i < |ns| && Calls(ns[i], names)
  }

  lemma CallsAppend(ns: seq<Node>, n: Node, names: set<string>)
    ensures CallsAny(ns + [n], names) <==> CallsAny(ns, names) || Calls(n, names)
  {
    var t := ns + [n];
    if CallsAny(ns, names) {
      var i :| 0 <= i < |ns| && Calls(ns[i], names);
      assert t[i] == ns[i];
    }
    if Calls(n, names) { assert t[|ns|] == n; }
  }

  /** A name of the set, and a parenthesis behind it. */
  predicate PairAt(ts: Tokens, names: set<string>, i: int) {
    0 <= i < |ts| - 1 && ts[i].Ident? && Txt.Lower(ts[i].text) in names && ts[i + 1] == Punct("(")
  }

  /** Such a pair begins within the first k tokens. */
  ghost predicate PairIn(ts: Tokens, names: set<string>, k: int) {
    exists i :: 0 <= i < k && PairAt(ts, names, i)
  }

  lemma PairJoin(ts: Tokens, names: set<string>, a: nat, b: nat)
    requires a <= |ts|
    ensures PairIn(ts, names, a + b) <==> PairIn(ts, names, a) || PairIn(ts[a..], names, b)
  {
    if PairIn(ts[a..], names, b) {
      var i :| 0 <= i < b && PairAt(ts[a..], names, i);
      assert PairAt(ts, names, a + i);
    }
    if PairIn(ts, names, a + b) && !PairIn(ts, names, a) {
      var i :| 0 <= i < a + b && PairAt(ts, names, i);
      assert PairAt(ts[a..], names, i - a);
    }
  }

  /** The keywords name no function of the set. */
  predicate NoKeywords(names: set<string>) {
    "null" !in names && "true" !in names && "false" !in names
  }

  /** rest is what is left of ts, and `calls` tells whether a pair began before it. */
  ghost predicate Told(ts: Tokens, rest: Tokens, names: set<string>, calls: bool) {
    |rest| <= |ts| && ts[|ts| - |rest|..] == rest && (calls <==> PairIn(ts, names, |ts| - |rest|))
  }

  lemma ToldThen(ts: Tokens, mid: Tokens, rest: Tokens, names: set<string>, a: bool, b: bool)
    requires Told(ts, mid, names, a) && Told(mid, rest, names, b)
    ensures Told(ts, rest, names, a || b)
  {
    PairJoin(ts, names, |ts| - |mid|, |mid| - |rest|);
    assert ts[|ts| - |rest|..] == mid[|mid| - |rest|..];
  }

  lemma ToldNone(ts: Tokens, names: set<string>)
    ensures Told(ts, ts, names, false)
  {}

  lemma ToldOne(ts: Tokens, names: set<string>)
    requires ts != []
    ensures Told(ts, ts[1..], names, PairAt(ts, names, 0))
  {}

  /** A token that begins no pair, then more. */
  lemma ToldStep(ts: Tokens, rest: Tokens, names: set<string>, b: bool)
    requires ts != [] && !PairAt(ts, names, 0) && Told(ts[1..], rest, names, b)
    ensures Told(ts, rest, names, b)
  {
    ToldOne(ts, names);
    ToldThen(ts, ts[1..], rest, names, false, b);
  }

  ghost predicate Tells(ts: Tokens, r: Parsed<Node>, names: set<string>) {
    r.Good? ==> Told(ts, r.rest, names, Calls(r.value, names))
  }

  /** A loop that has built `left` already. */
  ghost predicate TellsOn(left: Node, ts: Tokens, r: Parsed<Node>, names: set<string>) {
    r.Good? ==> exists more: bool :: Told(ts, r.rest, names, more) && (Calls(r.value, names) <==> Calls(left, names) || more)
  }

  lemma Continue(ts: Tokens, r: Parsed<Node>, z: Parsed<Node>, names: set<string>)
    requires r.Good? && Tells(ts, r, names) && TellsOn(r.value, r.rest, z, names)
    ensures Tells(ts, z, names)
  {
    if z.Good? {
      var more: bool :| Told(r.rest, z.rest, names, more) && (Calls(z.value, names) <==> Calls(r.value, names) || more);
      ToldThen(ts, r.rest, z.rest, names, Calls(r.value, names), more);
    }
  }

  lemma Stop(left: Node, ts: Tokens, names: set<string>)
    ensures TellsOn(left, ts, Good(left, ts), names)
  {
    ToldNone(ts, names);
  }

  /** One more operand behind an operator. */
  lemma Operand(left: Node, op: BinOp, ts: Tokens, r: Parsed<Node>, z: Parsed<Node>, names: set<string>)
    requires ts != [] && ts[0].Punct? && r.Good? && Tells(ts[1..], r, names)
    requires TellsOn(Binary(op, left, r.value), r.rest, z, names)
    ensures TellsOn(left, ts, z, names)
  {
    if z.Good? {
      var next := Binary(op, left, r.value);
      var more: bool :| Told(r.rest, z.rest, names, more) && (Calls(z.value, names) <==> Calls(next, names) || more);
      ToldStep(ts, r.rest, names, Calls(r.value, names));
      ToldThen(ts, r.rest, z.rest, names, Calls(r.value, names), more);
    }
  }

  lemma {:induction false} OrTells(ts: Tokens, names: set<string>)
    requires NoKeywords(names)
    ensures Tells(ts, ParseOr(ts), names)
    decreases |ts|, 6
  {
    AndTells(ts, names);
    var r := ParseAnd(ts);
    if r.Good? {
      OrLoopTells(r.value, r.rest, names);
      Continue(ts, r, OrLoop(r.value, r.rest), names);
    }
  }

  lemma {:induction false} OrLoopTells(left: Node, ts: Tokens, names: set<string>)
    requires NoKeywords(names)
    ensures TellsOn(left, ts, OrLoop(left, ts), names)
    decreases |ts|, 7
  {
    Stop(left, ts, names);
    if At(ts, "||") {
      AndTells(ts[1..], names);
      var r := ParseAnd(ts[1..]);
      if r.Good? {
        OrLoopTells(Binary(Or, left, r.value), r.rest, names);
        Operand(left, Or, ts, r, OrLoop(Binary(Or, left, r.value), r.rest), names);
      }
    }
  }

  lemma {:induction false} AndTells(ts: Tokens, names: set<string>)
    requires NoKeywords(names)
    ensures Tells(ts, ParseAnd(ts), names)
    decreases |ts|, 5
  {
    CompareTells(ts, names);
    var r := ParseCompare(ts);
    if r.Good? {
      AndLoopTells(r.value, r.rest, names);
      Continue(ts, r, AndLoop(r.value, r.rest), names);
    }
  }

  lemma {:induction false} AndLoopTells(left: Node, ts: Tokens, names: set<string>)
    requires NoKeywords(names)
    ensures TellsOn(left, ts, AndLoop(left, ts), names)
    decreases |ts|, 7
  {
    Stop(left, ts, names);
    if At(ts, "&&") {
      CompareTells(ts[1..], names);
      var r := ParseCompare(ts[1..]);
      if r.Good? {
        AndLoopTells(Binary(And, left, r.value), r.rest, names);
        Operand(left, And, ts, r, AndLoop(Binary(And, left, r.value), r.rest), names);
      }
    }
  }

  lemma {:induction false} CompareTells(ts: Tokens, names: set<string>)
    requires NoKeywords(names)
    ensures Tells(ts, ParseCompare(ts), names)
    decreases |ts|, 4
  {
    UnaryTells(ts, names);
    var r := ParseUnary(ts);
    if r.Good? {
      CompareLoopTells(r.value, r.rest, names);
      Continue(ts, r, CompareLoop(r.value, r.rest), names);
    }
  }

  lemma {:induction false} CompareLoopTells(left: Node, ts: Tokens, names: set<string>)
    requires NoKeywords(names)
    ensures TellsOn(left, ts, CompareLoop(left, ts), names)
    decreases |ts|, 7
  {
    Stop(left, ts, names);
    var op := CompareOp(ts);
    if op.Some? {
      UnaryTells(ts[1..], names);
      var r := ParseUnary(ts[1..]);
      if r.Good? {
        CompareLoopTells(Binary(op.value, left, r.value), r.rest, names);
        Operand(left, op.value, ts, r, CompareLoop(Binary(op.value, left, r.value), r.rest), names);
      }
    }
  }

  lemma {:induction false} UnaryTells(ts: Tokens, names: set<string>)
    requires NoKeywords(names)
    ensures Tells(ts, ParseUnary(ts), names)
    decreases |ts|, 3
  {
    if At(ts, "!") {
      UnaryTells(ts[1..], names);
      var r := ParseUnary(ts[1..]);
      if r.Good? { ToldStep(ts, r.rest, names, Calls(r.value, names)); }
    } else {
      PostfixTells(ts, names);
    }
  }

  lemma {:induction false} PostfixTells(ts: Tokens, names: set<string>)
    requires NoKeywords(names)
    ensures Tells(ts, ParsePostfix(ts), names)
    decreases |ts|, 2
  {
    PrimaryTells(ts, names);
    var r := ParsePrimary(ts);
    if r.Good? {
      PostfixLoopTells(r.value, r.rest, names);
      Continue(ts, r, PostfixLoop(r.value, r.rest), names);
    }
  }

  lemma {:induction false} PostfixLoopTells(x: Node, ts: Tokens, names: set<string>)
    requires NoKeywords(names)
    ensures TellsOn(x, ts, PostfixLoop(x, ts), names)
    decreases |ts|, 7
  {
    Stop(x, ts, names);
    if At(ts, ".") { DotTells(x, ts, names); } else if At(ts, "[") { IndexTells(x, ts, names); }
  }

  /** A member was read; its property calls what the tokens in between call. */
  lemma MemberTells(x: Node, prop: Node, ts: Tokens, mid: Tokens, z: Parsed<Node>, names: set<string>)
    requires Told(ts, mid, names, Calls(prop, names)) && TellsOn(Member(x, prop), mid, z, names)
    ensures TellsOn(x, ts, z, names)
  {
    if z.Good? {
      var more: bool :| Told(mid, z.rest, names, more) && (Calls(z.value, names) <==> Calls(Member(x, prop), names) || more);
      ToldThen(ts, mid, z.rest, names, Calls(prop, names), more);
    }
  }

  lemma {:induction false} DotTells(x: Node, ts: Tokens, names: set<string>)
    requires NoKeywords(names) && At(ts, ".")
    ensures TellsOn(x, ts, PostfixLoop(x, ts), names)
    decreases |ts|, 6
  {
    PrimaryTells(ts[1..], names);
    var r := ParsePrimary(ts[1..]);
    if r.Good? && (r.value.Name? || r.value.Num?) {
      var prop := if r.value.Name? then Text(r.value.name) else r.value;
      ToldStep(ts, r.rest, names, false);
      PostfixLoopTells(Member(x, prop), r.rest, names);
      MemberTells(x, prop, ts, r.rest, PostfixLoop(Member(x, prop), r.rest), names);
    }
  }

  lemma {:induction false} IndexTells(x: Node, ts: Tokens, names: set<string>)
    requires NoKeywords(names) && At(ts, "[")
    ensures TellsOn(x, ts, PostfixLoop(x, ts), names)
    decreases |ts|, 6
  {
    OrTells(ts[1..], names);
    var r := ParseOr(ts[1..]);
    if r.Good? && At(r.rest, "]") {
      var c := Calls(r.value, names);
      ToldStep(ts, r.rest, names, c);
      ToldOne(r.rest, names);
      ToldThen(ts, r.rest, r.rest[1..], names, c, false);
      PostfixLoopTells(Member(x, r.value), r.rest[1..], names);
      MemberTells(x, r.value, ts, r.rest[1..], PostfixLoop(Member(x, r.value), r.rest[1..]), names);
    }
  }

  lemma {:induction false} PrimaryTells(ts: Tokens, names: set<string>)
    requires NoKeywords(names)
    ensures Tells(ts, ParsePrimary(ts), names)
    decreases |ts|, 1
  {
    if ts != [] {
      ToldOne(ts, names);
      if At(ts, "(") {
        ParenTells(ts, names);
      } else if ts[0].Ident? {
        KeywordsAside(ts[0].text, names);
        if !Keyword(ts[0].text) && At(ts[1..], "(") {
          CallTells(ts[0].text, ts[1..], names);
          CallPair(ts, names);
        }
      }
    }
  }

  lemma KeywordsAside(text: string, names: set<string>)
    requires NoKeywords(names)
    ensures Keyword(text) ==> Txt.Lower(text) !in names
  {
    assert Txt.Lower("null") == "null" && Txt.Lower("true") == "true" && Txt.Lower("false") == "false";
  }

  lemma {:induction false} ParenTells(ts: Tokens, names: set<string>)
    requires NoKeywords(names) && At(ts, "(")
    ensures Tells(ts, ParsePrimary(ts), names)
    decreases |ts|, 0
  {
    OrTells(ts[1..], names);
    var r := ParseOr(ts[1..]);
    if r.Good? && At(r.rest, ")") {
      var c := Calls(r.value, names);
      ToldStep(ts, r.rest, names, c);
      ToldOne(r.rest, names);
      ToldThen(ts, r.rest, r.rest[1..], names, c, false);
    }
  }

  /** The name before the parenthesis of a call. */
  lemma CallPair(ts: Tokens, names: set<string>)
    requires |ts| >= 2 && ts[0].Ident? && At(ts[1..], "(")
    requires var r := ParseCall(ts[0].text, ts[1..][1..]);
             r.Good? ==> r.value.Call? && r.value.fn == ts[0].text && Told(ts[1..], r.rest, names, CallsAny(r.value.args, names))
    ensures Tells(ts, ParseCall(ts[0].text, ts[1..][1..]), names)
  {
    var r := ParseCall(ts[0].text, ts[1..][1..]);
    ToldOne(ts, names);
    if r.Good? { ToldThen(ts, ts[1..], r.rest, names, PairAt(ts, names, 0), CallsAny(r.value.args, names)); }
  }

  /** From the opening parenthesis of the call. */
  lemma {:induction false} CallTells(fn: string, ts: Tokens, names: set<string>)
    requires NoKeywords(names) && At(ts, "(")
    ensures var r := ParseCall(fn, ts[1..]);
            r.Good? ==> r.value.Call? && r.value.fn == fn && Told(ts, r.rest, names, CallsAny(r.value.args, names))
    decreases |ts|, 8
  {
    ToldOne(ts, names);
    if At(ts[1..], ")") {
      ToldOne(ts[1..], names);
      ToldThen(ts, ts[1..], ts[1..][1..], names, false, false);
    } else {
      ArgsTells([], ts[1..], names);
      var r := ArgsLoop([], ts[1..]);
      if r.Good? { ToldThen(ts, ts[1..], r.rest, names, false, CallsAny(r.value, names)); }
    }
  }

  lemma {:induction false} ArgsTells(args: seq<Node>, ts: Tokens, names: set<string>)
    requires NoKeywords(names)
    ensures var r := ArgsLoop(args, ts);
            r.Good? ==> exists more: bool ::
              Told(ts, r.rest, names, more) && (CallsAny(r.value, names) <==> CallsAny(args, names) || more)
    decreases |ts|, 7
  {
    OrTells(ts, names);
    var r := ParseOr(ts);
    if r.Good? && r.rest != [] {
      var c := Calls(r.value, names);
      CallsAppend(args, r.value, names);
      if At(r.rest, ",") || At(r.rest, ")") {
        ToldOne(r.rest, names);
        ToldThen(ts, r.rest, r.rest[1..], names, c, false);
      }
      if At(r.rest, ",") {
        ArgsTells(args + [r.value], r.rest[1..], names);
        var z := ArgsLoop(args + [r.value], r.rest[1..]);
        if z.Good? {
          var more: bool :| Told(r.rest[1..], z.rest, names, more)
                            && (CallsAny(z.value, names) <==> CallsAny(args + [r.value], names) || more);
          ToldThen(ts, r.rest[1..], z.rest, names, c, more);
        }
      }
    }
  }

  /** A parsed tree calls one of the functions exactly when its tokens have one of
      the names before a parenthesis. */
  lemma CallsIffPair(ts: Tokens, names: set<string>)
    requires NoKeywords(names) && ParseTokens(ts).Ok?
    ensures Calls(ParseTokens(ts).value, names) <==> exists i :: PairAt(ts, names, i)
  {
    OrTells(ts, names);
  }
}
