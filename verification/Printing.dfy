/** Printing a syntax tree with only the parentheses precedence asks for, and the
    proof that parsing undoes it. */
module Printing {
  import opened Prelude
  import opened Lexing
  import opened Parsing

  /** Binding strength: || 0, && 1, comparisons 2, ! 3, member access 4, the rest 5. */
  function Level(n: Node): nat {
    match n
    case Binary(Or, _, _) => 0
    case Binary(And, _, _) => 1
    case Binary(_, _, _) => 2
    case Not(_) => 3
    case Member(_, _) => 4
    case _ => 5
  }

  function OpText(op: BinOp): string {
    match op
    case Or => "||" case And => "&&"
    case Eq => "==" case Ne => "!=" case Lt => "<" case Le => "<=" case Gt => ">" case Ge => ">="
  }

  function Cons(t: Token, ts: Tokens): (r: Tokens)
    ensures r != [] && r[0] == t && r[1..] == ts
  {
    [t] + ts
  }

  /** The tokens of n, where an operand of strength k is expected, before `rest`. */
  function Print(n: Node, k: nat, rest: Tokens): Tokens
    decreases n, 1
  {
    if Level(n) >= k then Raw(n, rest) else Cons(Punct("("), Raw(n, Cons(Punct(")"), rest)))
  }

  function Raw(n: Node, rest: Tokens): Tokens
    decreases n, 0
  {
    match n
    case Null => Cons(Ident("null"), rest)
    case Boolean(b) => Cons(Ident(if b then "true" else "false"), rest)
    case Num(lexeme) => Cons(Number(lexeme), rest)
    case Text(s) => Cons(Str(s), rest)
    case Name(name) => Cons(Ident(name), rest)
    case Member(obj, prop) => Print(obj, 4, Cons(Punct("["), Print(prop, 0, Cons(Punct("]"), rest))))
    case Not(x) => Cons(Punct("!"), Print(x, 3, rest))
    case Binary(op, l, r) => Print(l, Level(n), Cons(Punct(OpText(op)), Print(r, Level(n) + 1, rest)))
    case Call(fn, args) => Cons(Ident(fn), Cons(Punct("("), PrintArgs(args, Cons(Punct(")"), rest))))
  }

  function PrintArgs(args: seq<Node>, rest: Tokens): Tokens
    decreases args, 0
  {
    if args == [] then rest
    else if |args| == 1 then Print(args[0], 0, rest)
    else Print(args[0], 0, Cons(Punct(","), PrintArgs(args[1..], rest)))
  }

  predicate Keyword(s: string) {
    s == "null" || s == "true" || s == "false"
  }

  /** The trees the parser builds: names are identifiers that are not keywords,
      numbers are lexemes of the lexer. */
  ghost predicate WellFormed(n: Node, floats: Floats) {
    match n
    case Num(lexeme) => IsNumber(lexeme) && floats(lexeme)
    case Name(name) => IsIdent(name) && !Keyword(name)
    case Member(obj, prop) => WellFormed(obj, floats) && WellFormed(prop, floats)
    case Not(x) => WellFormed(x, floats)
    case Binary(op, l, r) => WellFormed(l, floats) && WellFormed(r, floats)
    case Call(fn, args) => IsIdent(fn) && !Keyword(fn) && forall i :: 0 <= i < |args| ==> WellFormed(args[i], floats)
    case _ => true
  }

  // ---------------------------------------------------------------- first tokens

  /** Starts an operand. */
  predicate Starter(t: Token) {
    !t.Punct? || t.text == "(" || t.text == "!"
  }

  lemma {:induction false} PrintStarts(n: Node, k: nat, rest: Tokens)
    ensures Print(n, k, rest) != [] && Starter(Print(n, k, rest)[0])
    ensures k == 4 ==> Print(n, k, rest)[0] != Punct("!")
    decreases n, k, 1
  {
    if Level(n) >= k {
      match n
      case Member(obj, prop) => PrintStarts(obj, 4, Cons(Punct("["), Print(prop, 0, Cons(Punct("]"), rest))));
      case Binary(op, l, r) => PrintStarts(l, Level(n), Cons(Punct(OpText(op)), Print(r, Level(n) + 1, rest)));
      case _ =>
    }
  }

  // ---------------------------------------------------------------- what may follow

  predicate AfterPrimary(ts: Tokens) { !At(ts, "(") }
  predicate AfterPostfix(ts: Tokens) { AfterPrimary(ts) && !At(ts, ".") && !At(ts, "[") }
  predicate AfterCompare(ts: Tokens) { AfterPostfix(ts) && CompareOp(ts).None? }
  predicate AfterAnd(ts: Tokens) { AfterCompare(ts) && !At(ts, "&&") }

  /** Position of a proof step: printing below the asked strength goes through parentheses first. */
  function Rank(n: Node, k: nat): nat
    requires k <= 5
  {
    if Level(n) < k then 20 - k else 10 - k
  }

  lemma {:induction false} ReadOr(n: Node, rest: Tokens, floats: Floats)
    requires WellFormed(n, floats) && AfterAnd(rest)
    ensures ParseOr(Print(n, 0, rest)) == OrLoop(n, rest)
    decreases n, Rank(n, 0)
  {
    if Level(n) == 0 {
      ReadOr(n.l, Cons(Punct("||"), Print(n.r, 1, rest)), floats);
      ReadAnd(n.r, rest, floats);
    } else {
      ReadAnd(n, rest, floats);
    }
  }

  lemma {:induction false} ReadAnd(n: Node, rest: Tokens, floats: Floats)
    requires WellFormed(n, floats) && AfterCompare(rest)
    ensures ParseAnd(Print(n, 1, rest)) == AndLoop(n, rest)
    decreases n, Rank(n, 1)
  {
    if Level(n) == 1 {
      ReadAnd(n.l, Cons(Punct("&&"), Print(n.r, 2, rest)), floats);
      ReadCompare(n.r, rest, floats);
    } else {
      ReadCompare(n, rest, floats);
    }
  }

  lemma {:induction false} ReadCompare(n: Node, rest: Tokens, floats: Floats)
    requires WellFormed(n, floats) && AfterPostfix(rest)
    ensures ParseCompare(Print(n, 2, rest)) == CompareLoop(n, rest)
    decreases n, Rank(n, 2)
  {
    if Level(n) == 2 {
      var tail := Cons(Punct(OpText(n.op)), Print(n.r, 3, rest));
      assert CompareOp(tail) == Some(n.op);
      ReadCompare(n.l, tail, floats);
      ReadUnary(n.r, rest, floats);
    } else {
      ReadUnary(n, rest, floats);
    }
  }

  lemma {:induction false} ReadUnary(n: Node, rest: Tokens, floats: Floats)
    requires WellFormed(n, floats) && AfterPostfix(rest)
    ensures ParseUnary(Print(n, 3, rest)) == Good(n, rest)
    decreases n, Rank(n, 3)
  {
    if n.Not? {
      ReadUnary(n.x, rest, floats);
    } else {
      PrintStarts(n, 4, rest);
      ReadPostfix(n, rest, floats);
    }
  }

  lemma {:induction false} ReadPostfix(n: Node, rest: Tokens, floats: Floats)
    requires WellFormed(n, floats) && AfterPrimary(rest)
    ensures ParsePostfix(Print(n, 4, rest)) == PostfixLoop(n, rest)
    decreases n, Rank(n, 4)
  {
    if n.Member? {
      var close := Cons(Punct("]"), rest);
      ReadPostfix(n.obj, Cons(Punct("["), Print(n.prop, 0, close)), floats);
      ReadOr(n.prop, close, floats);
    } else {
      ReadPrimary(n, rest, floats);
    }
  }

  lemma {:induction false} ReadPrimary(n: Node, rest: Tokens, floats: Floats)
    requires WellFormed(n, floats) && AfterPrimary(rest)
    ensures ParsePrimary(Print(n, 5, rest)) == Good(n, rest)
    decreases n, Rank(n, 5)
  {
    if Level(n) < 5 {
      ReadOr(n, Cons(Punct(")"), rest), floats);
    } else if n.Call? {
      ReadCall(n.fn, n.args, rest, floats);
    }
  }

  lemma {:induction false} ReadCall(fn: string, args: seq<Node>, rest: Tokens, floats: Floats)
    requires forall i :: 0 <= i < |args| ==> WellFormed(args[i], floats)
    ensures ParseCall(fn, PrintArgs(args, Cons(Punct(")"), rest))) == Good(Call(fn, args), rest)
    decreases args, 1
  {
    if args != [] {
      PrintStarts(args[0], 0, Cons(Punct(")"), rest));
      PrintStarts(args[0], 0, Cons(Punct(","), PrintArgs(args[1..], Cons(Punct(")"), rest))));
      ReadArgs([], args, rest, floats);
      assert [] + args == args;
    }
  }

  lemma {:induction false} ReadArgs(done: seq<Node>, args: seq<Node>, rest: Tokens, floats: Floats)
    requires args != [] && forall i :: 0 <= i < |args| ==> WellFormed(args[i], floats)
    ensures ArgsLoop(done, PrintArgs(args, Cons(Punct(")"), rest))) == Good(done + args, rest)
    decreases args, 0
  {
    var close := Cons(Punct(")"), rest);
    var a, more := args[0], args[1..];
    assert done + args == done + [a] + more;
    if more == [] {
      assert done + [a] + more == done + [a];
      ReadOr(a, close, floats);
    } else {
      ReadOr(a, Cons(Punct(","), PrintArgs(more, close)), floats);
      ReadArgs(done + [a], more, rest, floats);
    }
  }

  // ---------------------------------------------------------------- printed tokens are lexer tokens

  lemma ConsValid(t: Token, ts: Tokens, floats: Floats)
    requires ValidToken(t, floats) && ValidTokens(ts, floats)
    ensures ValidTokens(Cons(t, ts), floats)
  {
    var r := Cons(t, ts);
    assert forall i :: 0 < i < |r| ==> r[i] == r[1..][i - 1];
  }

  lemma {:induction false} PrintValid(n: Node, k: nat, rest: Tokens, floats: Floats)
    requires WellFormed(n, floats) && ValidTokens(rest, floats)
    ensures ValidTokens(Print(n, k, rest), floats)
    decreases n, 1
  {
    var close := Cons(Punct(")"), rest);
    ConsValid(Punct(")"), rest, floats);
    RawValid(n, rest, floats);
    RawValid(n, close, floats);
    ConsValid(Punct("("), Raw(n, close), floats);
  }

  lemma {:induction false} RawValid(n: Node, rest: Tokens, floats: Floats)
    requires WellFormed(n, floats) && ValidTokens(rest, floats)
    ensures ValidTokens(Raw(n, rest), floats)
    decreases n, 0
  {
    match n
    case Member(obj, prop) =>
      var close := Cons(Punct("]"), rest);
      ConsValid(Punct("]"), rest, floats);
      PrintValid(prop, 0, close, floats);
      ConsValid(Punct("["), Print(prop, 0, close), floats);
      PrintValid(obj, 4, Cons(Punct("["), Print(prop, 0, close)), floats);
    case Not(x) =>
      PrintValid(x, 3, rest, floats);
      ConsValid(Punct("!"), Print(x, 3, rest), floats);
    case Binary(op, l, r) =>
      var tail := Cons(Punct(OpText(op)), Print(r, Level(n) + 1, rest));
      PrintValid(r, Level(n) + 1, rest, floats);
      OpValid(op);
      ConsValid(Punct(OpText(op)), Print(r, Level(n) + 1, rest), floats);
      PrintValid(l, Level(n), tail, floats);
    case Call(fn, args) =>
      var close := Cons(Punct(")"), rest);
      ConsValid(Punct(")"), rest, floats);
      ArgsValid(args, close, floats);
      ConsValid(Punct("("), PrintArgs(args, close), floats);
      ConsValid(Ident(fn), Cons(Punct("("), PrintArgs(args, close)), floats);
    case _ =>
      AtomValid(n, rest, floats);
  }

  lemma OpValid(op: BinOp)
    ensures IsPunct(OpText(op))
  {}

  lemma KeywordsAreIdents()
    ensures IsIdent("null") && IsIdent("true") && IsIdent("false")
  {}

  lemma AtomValid(n: Node, rest: Tokens, floats: Floats)
    requires WellFormed(n, floats) && ValidTokens(rest, floats) && Level(n) == 5 && !n.Call?
    ensures ValidTokens(Raw(n, rest), floats)
  {
    KeywordsAreIdents();
    ConsValid(Raw(n, rest)[0], rest, floats);
  }

  lemma {:induction false} ArgsValid(args: seq<Node>, rest: Tokens, floats: Floats)
    requires (forall i :: 0 <= i < |args| ==> WellFormed(args[i], floats)) && ValidTokens(rest, floats)
    ensures ValidTokens(PrintArgs(args, rest), floats)
    decreases args, 0
  {
    if |args| == 1 {
      PrintValid(args[0], 0, rest, floats);
    } else if |args| > 1 {
      ArgsValid(args[1..], rest, floats);
      ConsValid(Punct(","), PrintArgs(args[1..], rest), floats);
      PrintValid(args[0], 0, Cons(Punct(","), PrintArgs(args[1..], rest)), floats);
    }
  }

  /** The source text of a tree. */
  function PrintText(n: Node): string {
    Render(Print(n, 0, []))
  }

  /** Parsing undoes printing, for every tree the parser can build. */
  lemma RoundTrip(n: Node, floats: Floats)
    requires WellFormed(n, floats)
    ensures Parse(PrintText(n), floats) == Ok(n)
  {
    PrintValid(n, 0, [], floats);
    RenderLexes(Print(n, 0, []), floats);
    ReadOr(n, [], floats);
  }
}
