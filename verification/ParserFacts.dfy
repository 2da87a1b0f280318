/** Facts about the grammar that hold of every token list: the parser builds only
    printable trees, and a closing parenthesis may stand for the end of input. */
module ParserFacts {
  import opened Prelude
  import opened Lexing
  import opened Parsing
  import opened Printing

  // ---------------------------------------------------------------- parsed trees are well formed

  /** A successful parse gives a well-formed tree and leaves lexer tokens. */
  ghost predicate Sound(r: Parsed<Node>, floats: Floats) {
    r.Good? ==> WellFormed(r.value, floats) && ValidTokens(r.rest, floats)
  }

  lemma {:induction false} OrSound(ts: Tokens, floats: Floats)
    requires ValidTokens(ts, floats)
    ensures Sound(ParseOr(ts), floats)
    decreases |ts|, 6
  {
    AndSound(ts, floats);
    var r := ParseAnd(ts);
    if r.Good? { OrLoopSound(r.value, r.rest, floats); }
  }

  lemma {:induction false} OrLoopSound(left: Node, ts: Tokens, floats: Floats)
    requires ValidTokens(ts, floats) && WellFormed(left, floats)
    ensures Sound(OrLoop(left, ts), floats)
    decreases |ts|, 7
  {
    if At(ts, "||") {
      AndSound(ts[1..], floats);
      var r := ParseAnd(ts[1..]);
      if r.Good? { OrLoopSound(Binary(Or, left, r.value), r.rest, floats); }
    }
  }

  lemma {:induction false} AndSound(ts: Tokens, floats: Floats)
    requires ValidTokens(ts, floats)
    ensures Sound(ParseAnd(ts), floats)
    decreases |ts|, 5
  {
    CompareSound(ts, floats);
    var r := ParseCompare(ts);
    if r.Good? { AndLoopSound(r.value, r.rest, floats); }
  }

  lemma {:induction false} AndLoopSound(left: Node, ts: Tokens, floats: Floats)
    requires ValidTokens(ts, floats) && WellFormed(left, floats)
    ensures Sound(AndLoop(left, ts), floats)
    decreases |ts|, 7
  {
    if At(ts, "&&") {
      CompareSound(ts[1..], floats);
      var r := ParseCompare(ts[1..]);
      if r.Good? { AndLoopSound(Binary(And, left, r.value), r.rest, floats); }
    }
  }

  lemma {:induction false} CompareSound(ts: Tokens, floats: Floats)
    requires ValidTokens(ts, floats)
    ensures Sound(ParseCompare(ts), floats)
    decreases |ts|, 4
  {
    UnarySound(ts, floats);
    var r := ParseUnary(ts);
    if r.Good? { CompareLoopSound(r.value, r.rest, floats); }
  }

  lemma {:induction false} CompareLoopSound(left: Node, ts: Tokens, floats: Floats)
    requires ValidTokens(ts, floats) && WellFormed(left, floats)
    ensures Sound(CompareLoop(left, ts), floats)
    decreases |ts|, 7
  {
    var op := CompareOp(ts);
    if op.Some? {
      UnarySound(ts[1..], floats);
      var r := ParseUnary(ts[1..]);
      if r.Good? { CompareLoopSound(Binary(op.value, left, r.value), r.rest, floats); }
    }
  }

  lemma {:induction false} UnarySound(ts: Tokens, floats: Floats)
    requires ValidTokens(ts, floats)
    ensures Sound(ParseUnary(ts), floats)
    decreases |ts|, 3
  {
    if At(ts, "!") { UnarySound(ts[1..], floats); } else { PostfixSound(ts, floats); }
  }

  lemma {:induction false} PostfixSound(ts: Tokens, floats: Floats)
    requires ValidTokens(ts, floats)
    ensures Sound(ParsePostfix(ts), floats)
    decreases |ts|, 2
  {
    PrimarySound(ts, floats);
    var r := ParsePrimary(ts);
    if r.Good? { PostfixLoopSound(r.value, r.rest, floats); }
  }

  lemma {:induction false} PostfixLoopSound(x: Node, ts: Tokens, floats: Floats)
    requires ValidTokens(ts, floats) && WellFormed(x, floats)
    ensures Sound(PostfixLoop(x, ts), floats)
    decreases |ts|, 7
  {
    if At(ts, ".") {
      PrimarySound(ts[1..], floats);
      var r := ParsePrimary(ts[1..]);
      if r.Good? {
        match r.value
        case Name(name) => PostfixLoopSound(Member(x, Text(name)), r.rest, floats);
        case Num(_) => PostfixLoopSound(Member(x, r.value), r.rest, floats);
        case _ =>
      }
    } else if At(ts, "[") {
      OrSound(ts[1..], floats);
      var r := ParseOr(ts[1..]);
      if r.Good? && At(r.rest, "]") { PostfixLoopSound(Member(x, r.value), r.rest[1..], floats); }
    }
  }

  lemma {:induction false} PrimarySound(ts: Tokens, floats: Floats)
    requires ValidTokens(ts, floats)
    ensures Sound(ParsePrimary(ts), floats)
    decreases |ts|, 1
  {
    if ts != [] {
      assert ValidToken(ts[0], floats);
      if At(ts, "(") {
        OrSound(ts[1..], floats);
      } else if ts[0].Ident? && !Keyword(ts[0].text) && At(ts[1..], "(") {
        CallSound(ts[0].text, ts[1..][1..], floats);
      }
    }
  }

  lemma {:induction false} CallSound(fn: string, ts: Tokens, floats: Floats)
    requires ValidTokens(ts, floats) && IsIdent(fn) && !Keyword(fn)
    ensures Sound(ParseCall(fn, ts), floats)
    decreases |ts|, 8
  {
    if !At(ts, ")") { ArgsSound([], ts, floats); }
  }

  lemma {:induction false} ArgsSound(args: seq<Node>, ts: Tokens, floats: Floats)
    requires ValidTokens(ts, floats) && forall i :: 0 <= i < |args| ==> WellFormed(args[i], floats)
    ensures var r := ArgsLoop(args, ts);
            r.Good? ==> ValidTokens(r.rest, floats) && forall i :: 0 <= i < |r.value| ==> WellFormed(r.value[i], floats)
    decreases |ts|, 7
  {
    OrSound(ts, floats);
    var r := ParseOr(ts);
    if r.Good? && At(r.rest, ",") { ArgsSound(args + [r.value], r.rest[1..], floats); }
  }

  /** Whatever parses can be printed and parsed to the same tree again. */
  lemma Reprint(s: string, floats: Floats)
    requires Parse(s, floats).Ok?
    ensures WellFormed(Parse(s, floats).value, floats)
    ensures Parse(PrintText(Parse(s, floats).value), floats) == Parse(s, floats)
  {
    LexValid(s, floats);
    OrSound(Lex(s, floats).value, floats);
    RoundTrip(Parse(s, floats).value, floats);
  }

  // ---------------------------------------------------------------- a closing parenthesis ends an expression

  /** The parse goes on identically when more tokens, led by ')', follow. */
  ghost predicate Extends<T>(r: Parsed<T>, longer: Parsed<T>, ext: Tokens) {
    r.Good? ==> longer == Good(r.value, r.rest + ext)
  }

  lemma AppendFront(ts: Tokens, ext: Tokens)
    requires At(ext, ")")
    ensures ts != [] ==> (ts + ext)[0] == ts[0] && (ts + ext)[1..] == ts[1..] + ext
    ensures ts == [] ==> ts + ext == ext
  {}

  lemma {:induction false} OrExtends(ts: Tokens, ext: Tokens)
    requires At(ext, ")")
    ensures Extends(ParseOr(ts), ParseOr(ts + ext), ext)
    decreases |ts|, 6
  {
    AndExtends(ts, ext);
    var r := ParseAnd(ts);
    if r.Good? { OrLoopExtends(r.value, r.rest, ext); }
  }

  lemma {:induction false} OrLoopExtends(left: Node, ts: Tokens, ext: Tokens)
    requires At(ext, ")")
    ensures Extends(OrLoop(left, ts), OrLoop(left, ts + ext), ext)
    decreases |ts|, 7
  {
    AppendFront(ts, ext);
    if At(ts, "||") {
      AndExtends(ts[1..], ext);
      var r := ParseAnd(ts[1..]);
      if r.Good? { OrLoopExtends(Binary(Or, left, r.value), r.rest, ext); }
    }
  }

  lemma {:induction false} AndExtends(ts: Tokens, ext: Tokens)
    requires At(ext, ")")
    ensures Extends(ParseAnd(ts), ParseAnd(ts + ext), ext)
    decreases |ts|, 5
  {
    CompareExtends(ts, ext);
    var r := ParseCompare(ts);
    if r.Good? { AndLoopExtends(r.value, r.rest, ext); }
  }

  lemma {:induction false} AndLoopExtends(left: Node, ts: Tokens, ext: Tokens)
    requires At(ext, ")")
    ensures Extends(AndLoop(left, ts), AndLoop(left, ts + ext), ext)
    decreases |ts|, 7
  {
    AppendFront(ts, ext);
    if At(ts, "&&") {
      CompareExtends(ts[1..], ext);
      var r := ParseCompare(ts[1..]);
      if r.Good? { AndLoopExtends(Binary(And, left, r.value), r.rest, ext); }
    }
  }

  lemma {:induction false} CompareExtends(ts: Tokens, ext: Tokens)
    requires At(ext, ")")
    ensures Extends(ParseCompare(ts), ParseCompare(ts + ext), ext)
    decreases |ts|, 4
  {
    UnaryExtends(ts, ext);
    var r := ParseUnary(ts);
    if r.Good? { CompareLoopExtends(r.value, r.rest, ext); }
  }

  lemma {:induction false} CompareLoopExtends(left: Node, ts: Tokens, ext: Tokens)
    requires At(ext, ")")
    ensures Extends(CompareLoop(left, ts), CompareLoop(left, ts + ext), ext)
    decreases |ts|, 7
  {
    AppendFront(ts, ext);
    var op := CompareOp(ts);
    if op.Some? {
      UnaryExtends(ts[1..], ext);
      var r := ParseUnary(ts[1..]);
      if r.Good? { CompareLoopExtends(Binary(op.value, left, r.value), r.rest, ext); }
    }
  }

  lemma {:induction false} UnaryExtends(ts: Tokens, ext: Tokens)
    requires At(ext, ")")
    ensures Extends(ParseUnary(ts), ParseUnary(ts + ext), ext)
    decreases |ts|, 3
  {
    AppendFront(ts, ext);
    if At(ts, "!") { UnaryExtends(ts[1..], ext); } else { PostfixExtends(ts, ext); }
  }

  lemma {:induction false} PostfixExtends(ts: Tokens, ext: Tokens)
    requires At(ext, ")")
    ensures Extends(ParsePostfix(ts), ParsePostfix(ts + ext), ext)
    decreases |ts|, 2
  {
    PrimaryExtends(ts, ext);
    var r := ParsePrimary(ts);
    if r.Good? { PostfixLoopExtends(r.value, r.rest, ext); }
  }

  lemma {:induction false} PostfixLoopExtends(x: Node, ts: Tokens, ext: Tokens)
    requires At(ext, ")")
    ensures Extends(PostfixLoop(x, ts), PostfixLoop(x, ts + ext), ext)
    decreases |ts|, 7
  {
    AppendFront(ts, ext);
    if At(ts, ".") {
      PrimaryExtends(ts[1..], ext);
      var r := ParsePrimary(ts[1..]);
      if r.Good? {
        match r.value
        case Name(name) => PostfixLoopExtends(Member(x, Text(name)), r.rest, ext);
        case Num(_) => PostfixLoopExtends(Member(x, r.value), r.rest, ext);
        case _ =>
      }
    } else if At(ts, "[") {
      OrExtends(ts[1..], ext);
      var r := ParseOr(ts[1..]);
      if r.Good? && At(r.rest, "]") {
        AppendFront(r.rest, ext);
        PostfixLoopExtends(Member(x, r.value), r.rest[1..], ext);
      }
    }
  }

  lemma {:induction false} PrimaryExtends(ts: Tokens, ext: Tokens)
    requires At(ext, ")")
    ensures Extends(ParsePrimary(ts), ParsePrimary(ts + ext), ext)
    decreases |ts|, 1
  {
    AppendFront(ts, ext);
    if ts != [] {
      AppendFront(ts[1..], ext);
      if At(ts, "(") {
        OrExtends(ts[1..], ext);
        var r := ParseOr(ts[1..]);
        if r.Good? { AppendFront(r.rest, ext); }
      } else if ts[0].Ident? && !Keyword(ts[0].text) && At(ts[1..], "(") {
        CallExtends(ts[0].text, ts[1..][1..], ext);
      }
    }
  }

  lemma {:induction false} CallExtends(fn: string, ts: Tokens, ext: Tokens)
    requires At(ext, ")")
    ensures Extends(ParseCall(fn, ts), ParseCall(fn, ts + ext), ext)
    decreases |ts|, 8
  {
    AppendFront(ts, ext);
    if !At(ts, ")") { ArgsExtends([], ts, ext); }
  }

  lemma {:induction false} ArgsExtends(args: seq<Node>, ts: Tokens, ext: Tokens)
    requires At(ext, ")")
    ensures Extends(ArgsLoop(args, ts), ArgsLoop(args, ts + ext), ext)
    decreases |ts|, 7
  {
    OrExtends(ts, ext);
    var r := ParseOr(ts);
    if r.Good? {
      AppendFront(r.rest, ext);
      if At(r.rest, ",") { ArgsExtends(args + [r.value], r.rest[1..], ext); }
    }
  }
}
