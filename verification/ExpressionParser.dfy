/** The parser object (internal/workflow/expression/parser.go): a position that
    moves over the scanned tokens, never past the end marker. */
module ExpressionParser {
  import opened Prelude
  import opened Lexing
  import opened Parsing
  import opened Scanner

  /** A grammar fault at the token it is reported for, or a scanning fault. */
  datatype ParseError = Grammar(fault: Fault, at: Position) | Scan(error: ScanError)

  class Parser {
    const toks: seq<Lexeme>
    var pos: nat

    ghost predicate Valid()
      reads this
    {
      Ended(toks) && pos < |toks|
    }

    /** The tokens not read yet. */
    ghost function Rest(): (ts: Tokens)
      requires Valid()
      reads this
      ensures |ts| == |toks| - 1 - pos
      ensures ts != [] ==> Some(ts[0]) == toks[pos].token
      ensures ts == [] <==> toks[pos].token == None
    {
      Kinds(toks)[pos..]
    }

    /** The outcome of a method is what the grammar function says, and the
        position stands before the tokens it leaves. */
    ghost predicate Agrees<T>(r: Result<T, ParseError>, p: Parsed<T>)
      reads this
    {
      && Valid()
      && match p
         case Good(v, rest) => r == Ok(v) && Rest() == rest
         case Bad(f, left) => left < |toks| && r == Err(Grammar(f, toks[|toks| - 1 - left].at))
    }

    constructor (toks: seq<Lexeme>)
      requires Ended(toks)
      ensures Valid() && pos == 0 && this.toks == toks
    {
      this.toks := toks;
      pos := 0;
    }

    method Next() returns (x: Lexeme)
      requires Valid()
      modifies this
      ensures Valid() && x == toks[old(pos)]
      ensures x.token.Some? ==> pos == old(pos) + 1 && Rest() == old(Rest())[1..]
      ensures x.token.None? ==> pos == old(pos)
    {
      x := toks[pos];
      if x.token.Some? { pos := pos + 1; }
    }

    method Match(p: string) returns (matched: bool)
      requires Valid()
      modifies this
      ensures Valid() && matched == At(old(Rest()), p)
      ensures matched ==> pos == old(pos) + 1 && Rest() == old(Rest())[1..]
      ensures !matched ==> pos == old(pos)
    {
      matched := toks[pos].token == Some(Punct(p));
      if matched { var _ := Next(); }
    }

    method ErrAt<T>(f: Fault) returns (r: Result<T, ParseError>)
      requires Valid()
      ensures Agrees(r, Bad(f, |Rest()|))
    {
      r := Err(Grammar(f, toks[pos].at));
    }

    method Disjunction() returns (r: Result<Node, ParseError>)
      requires Valid()
      modifies this
      ensures Agrees(r, ParseOr(old(Rest()))) && (r.Ok? ==> old(pos) < pos)
      decreases |toks| - pos, 6
    {
      r := Conjunction();
      if r.Err? { return; }
      while true
        invariant Valid() && r.Ok? && old(pos) < pos
        invariant ParseOr(old(Rest())) == OrLoop(r.value, Rest())
        decreases |toks| - pos
      {
        var matched := Match("||");
        if !matched { return; }
        var right := Conjunction();
        if right.Err? { return right; }
        r := Ok(Binary(Or, r.value, right.value));
      }
    }

    method Conjunction() returns (r: Result<Node, ParseError>)
      requires Valid()
      modifies this
      ensures Agrees(r, ParseAnd(old(Rest()))) && (r.Ok? ==> old(pos) < pos)
      decreases |toks| - pos, 5
    {
      r := Comparison();
      if r.Err? { return; }
      while true
        invariant Valid() && r.Ok? && old(pos) < pos
        invariant ParseAnd(old(Rest())) == AndLoop(r.value, Rest())
        decreases |toks| - pos
      {
        var matched := Match("&&");
        if !matched { return; }
        var right := Comparison();
        if right.Err? { return right; }
        r := Ok(Binary(And, r.value, right.value));
      }
    }

    method Comparison() returns (r: Result<Node, ParseError>)
      requires Valid()
      modifies this
      ensures Agrees(r, ParseCompare(old(Rest()))) && (r.Ok? ==> old(pos) < pos)
      decreases |toks| - pos, 4
    {
      r := Unary();
      if r.Err? { return; }
      while true
        invariant Valid() && r.Ok? && old(pos) < pos
        invariant ParseCompare(old(Rest())) == CompareLoop(r.value, Rest())
        decreases |toks| - pos
      {
        var t := toks[pos].token;
        var op := if t.None? then None else CompareOp([t.value]);
        assert op == CompareOp(Rest());
        if op.None? { return; }
        var _ := Next();
        var right := Unary();
        if right.Err? { return right; }
        r := Ok(Binary(op.value, r.value, right.value));
      }
    }

    method Unary() returns (r: Result<Node, ParseError>)
      requires Valid()
      modifies this
      ensures Agrees(r, ParseUnary(old(Rest()))) && (r.Ok? ==> old(pos) < pos)
      decreases |toks| - pos, 3
    {
      var matched := Match("!");
      if matched {
        r := Unary();
        if r.Ok? { r := Ok(Not(r.value)); }
      } else {
        r := Postfix();
      }
    }

    method Postfix() returns (r: Result<Node, ParseError>)
      requires Valid()
      modifies this
      ensures Agrees(r, ParsePostfix(old(Rest()))) && (r.Ok? ==> old(pos) < pos)
      decreases |toks| - pos, 2
    {
      r := Primary();
      if r.Err? { return; }
      while true
        invariant Valid() && r.Ok? && old(pos) < pos
        invariant ParsePostfix(old(Rest())) == PostfixLoop(r.value, Rest())
        decreases |toks| - pos
      {
        PostfixSteps(r.value, Rest());
        var dot := Match(".");
        if dot {
          r := Property(r.value);
        } else {
          var bracket := Match("[");
          if !bracket { return; }
          r := Index(r.value);
        }
        if r.Err? { return; }
      }
    }

    /** After the dot: a name or a number. */
    method Property(x: Node) returns (r: Result<Node, ParseError>)
      requires Valid()
      modifies this
      ensures Agrees(r, PropertyOf(x, ParsePrimary(old(Rest())))) && (r.Ok? ==> old(pos) < pos)
      decreases |toks| - pos, 7
    {
      r := Primary();
      if r.Err? { return; }
      var prop := r.value;
      if prop.Name? {
        r := Ok(Member(x, Text(prop.name)));
      } else if prop.Num? {
        r := Ok(Member(x, prop));
      } else {
        r := ErrAt(ExpectedProperty);
      }
    }

    /** After the opening bracket. */
    method Index(x: Node) returns (r: Result<Node, ParseError>)
      requires Valid()
      modifies this
      ensures Agrees(r, IndexOf(x, ParseOr(old(Rest())))) && (r.Ok? ==> old(pos) < pos)
      decreases |toks| - pos, 7
    {
      r := Disjunction();
      if r.Err? { return; }
      var matched := Match("]");
      if matched {
        r := Ok(Member(x, r.value));
      } else {
        r := ErrAt(ExpectedBracket);
      }
    }

    method Primary() returns (r: Result<Node, ParseError>)
      requires Valid()
      modifies this
      ensures Agrees(r, ParsePrimary(old(Rest()))) && (r.Ok? ==> old(pos) < pos)
      decreases |toks| - pos, 1
    {
      match toks[pos].token {
        case None => r := ErrAt(Unexpected);
        case Some(Number(lexeme)) =>
          var _ := Next();
          r := Ok(Num(lexeme));
        case Some(Str(str)) =>
          var _ := Next();
          r := Ok(Text(str));
        case Some(Ident(text)) =>
          var _ := Next();
          if text == "null" { return Ok(Null); }
          if text == "true" { return Ok(Boolean(true)); }
          if text == "false" { return Ok(Boolean(false)); }
          var call := Match("(");
          if call {
            r := Arguments(text);
          } else {
            r := Ok(Name(text));
          }
        case Some(Punct(text)) =>
          if text == "(" {
            var _ := Next();
            r := Parenthesised();
          } else {
            r := ErrAt(Unexpected);
          }
      }
    }

    /** After the opening parenthesis. */
    method Parenthesised() returns (r: Result<Node, ParseError>)
      requires Valid()
      modifies this
      ensures Agrees(r, Closing(ParseOr(old(Rest())))) && (r.Ok? ==> old(pos) < pos)
      decreases |toks| - pos, 7
    {
      r := Disjunction();
      if r.Err? { return; }
      var matched := Match(")");
      if !matched { r := ErrAt(ExpectedParen); }
    }

    /** After the opening parenthesis of a call. */
    method Arguments(fn: string) returns (r: Result<Node, ParseError>)
      requires Valid()
      modifies this
      ensures Agrees(r, ParseCall(fn, old(Rest()))) && (r.Ok? ==> old(pos) < pos)
      decreases |toks| - pos, 8
    {
      var args: seq<Node> := [];
      var matched := Match(")");
      if matched { return Ok(Call(fn, [])); }
      while true
        invariant Valid() && old(pos) <= pos
        invariant ParseCall(fn, old(Rest())) == CallOf(fn, ArgsLoop(args, Rest()))
        decreases |toks| - pos
      {
        var arg := Disjunction();
        if arg.Err? { return arg; }
        args := args + [arg.value];
        matched := Match(",");
        if matched { continue; }
        matched := Match(")");
        if matched { return Ok(Call(fn, args)); }
        r := ErrAt(ExpectedCommaOrParen);
        return;
      }
    }
  }

  ghost function Closing(p: Parsed<Node>): Parsed<Node> {
    match p
    case Bad(f, n) => Bad(f, n)
    case Good(x, rest) => if At(rest, ")") then Good(x, rest[1..]) else Bad(ExpectedParen, |rest|)
  }

  ghost function PropertyOf(x: Node, p: Parsed<Node>): Parsed<Node> {
    match p
    case Bad(f, n) => Bad(f, n)
    case Good(prop, rest) =>
      if prop.Name? then Good(Member(x, Text(prop.name)), rest)
      else if prop.Num? then Good(Member(x, prop), rest)
      else Bad(ExpectedProperty, |rest|)
  }

  ghost function IndexOf(x: Node, p: Parsed<Node>): Parsed<Node> {
    match p
    case Bad(f, n) => Bad(f, n)
    case Good(i, rest) => if At(rest, "]") then Good(Member(x, i), rest[1..]) else Bad(ExpectedBracket, |rest|)
  }

  ghost function Onward(p: Parsed<Node>): Parsed<Node> {
    match p
    case Bad(f, n) => Bad(f, n)
    case Good(x, rest) => PostfixLoop(x, rest)
  }

  lemma PostfixSteps(x: Node, ts: Tokens)
    ensures At(ts, ".") ==> PostfixLoop(x, ts) == Onward(PropertyOf(x, ParsePrimary(ts[1..])))
    ensures At(ts, "[") ==> PostfixLoop(x, ts) == Onward(IndexOf(x, ParseOr(ts[1..])))
    ensures !At(ts, ".") && !At(ts, "[") ==> PostfixLoop(x, ts) == Good(x, ts)
  {}

  ghost function CallOf(fn: string, p: Parsed<seq<Node>>): Parsed<Node> {
    match p
    case Bad(f, n) => Bad(f, n)
    case Good(args, rest) => Good(Call(fn, args), rest)
  }

  /** What parsing a text answers, with places in the text. */
  ghost predicate Answers(s: string, floats: Floats, r: Result<Node, ParseError>) {
    match Parse(s, floats)
    case Ok(n) => r == Ok(n)
    case Err(LexicalError(e)) => e.left <= |s| && r == Err(Scan(ScanError(e.fault, PositionAt(s, |s| - e.left))))
    case Err(GrammarError(f, left)) =>
      && ScanFrom(s, 0, floats).Ok?
      && var xs := ScanFrom(s, 0, floats).value;
      && left < |xs|
      && r == Err(Grammar(f, xs[|xs| - 1 - left].at))
  }

  lemma ScanAnswers(s: string, floats: Floats)
    ensures ScanFrom(s, 0, floats).Err? ==> Answers(s, floats, Err(Scan(ScanFrom(s, 0, floats).error)))
    ensures ScanFrom(s, 0, floats).Ok? ==>
              Ended(ScanFrom(s, 0, floats).value) && Parse(s, floats) == ParseTokens(Kinds(ScanFrom(s, 0, floats).value))
  {
    ScanTokens(s, 0, floats);
    assert s[0..] == s;
  }

  method ParseText(expr: string, floats: Floats) returns (r: Result<Node, ParseError>)
    ensures Answers(expr, floats, r)
  {
    ScanAnswers(expr, floats);
    var lex := new Lexer(expr, floats);
    var toks := lex.Tokens();
    if toks.Err? { return Err(Scan(toks.error)); }
    r := ParseAll(toks.value);
  }

  /** All tokens up to the end marker. */
  method ParseAll(toks: seq<Lexeme>) returns (r: Result<Node, ParseError>)
    requires Ended(toks)
    ensures match ParseTokens(Kinds(toks))
            case Ok(n) => r == Ok(n)
            case Err(GrammarError(f, left)) => left < |toks| && r == Err(Grammar(f, toks[|toks| - 1 - left].at))
            case Err(LexicalError(_)) => false
  {
    var p := new Parser(toks);
    assert p.Rest() == Kinds(toks);
    r := p.Disjunction();
    if r.Err? { return; }
    if toks[p.pos].token.Some? {
      r := p.ErrAt(Trailing);
    }
  }
}
