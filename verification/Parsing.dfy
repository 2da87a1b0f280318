/** The expression grammar (internal/workflow/expression/parser.go) as mutually
    recursive functions on the remaining tokens; the loops of the parser are
    functions that carry the tree built so far. */
module Parsing {
  import opened Prelude
  import opened Lexing

  datatype BinOp = Or | And | Eq | Ne | Lt | Le | Gt | Ge

  /** Number literals keep their lexeme. */
  datatype Node =
    | Null
    | Boolean(b: bool)
    | Num(lexeme: string)
    | Text(s: string)
    | Name(name: string)
    | Member(obj: Node, prop: Node)
    | Not(x: Node)
    | Binary(op: BinOp, l: Node, r: Node)
    | Call(fn: string, args: seq<Node>)

  datatype Fault = Unexpected | ExpectedProperty | ExpectedBracket | ExpectedParen | ExpectedCommaOrParen | Trailing

  /** A value and the tokens after it, or a fault and how many tokens were left
      at the token it is reported for. */
  datatype Parsed<+T> = Good(value: T, rest: seq<Token>) | Bad(fault: Fault, left: nat)

  type Tokens = seq<Token>

  predicate At(ts: Tokens, p: string) {
    ts != [] && ts[0] == Punct(p)
  }

  function CompareOp(ts: Tokens): Option<BinOp> {
    if ts == [] || !ts[0].Punct? then None
    else
      var p := ts[0].text;
      if p == "==" then Some(Eq) else if p == "!=" then Some(Ne)
      else if p == "<" then Some(Lt) else if p == "<=" then Some(Le)
      else if p == ">" then Some(Gt) else if p == ">=" then Some(Ge)
      else None
  }

  function ParseOr(ts: Tokens): (r: Parsed<Node>)
    ensures r.Good? ==> |r.rest| < |ts|
    decreases |ts|, 6
  {
    match ParseAnd(ts)
    case Bad(f, n) => Bad(f, n)
    case Good(left, rest) => OrLoop(left, rest)
  }

  function OrLoop(left: Node, ts: Tokens): (r: Parsed<Node>)
    ensures r.Good? ==> |r.rest| <= |ts|
    decreases |ts|, 7
  {
    if !At(ts, "||") then Good(left, ts)
    else
      match ParseAnd(ts[1..])
      case Bad(f, n) => Bad(f, n)
      case Good(right, rest) => OrLoop(Binary(Or, left, right), rest)
  }

  function ParseAnd(ts: Tokens): (r: Parsed<Node>)
    ensures r.Good? ==> |r.rest| < |ts|
    decreases |ts|, 5
  {
    match ParseCompare(ts)
    case Bad(f, n) => Bad(f, n)
    case Good(left, rest) => AndLoop(left, rest)
  }

  function AndLoop(left: Node, ts: Tokens): (r: Parsed<Node>)
    ensures r.Good? ==> |r.rest| <= |ts|
    decreases |ts|, 7
  {
    if !At(ts, "&&") then Good(left, ts)
    else
      match ParseCompare(ts[1..])
      case Bad(f, n) => Bad(f, n)
      case Good(right, rest) => AndLoop(Binary(And, left, right), rest)
  }

  function ParseCompare(ts: Tokens): (r: Parsed<Node>)
    ensures r.Good? ==> |r.rest| < |ts|
    decreases |ts|, 4
  {
    match ParseUnary(ts)
    case Bad(f, n) => Bad(f, n)
    case Good(left, rest) => CompareLoop(left, rest)
  }

  function CompareLoop(left: Node, ts: Tokens): (r: Parsed<Node>)
    ensures r.Good? ==> |r.rest| <= |ts|
    decreases |ts|, 7
  {
    match CompareOp(ts)
    case None => Good(left, ts)
    case Some(op) =>
      match ParseUnary(ts[1..])
      case Bad(f, n) => Bad(f, n)
      case Good(right, rest) => CompareLoop(Binary(op, left, right), rest)
  }

  function ParseUnary(ts: Tokens): (r: Parsed<Node>)
    ensures r.Good? ==> |r.rest| < |ts|
    decreases |ts|, 3
  {
    if At(ts, "!") then
      match ParseUnary(ts[1..])
      case Bad(f, n) => Bad(f, n)
      case Good(x, rest) => Good(Not(x), rest)
    else ParsePostfix(ts)
  }

  function ParsePostfix(ts: Tokens): (r: Parsed<Node>)
    ensures r.Good? ==> |r.rest| < |ts|
    decreases |ts|, 2
  {
    match ParsePrimary(ts)
    case Bad(f, n) => Bad(f, n)
    case Good(x, rest) => PostfixLoop(x, rest)
  }

  function PostfixLoop(x: Node, ts: Tokens): (r: Parsed<Node>)
    ensures r.Good? ==> |r.rest| <= |ts|
    decreases |ts|, 7
  {
    if At(ts, ".") then
      match ParsePrimary(ts[1..])
      case Bad(f, n) => Bad(f, n)
      case Good(prop, rest) =>
        match prop
        case Name(name) => PostfixLoop(Member(x, Text(name)), rest)
        case Num(_) => PostfixLoop(Member(x, prop), rest)
        case _ => Bad(ExpectedProperty, |rest|)
    else if At(ts, "[") then
      match ParseOr(ts[1..])
      case Bad(f, n) => Bad(f, n)
      case Good(idx, rest) =>
        if At(rest, "]") then PostfixLoop(Member(x, idx), rest[1..]) else Bad(ExpectedBracket, |rest|)
    else Good(x, ts)
  }

  function ParsePrimary(ts: Tokens): (r: Parsed<Node>)
    ensures r.Good? ==> |r.rest| < |ts|
    decreases |ts|, 1
  {
    if ts == [] then Bad(Unexpected, 0)
    else
      match ts[0]
      case Number(lexeme) => Good(Num(lexeme), ts[1..])
      case Str(str) => Good(Text(str), ts[1..])
      case Ident(text) =>
        if text == "null" then Good(Null, ts[1..])
        else if text == "true" then Good(Boolean(true), ts[1..])
        else if text == "false" then Good(Boolean(false), ts[1..])
        else if At(ts[1..], "(") then ParseCall(text, ts[1..][1..])
        else Good(Name(text), ts[1..])
      case Punct(text) =>
        if text == "(" then
          match ParseOr(ts[1..])
          case Bad(f, n) => Bad(f, n)
          case Good(inner, rest) => if At(rest, ")") then Good(inner, rest[1..]) else Bad(ExpectedParen, |rest|)
        else Bad(Unexpected, |ts|)
  }

  /** After the opening parenthesis of a call. */
  function ParseCall(fn: string, ts: Tokens): (r: Parsed<Node>)
    ensures r.Good? ==> |r.rest| <= |ts|
    decreases |ts|, 8
  {
    if At(ts, ")") then Good(Call(fn, []), ts[1..])
    else
      match ArgsLoop([], ts)
      case Bad(f, n) => Bad(f, n)
      case Good(args, rest) => Good(Call(fn, args), rest)
  }

  function ArgsLoop(args: seq<Node>, ts: Tokens): (r: Parsed<seq<Node>>)
    ensures r.Good? ==> |r.rest| < |ts|
    decreases |ts|, 7
  {
    match ParseOr(ts)
    case Bad(f, n) => Bad(f, n)
    case Good(arg, rest) =>
      if At(rest, ",") then ArgsLoop(args + [arg], rest[1..])
      else if At(rest, ")") then Good(args + [arg], rest[1..])
      else Bad(ExpectedCommaOrParen, |rest|)
  }

  datatype SyntaxError = LexicalError(error: LexError) | GrammarError(fault: Fault, left: nat)

  /** Lexes and parses a whole text. */
  function ParseTokens(ts: Tokens): Result<Node, SyntaxError> {
    match ParseOr(ts)
    case Bad(f, n) => Err(GrammarError(f, n))
    case Good(n, rest) => if rest == [] then Ok(n) else Err(GrammarError(Trailing, |rest|))
  }

  function Parse(s: string, floats: Floats): Result<Node, SyntaxError> {
    match Lex(s, floats)
    case Err(e) => Err(LexicalError(e))
    case Ok(ts) => ParseTokens(ts)
  }
}
