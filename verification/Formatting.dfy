/** The format() function's scan of its template
    (internal/workflow/expression/functions.go). */
module Formatting {
  import opened Prelude
  import opened Lexing
  import opened Evaluation

  /** Nothing is lost: what was written, then the rest. */
  lemma PrependTwice(a: string, b: string, r: Option<string>)
    ensures Prepend(a, Prepend(b, r)) == Prepend(a + b, r)
  {
    if r.Some? { assert a + (b + r.value) == a + b + r.value; }
  }

  lemma PrependNothing(r: Option<string>)
    ensures Prepend("", r) == r
  {
    if r.Some? { assert "" + r.value == r.value; }
  }

  /** One scan step at position i: the text it writes and where it goes on, or a fault. */
  ghost predicate Scans(tpl: string, i: nat, args: seq<string>, text: Option<string>, next: nat)
    requires i < |tpl|
  {
    match text
    case None => Format(tpl[i..], args) == None
    case Some(t) => i < next <= |tpl| && Format(tpl[i..], args) == Prepend(t, Format(tpl[next..], args))
  }

  method ScanBrace(tpl: string, i: nat, args: seq<string>) returns (text: Option<string>, next: nat)
    requires i < |tpl| && tpl[i] == '{'
    ensures Scans(tpl, i, args, text, next)
  {
    ghost var rest := tpl[i..];
    if i + 1 < |tpl| && tpl[i + 1] == '{' {
      assert rest[2..] == tpl[i + 2..];
      return Some("{"), i + 2;
    }
    var end := IndexOf(tpl[i..], '}');
    if end == |tpl| - i { return None, i; }
    var idx := Atoi(tpl[i + 1..i + end]);
    assert rest[1..end] == tpl[i + 1..i + end] && rest[end + 1..] == tpl[i + end + 1..];
    if idx.None? || idx.value < 0 || idx.value >= |args| { return None, i; }
    return Some(args[idx.value]), i + end + 1;
  }

  method ScanOne(tpl: string, i: nat, args: seq<string>) returns (text: Option<string>, next: nat)
    requires i < |tpl|
    ensures Scans(tpl, i, args, text, next)
  {
    ghost var rest := tpl[i..];
    assert rest[1..] == tpl[i + 1..];
    if tpl[i] == '{' {
      text, next := ScanBrace(tpl, i, args);
    } else if tpl[i] == '}' {
      if i + 1 < |tpl| && tpl[i + 1] == '}' {
        assert rest[2..] == tpl[i + 2..];
        text, next := Some("}"), i + 2;
      } else {
        text, next := None, i;
      }
    } else {
      text, next := Some([tpl[i]]), i + 1;
    }
  }

  method FormatGitHub(tpl: string, args: seq<string>) returns (r: Option<string>)
    ensures r == Format(tpl, args)
  {
    var sb, i := "", 0;
    ghost var goal := Format(tpl, args);
    assert tpl[0..] == tpl;
    PrependNothing(goal);
    while i < |tpl|
      invariant 0 <= i <= |tpl| && goal == Prepend(sb, Format(tpl[i..], args))
    {
      var text, next := ScanOne(tpl, i, args);
      if text.None? { return None; }
      PrependTwice(sb, text.value, Format(tpl[next..], args));
      sb, i := sb + text.value, next;
    }
    assert sb + "" == sb;
    r := Some(sb);
  }

  /** Every brace doubled. */
  function Escaped(s: string): string {
    if s == "" then ""
    else (if s[0] == '{' then "{{" else if s[0] == '}' then "}}" else [s[0]]) + Escaped(s[1..])
  }

  /** Doubling the braces of a text and formatting it gives the text back,
      whatever the arguments. */
  lemma EscapedFormats(s: string, args: seq<string>)
    ensures Format(Escaped(s), args) == Some(s)
  {
    LiteralFormats(s, "", args);
    assert Escaped(s) + "" == Escaped(s) && s + "" == s;
  }

  // ---------------------------------------------------------------- templates written piece by piece

  datatype Piece = Literal(text: string) | Hole(index: nat)

  function Digit(n: nat): char
    requires n < 10
  {
    '0' + n as char
  }

  function Decimal(n: nat): string {
    if n < 10 then [Digit(n)] else Decimal(n / 10) + [Digit(n % 10)]
  }

  lemma {:induction false} DecimalReads(n: nat)
    ensures Digits(Decimal(n)) && DecimalOf(Decimal(n)) == n
  {
    if n >= 10 {
      DecimalReads(n / 10);
      var d := Decimal(n);
      assert d[..|d| - 1] == Decimal(n / 10) && d[|d| - 1] == Digit(n % 10);
    }
  }

  /** The template: literal text with its braces doubled, a hole as {i}. */
  function Template(ps: seq<Piece>): string {
    if ps == [] then ""
    else (match ps[0]
          case Literal(text) => Escaped(text)
          case Hole(i) => "{" + Decimal(i) + "}") + Template(ps[1..])
  }

  /** The text it stands for: literals as they are, argument i for hole i. */
  function Filled(ps: seq<Piece>, args: seq<string>): Option<string> {
    if ps == [] then Some("")
    else
      match ps[0]
      case Literal(text) => Prepend(text, Filled(ps[1..], args))
      case Hole(i) => if i < |args| then Prepend(args[i], Filled(ps[1..], args)) else None
  }

  lemma {:induction false} LiteralFormats(s: string, rest: string, args: seq<string>)
    ensures Format(Escaped(s) + rest, args) == Prepend(s, Format(rest, args))
  {
    if s == "" {
      PrependNothing(Format(rest, args));
      assert Escaped(s) + rest == rest;
    } else {
      LiteralFormats(s[1..], rest, args);
      PrependTwice([s[0]], s[1..], Format(rest, args));
      assert [s[0]] + s[1..] == s;
      var t := Escaped(s[1..]) + rest;
      if s[0] == '{' || s[0] == '}' {
        DoubledFormats(s[0], t, args);
        assert Escaped(s) + rest == [s[0], s[0]] + t;
      } else {
        PlainFormats(s[0], t, args);
        assert Escaped(s) + rest == [s[0]] + t;
      }
    }
  }

  lemma DoubledFormats(c: char, t: string, args: seq<string>)
    requires c == '{' || c == '}'
    ensures Format([c, c] + t, args) == Prepend([c], Format(t, args))
  {
    assert ([c, c] + t)[2..] == t;
  }

  lemma PlainFormats(c: char, t: string, args: seq<string>)
    requires c != '{' && c != '}'
    ensures Format([c] + t, args) == Prepend([c], Format(t, args))
  {
    assert ([c] + t)[1..] == t;
  }

  lemma {:induction false} IndexPast(d: string, c: char, rest: string)
    requires c !in d
    ensures IndexOf(d + ([c] + rest), c) == |d|
  {
    var s := d + ([c] + rest);
    if d == [] {
      assert s[0] == c;
    } else {
      assert s[0] == d[0] && s[1..] == d[1..] + ([c] + rest);
      IndexPast(d[1..], c, rest);
    }
  }

  lemma HoleFormats(i: nat, rest: string, args: seq<string>)
    ensures Format("{" + Decimal(i) + "}" + rest, args) == if i < |args| then Prepend(args[i], Format(rest, args)) else None
  {
    var d := Decimal(i);
    DecimalReads(i);
    var s := "{" + d + "}" + rest;
    assert '}' !in d && '{' !in d && d != "";
    assert s == ("{" + d) + (['}'] + rest);
    IndexPast("{" + d, '}', rest);
    assert s[0] == '{' && s[1] == d[0] != '{';
    assert s[1..|d| + 1] == d && s[|d| + 2..] == rest;
    DigitsRead(d, i);
  }

  lemma DigitsRead(d: string, i: nat)
    requires Digits(d) && DecimalOf(d) == i
    ensures Atoi(d) == Some(i)
  {
    assert d[0] != '+' && d[0] != '-';
  }

  /** Formatting a template puts argument i for hole i and every literal as it is;
      it fails exactly for a hole without argument. */
  lemma {:induction false} TemplateFormats(ps: seq<Piece>, args: seq<string>)
    ensures Format(Template(ps), args) == Filled(ps, args)
    ensures Filled(ps, args).None? <==> exists k :: 0 <= k < |ps| && ps[k].Hole? && ps[k].index >= |args|
  {
    if ps != [] {
      TemplateFormats(ps[1..], args);
      match ps[0]
      case Literal(text) => LiteralFormats(text, Template(ps[1..]), args);
      case Hole(i) => HoleFormats(i, Template(ps[1..]), args);
      assert forall k :: 0 <= k < |ps| - 1 ==> ps[1..][k] == ps[k + 1];
      if k :| 0 <= k < |ps| - 1 && ps[1..][k].Hole? && ps[1..][k].index >= |args| { assert ps[k + 1].Hole?; }
    }
  }
}
