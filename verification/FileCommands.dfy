/** The files steps write to set variables and outputs
    (internal/runtime/executor/filecommand/filecommand.go). */
module FileCommands {
  import opened Prelude
  import opened Text

  datatype KV = KV(key: string, value: string)

  datatype KVError = MalformedOpener(line: string) | NotClosed(key: string, delim: string) | MalformedLine(line: string)

  // ---------------------------------------------------------------- lines

  /** Carriage return and line feed become one line feed. */
  function Unix(s: string): string {
    if |s| >= 2 && s[0] == '\r' && s[1] == '\n' then ['\n'] + Unix(s[2..])
    else if s == "" then ""
    else [s[0]] + Unix(s[1..])
  }

  function WithoutLastBreak(s: string): string {
    if s != "" && s[|s| - 1] == '\n' then s[..|s| - 1] else s
  }

  function SplitLines(s: string): seq<string> {
    var u := Unix(s);
    if u == "" then [] else Split(WithoutLastBreak(u), '\n')
  }

  // ---------------------------------------------------------------- parsing

  /** The number of lines before the first that equals the delimiter. */
  function BodyLength(lines: seq<string>, delim: string): (n: nat)
    ensures n <= |lines| && delim !in lines[..n] && (n < |lines| ==> lines[n] == delim)
  {
    if lines == [] || lines[0] == delim then 0
    else
      var n := BodyLength(lines[1..], delim);
      assert lines[..n + 1] == [lines[0]] + lines[1..][..n];
      n + 1
  }

  predicate IsOpener(line: string) {
    Find(line, "<<").Some? && Find(line, "<<").value > 0
  }

  function OpenerKey(line: string): string
    requires IsOpener(line)
  {
    Trim(line[..Find(line, "<<").value])
  }

  function OpenerDelim(line: string): string
    requires IsOpener(line)
  {
    Trim(line[Find(line, "<<").value + 2..])
  }

  function Prepend(kv: KV, r: Result<seq<KV>, KVError>): Result<seq<KV>, KVError> {
    match r
    case Err(e) => Err(e)
    case Ok(kvs) => Ok([kv] + kvs)
  }

  function ParseLines(lines: seq<string>): Result<seq<KV>, KVError>
    decreases |lines|
  {
    if lines == [] then Ok([])
    else
      var line := lines[0];
      if Trim(line) == "" then ParseLines(lines[1..])
      else if IsOpener(line) then
        var key, delim := OpenerKey(line), OpenerDelim(line);
        if key == "" || delim == "" then Err(MalformedOpener(line))
        else
          var n := BodyLength(lines[1..], delim);
          if n == |lines| - 1 then Err(NotClosed(key, delim))
          else Prepend(KV(key, Join(lines[1..][..n], "\n")), ParseLines(lines[1..][n + 1..]))
      else
        match Find(line, "=")
        case Some(eq) =>
          if eq == 0 then Err(MalformedLine(line))
          else Prepend(KV(Trim(line[..eq]), line[eq + 1..]), ParseLines(lines[1..]))
        case None => Err(MalformedLine(line))
  }

  ghost function Onto(out: seq<KV>, r: Result<seq<KV>, KVError>): Result<seq<KV>, KVError> {
    match r
    case Err(e) => Err(e)
    case Ok(kvs) => Ok(out + kvs)
  }

  lemma OntoNext(out: seq<KV>, kv: KV, r: Result<seq<KV>, KVError>)
    ensures Onto(out, Prepend(kv, r)) == Onto(out + [kv], r)
  {
    if r.Ok? { assert out + ([kv] + r.value) == out + [kv] + r.value; }
  }

  lemma OntoNothing(r: Result<seq<KV>, KVError>)
    ensures Onto([], r) == r
  {
    if r.Ok? { assert [] + r.value == r.value; }
  }

  lemma StepBlank(lines: seq<string>, i: nat)
    requires i < |lines| && Trim(lines[i]) == ""
    ensures ParseLines(lines[i..]) == ParseLines(lines[i + 1..])
  {
    assert lines[i..][1..] == lines[i + 1..];
  }

  lemma StepLine(lines: seq<string>, i: nat)
    requires i < |lines| && Trim(lines[i]) != "" && !IsOpener(lines[i])
    ensures match Find(lines[i], "=")
            case None => ParseLines(lines[i..]) == Err(MalformedLine(lines[i]))
            case Some(eq) =>
              if eq == 0 then ParseLines(lines[i..]) == Err(MalformedLine(lines[i]))
              else ParseLines(lines[i..]) ==
                   Prepend(KV(Trim(lines[i][..eq]), lines[i][eq + 1..]), ParseLines(lines[i + 1..]))
  {
    assert lines[i..][1..] == lines[i + 1..];
  }

  lemma StepHeredoc(lines: seq<string>, i: nat, next: nat)
    requires i < next <= |lines| && Trim(lines[i]) != "" && IsOpener(lines[i])
    requires OpenerKey(lines[i]) != "" && OpenerDelim(lines[i]) != ""
    requires next - (i + 1) == BodyLength(lines[i + 1..], OpenerDelim(lines[i]))
    ensures ParseLines(lines[i..]) ==
            if next == |lines| then Err(NotClosed(OpenerKey(lines[i]), OpenerDelim(lines[i])))
            else Prepend(KV(OpenerKey(lines[i]), Join(lines[i + 1..next], "\n")), ParseLines(lines[next + 1..]))
  {
    var rest := lines[i..];
    assert rest[0] == lines[i] && rest[1..] == lines[i + 1..];
    var n := next - (i + 1);
    assert lines[i + 1..][..n] == lines[i + 1..next];
    assert next < |lines| ==> lines[i + 1..][n + 1..] == lines[next + 1..];
  }

  /** What reading one entry at line i found, and the line to go on from. */
  ghost predicate Reads(lines: seq<string>, i: nat, r: Result<Option<KV>, KVError>, next: nat)
    requires i < |lines|
  {
    match r
    case Err(e) => ParseLines(lines[i..]) == Err(e)
    case Ok(None) => i < next <= |lines| && ParseLines(lines[i..]) == ParseLines(lines[next..])
    case Ok(Some(kv)) => i < next <= |lines| && ParseLines(lines[i..]) == Prepend(kv, ParseLines(lines[next..]))
  }

  method ReadEntry(lines: seq<string>, i: nat) returns (r: Result<Option<KV>, KVError>, next: nat)
    requires i < |lines|
    ensures Reads(lines, i, r, next)
  {
    next := i + 1;
    var line := lines[i];
    if Trim(line) == "" {
      StepBlank(lines, i);
      r := Ok(None);
    } else if IsOpener(line) {
      r, next := ReadHeredoc(lines, i);
    } else {
      StepLine(lines, i);
      var eq := Find(line, "=");
      if eq.None? || eq.value == 0 {
        r := Err(MalformedLine(line));
      } else {
        r := Ok(Some(KV(Trim(line[..eq.value]), line[eq.value + 1..])));
      }
    }
  }

  lemma HeredocRead(lines: seq<string>, i: nat, end: nat)
    requires i < end <= |lines| && Trim(lines[i]) != "" && IsOpener(lines[i])
    requires OpenerKey(lines[i]) != "" && OpenerDelim(lines[i]) != ""
    requires end - (i + 1) == BodyLength(lines[i + 1..], OpenerDelim(lines[i]))
    ensures if end == |lines| then Reads(lines, i, Err(NotClosed(OpenerKey(lines[i]), OpenerDelim(lines[i]))), end)
            else Reads(lines, i, Ok(Some(KV(OpenerKey(lines[i]), Join(lines[i + 1..end], "\n")))), end + 1)
  {
    StepHeredoc(lines, i, end);
  }

  method ReadHeredoc(lines: seq<string>, i: nat) returns (r: Result<Option<KV>, KVError>, next: nat)
    requires i < |lines| && Trim(lines[i]) != "" && IsOpener(lines[i])
    ensures Reads(lines, i, r, next)
  {
    var key, delim := OpenerKey(lines[i]), OpenerDelim(lines[i]);
    if key == "" || delim == "" { return Err(MalformedOpener(lines[i])), i; }
    var body, end := ReadBody(lines, i + 1, delim);
    HeredocRead(lines, i, end);
    if end == |lines| { return Err(NotClosed(key, delim)), end; }
    return Ok(Some(KV(key, Join(body, "\n")))), end + 1;
  }

  method ParseKVFile(data: string) returns (r: Result<seq<KV>, KVError>)
    ensures r == ParseLines(SplitLines(data))
  {
    var out: seq<KV> := [];
    var lines := SplitLines(data);
    var i := 0;
    ghost var goal := ParseLines(lines);
    OntoNothing(goal);
    assert lines[0..] == lines;
    while i < |lines|
      invariant 0 <= i <= |lines|
      invariant goal == Onto(out, ParseLines(lines[i..]))
    {
      var entry, next := ReadEntry(lines, i);
      if entry.Err? { return Err(entry.error); }
      if entry.value.Some? {
        OntoNext(out, entry.value.value, ParseLines(lines[next..]));
        out := out + [entry.value.value];
      }
      i := next;
    }
    assert out + [] == out;
    r := Ok(out);
  }

  /** The lines up to the delimiter, and where it is; the end if it is missing. */
  method ReadBody(lines: seq<string>, start: nat, delim: string) returns (body: seq<string>, next: nat)
    requires start <= |lines|
    ensures start <= next <= |lines| && next - start == BodyLength(lines[start..], delim)
    ensures body == lines[start..next]
  {
    body, next := [], start;
    while next < |lines| && lines[next] != delim
      invariant start <= next <= |lines| && body == lines[start..next]
      invariant BodyLength(lines[start..], delim) == next - start + BodyLength(lines[next..], delim)
    {
      assert lines[next..][1..] == lines[next + 1..];
      body := body + [lines[next]];
      next := next + 1;
    }
  }

  // ---------------------------------------------------------------- writing and reading back

  /** A pair as a step may write it: on one line, or between delimiter lines. */
  datatype Entry = OneLine(key: string, value: string) | Heredoc(key: string, value: string, delim: string)

  predicate Trimmed(s: string) { s != "" && Trim(s) == s }

  predicate Plain(s: string) { '\n' !in s && '\r' !in s }

  /** Keys and delimiters are trimmed words, and nothing looks like what it is not. */
  predicate Writable(e: Entry) {
    && Trimmed(e.key) && Plain(e.key)
    && match e
       case OneLine(key, value) => Plain(value) && '=' !in key && !Contains(key + ("=" + value), "<<")
       case Heredoc(key, value, delim) =>
         && '<' !in key && Trimmed(delim) && Plain(delim) && '\r' !in value && delim !in Split(value, '\n')
  }

  function Written(e: Entry): string {
    match e
    case OneLine(key, value) => key + ("=" + value) + "\n"
    case Heredoc(key, value, delim) => key + ("<<" + delim) + "\n" + value + "\n" + delim + "\n"
  }

  function File(es: seq<Entry>): string {
    if es == [] then "" else Written(es[0]) + File(es[1..])
  }

  function Pairs(es: seq<Entry>): seq<KV> {
    seq(|es|, i requires 0 <= i < |es| => KV(es[i].key, es[i].value))
  }

  /** The lines of an entry. */
  function EntryLines(e: Entry): (r: seq<string>)
    ensures r != []
  {
    match e
    case OneLine(key, value) => [key + ("=" + value)]
    case Heredoc(key, value, delim) => [key + ("<<" + delim)] + (Split(value, '\n') + [delim])
  }

  function AllLines(es: seq<Entry>): seq<string> {
    if es == [] then [] else EntryLines(es[0]) + AllLines(es[1..])
  }

  /** Lines as text, each ended by a line feed. */
  function Unlines(ls: seq<string>): string {
    if ls == [] then "" else ls[0] + "\n" + Unlines(ls[1..])
  }

  lemma {:induction false} UnlinesConcat(a: seq<string>, b: seq<string>)
    ensures Unlines(a + b) == Unlines(a) + Unlines(b)
  {
    if a == [] {
      assert a + b == b;
    } else {
      UnlinesConcat(a[1..], b);
      assert (a + b)[0] == a[0] && (a + b)[1..] == a[1..] + b;
    }
  }

  lemma {:induction false} UnlinesJoin(ls: seq<string>)
    requires ls != []
    ensures Unlines(ls) == Join(ls, "\n") + "\n"
  {
    if |ls| > 1 {
      UnlinesJoin(ls[1..]);
      assert ls[0] + "\n" + (Join(ls[1..], "\n") + "\n") == ls[0] + "\n" + Join(ls[1..], "\n") + "\n";
    } else {
      assert ls[1..] == [];
      assert ls[0] + "\n" + "" == ls[0] + "\n";
    }
  }

  lemma EntryText(e: Entry)
    ensures Unlines(EntryLines(e)) == Written(e)
  {
    match e
    case OneLine(key, value) =>
      assert Unlines(EntryLines(e)[1..]) == "";
    case Heredoc(key, value, delim) =>
      var body := Split(value, '\n');
      var opener := key + ("<<" + delim);
      JoinSplit(value, '\n');
      UnlinesJoin(body);
      assert Unlines([delim]) == delim + "\n" + "" == delim + "\n";
      UnlinesConcat(body, [delim]);
      assert EntryLines(e)[0] == opener && EntryLines(e)[1..] == body + [delim];
      assert Unlines(EntryLines(e)) == opener + "\n" + (value + "\n" + (delim + "\n"));
  }

  lemma {:induction false} FileText(es: seq<Entry>)
    ensures Unlines(AllLines(es)) == File(es)
  {
    if es != [] {
      FileText(es[1..]);
      EntryText(es[0]);
      UnlinesConcat(EntryLines(es[0]), AllLines(es[1..]));
    }
  }

  predicate NoBreaks(ls: seq<string>) {
    forall i :: 0 <= i < |ls| ==> Plain(ls[i])
  }

  lemma {:induction false} UnixPlain(s: string)
    requires '\r' !in s
    ensures Unix(s) == s
  {
    if s != "" {
      UnixPlain(s[1..]);
      assert s == [s[0]] + s[1..];
    }
  }

  lemma {:induction false} UnlinesPlain(ls: seq<string>)
    requires NoBreaks(ls)
    ensures '\r' !in Unlines(ls)
  {
    if ls != [] { UnlinesPlain(ls[1..]); }
  }

  lemma BreakDropped(j: string)
    ensures WithoutLastBreak(j + "\n") == j && j + "\n" != ""
  {}

  /** Splitting into lines undoes ending each line. */
  lemma LinesRead(ls: seq<string>)
    requires NoBreaks(ls)
    ensures SplitLines(Unlines(ls)) == ls
  {
    UnlinesPlain(ls);
    UnixPlain(Unlines(ls));
    if ls != [] {
      UnlinesJoin(ls);
      BreakDropped(Join(ls, "\n"));
      SplitJoin(ls, '\n');
    }
  }

  lemma {:induction false} SplitPlainPieces(s: string)
    requires '\r' !in s
    ensures NoBreaks(Split(s, '\n'))
  {
    if s != "" { SplitPlainPieces(s[1..]); }
  }

  lemma EntryNoBreaks(e: Entry)
    requires Writable(e)
    ensures NoBreaks(EntryLines(e))
  {
    if e.Heredoc? { SplitPlainPieces(e.value); }
  }

  lemma {:induction false} AllNoBreaks(es: seq<Entry>)
    requires forall i :: 0 <= i < |es| ==> Writable(es[i])
    ensures NoBreaks(AllLines(es))
  {
    if es != [] {
      EntryNoBreaks(es[0]);
      AllNoBreaks(es[1..]);
    }
  }

  // ---------------------------------------------------------------- each entry is read as written

  lemma {:induction false} BodyFound(body: seq<string>, delim: string, rest: seq<string>)
    requires delim !in body
    ensures BodyLength(body + ([delim] + rest), delim) == |body|
  {
    var ls := body + ([delim] + rest);
    if body == [] {
      assert ls == [delim] + rest;
    } else {
      BodyFound(body[1..], delim, rest);
      assert ls[0] == body[0] && ls[1..] == body[1..] + ([delim] + rest);
    }
  }

  /** The first place of a mark behind a word that lacks its first character. */
  lemma FindBehind(word: string, mark: string, rest: string)
    requires mark != "" && mark[0] !in word
    ensures Find(word + (mark + rest), mark) == Some(|word|)
  {
    var s := word + (mark + rest);
    assert s[|word|..|word| + |mark|] == mark;
    assert OccursAt(s, mark, |word|);
    forall j | 0 <= j < |word|
      ensures !OccursAt(s, mark, j)
    {
      assert j + |mark| <= |s| ==> s[j..j + |mark|][0] == s[j];
    }
    FoundFirst(s, mark, Find(s, mark), |word|);
  }

  lemma NotBlank(word: string, rest: string)
    requires Trimmed(word)
    ensures Trim(word + rest) != ""
  {
    TrimmedEnds(word);
    var s := word + rest;
    assert s[0] == word[0];
    assert TrimLeft(s) == s;
    if rest == "" { assert s == word; } else { TrimRightKeepsFirst(s); }
  }

  lemma TrimmedEnds(word: string)
    requires Trimmed(word)
    ensures !IsSpace(word[0])
  {
    if IsSpace(word[0]) { TrimShrinks(word); }
  }

  lemma TrimShrinks(word: string)
    requires word != "" && IsSpace(word[0])
    ensures |Trim(word)| < |word|
  {
    TrimLeftLength(word[1..]);
    TrimRightLength(TrimLeft(word));
  }

  lemma {:induction false} TrimLeftLength(s: string)
    ensures |TrimLeft(s)| <= |s|
  {
    if s != "" && IsSpace(s[0]) { TrimLeftLength(s[1..]); }
  }

  lemma {:induction false} TrimRightLength(s: string)
    ensures |TrimRight(s)| <= |s|
  {
    if s != "" && IsSpace(s[|s| - 1]) { TrimRightLength(s[..|s| - 1]); }
  }

  lemma {:induction false} TrimRightKeepsFirst(s: string)
    requires s != "" && !IsSpace(s[0])
    ensures TrimRight(s) != ""
  {
    if IsSpace(s[|s| - 1]) { TrimRightKeepsFirst(s[..|s| - 1]); }
  }

  lemma OneLineReads(e: Entry, rest: seq<string>)
    requires Writable(e) && e.OneLine?
    ensures ParseLines(EntryLines(e) + rest) == Prepend(KV(e.key, e.value), ParseLines(rest))
  {
    var line := e.key + ("=" + e.value);
    var lines := EntryLines(e) + rest;
    assert lines[0] == line && lines[1..] == rest;
    NotBlank(e.key, "=" + e.value);
    FindBehind(e.key, "=", e.value);
    assert !IsOpener(line);
    assert line[..|e.key|] == e.key && line[|e.key| + 1..] == e.value;
  }

  lemma OpenerReads(e: Entry)
    requires Writable(e) && e.Heredoc?
    ensures var line := e.key + ("<<" + e.delim);
            Trim(line) != "" && IsOpener(line) && OpenerKey(line) == e.key && OpenerDelim(line) == e.delim
  {
    var line := e.key + ("<<" + e.delim);
    NotBlank(e.key, "<<" + e.delim);
    FindBehind(e.key, "<<", e.delim);
    assert line[..|e.key|] == e.key && line[|e.key| + 2..] == e.delim;
  }

  lemma HeredocParses(line: string, body: seq<string>, rest: seq<string>)
    requires Trim(line) != "" && IsOpener(line) && OpenerKey(line) != "" && OpenerDelim(line) != ""
    requires OpenerDelim(line) !in body
    ensures ParseLines([line] + (body + ([OpenerDelim(line)] + rest))) ==
            Prepend(KV(OpenerKey(line), Join(body, "\n")), ParseLines(rest))
  {
    var tail := body + ([OpenerDelim(line)] + rest);
    var lines := [line] + tail;
    var n := |body| + 1;
    assert lines[0 + 1..] == tail;
    BodyFound(body, OpenerDelim(line), rest);
    StepHeredoc(lines, 0, n);
    assert lines[0 + 1..n] == body && lines[n + 1..] == rest && lines[0..] == lines;
  }

  lemma HeredocReads(e: Entry, rest: seq<string>)
    requires Writable(e) && e.Heredoc?
    ensures ParseLines(EntryLines(e) + rest) == Prepend(KV(e.key, e.value), ParseLines(rest))
  {
    var line, body := e.key + ("<<" + e.delim), Split(e.value, '\n');
    OpenerReads(e);
    JoinSplit(e.value, '\n');
    HeredocParses(line, body, rest);
    Reassociate(line, body, e.delim, rest);
  }

  lemma Reassociate(line: string, body: seq<string>, delim: string, rest: seq<string>)
    ensures [line] + (body + [delim]) + rest == [line] + (body + ([delim] + rest))
  {}

  lemma {:induction false} EntriesRead(es: seq<Entry>)
    requires forall i :: 0 <= i < |es| ==> Writable(es[i])
    ensures ParseLines(AllLines(es)) == Ok(Pairs(es))
  {
    if es != [] {
      EntriesRead(es[1..]);
      if es[0].OneLine? {
        OneLineReads(es[0], AllLines(es[1..]));
      } else {
        HeredocReads(es[0], AllLines(es[1..]));
      }
      assert Pairs(es) == [KV(es[0].key, es[0].value)] + Pairs(es[1..]);
    } else {
      assert Pairs(es) == [];
    }
  }

  /** Parsing undoes writing, for any mix of one-line and heredoc entries. */
  lemma RoundTrip(es: seq<Entry>)
    requires forall i :: 0 <= i < |es| ==> Writable(es[i])
    ensures ParseLines(SplitLines(File(es))) == Ok(Pairs(es))
  {
    FileText(es);
    AllNoBreaks(es);
    LinesRead(AllLines(es));
    EntriesRead(es);
  }

  /** A line with a name, '=' and a value, whatever the value, is that pair with
      the name trimmed. */
  lemma OneLine(name: string, value: string)
    requires Trim(name) != "" && '=' !in name && !Contains(name + "=" + value, "<<") && Trim(name + "=" + value) != ""
    ensures ParseLines([name + "=" + value]) == Ok([KV(Trim(name), value)])
  {
    var line := name + "=" + value;
    FirstEquals(name, value);
    assert line[..|name|] == name && line[|name| + 1..] == value;
    assert Trim("") == "";
    NoOpener(line);
    StepLine([line], 0);
    assert [line][0..] == [line] && [line][1..] == [];
    assert [KV(Trim(name), value)] + [] == [KV(Trim(name), value)];
  }

  lemma FirstEquals(name: string, value: string)
    requires '=' !in name
    ensures Find(name + "=" + value, "=") == Some(|name|)
  {
    var line := name + "=" + value;
    assert line[|name|..|name| + 1] == "=";
    forall k | 0 <= k < |name|
      ensures !OccursAt(line, "=", k)
    {
      assert line[k..k + 1] == [name[k]];
    }
    FoundFirst(line, "=", Find(line, "="), |name|);
  }

  lemma NoOpener(line: string)
    requires !Contains(line, "<<")
    ensures !IsOpener(line)
  {}

  // ---------------------------------------------------------------- errors

  /** The line is a heredoc opener: << behind at least one character, first at i. */
  predicate OpensAt(line: string, i: int) {
    0 < i && OccursAt(line, "<<", i) && forall k :: 0 <= k < i ==> !OccursAt(line, "<<", k)
  }

  lemma OpenerIff(line: string)
    ensures IsOpener(line) <==> exists i :: OpensAt(line, i)
    ensures forall i :: OpensAt(line, i) ==> OpenerKey(line) == Trim(line[..i]) && OpenerDelim(line) == Trim(line[i + 2..])
  {
    var f := Find(line, "<<");
    if i :| OpensAt(line, i) {
      assert NoneBefore(line, "<<", i);
      FoundFirst(line, "<<", f, i);
    }
    if IsOpener(line) { assert OpensAt(line, f.value); }
  }

  /** The line opens a heredoc for this key, and the delimiter never follows. */
  ghost predicate LeftOpen(lines: seq<string>, i: int, key: string, delim: string) {
    && 0 <= i < |lines| && (exists k :: OpensAt(lines[i], k) && key == Trim(lines[i][..k]) && delim == Trim(lines[i][k + 2..]))
    && delim !in lines[i + 1..]
  }

  /** A line that sets nothing: not blank, no opener, and no name before a '='. */
  predicate SetsNothing(line: string) {
    Trim(line) != "" && !IsOpener(line) && ('=' !in line || line[0] == '=')
  }

  /** Every error names a line, or a heredoc, that really is at fault. */
  ghost predicate Faulty(lines: seq<string>, e: KVError) {
    match e
    case MalformedOpener(line) =>
      line in lines && exists i :: OpensAt(line, i) && (Trim(line[..i]) == "" || Trim(line[i + 2..]) == "")
    case NotClosed(key, delim) => exists i :: LeftOpen(lines, i, key, delim)
    case MalformedLine(line) => line in lines && SetsNothing(line)
  }

  lemma FaultyBehind(lines: seq<string>, n: nat, e: KVError)
    requires n <= |lines| && Faulty(lines[n..], e)
    ensures Faulty(lines, e)
  {
    if e.NotClosed? {
      var i :| LeftOpen(lines[n..], i, e.key, e.delim);
      assert lines[n..][i + 1..] == lines[n + i + 1..];
      assert LeftOpen(lines, n + i, e.key, e.delim);
    }
  }

  lemma NoEquals(line: string)
    ensures match Find(line, "=")
            case None => '=' !in line
            case Some(eq) => eq < |line| && line[eq] == '=' && '=' !in line[..eq]
  {
    var f := Find(line, "=");
    forall i | 0 <= i < |line| && line[i] == '='
      ensures OccursAt(line, "=", i)
    {
      assert line[i..i + 1] == [line[i]];
    }
    if f.Some? { assert line[f.value..f.value + 1] == [line[f.value]]; }
  }

  lemma {:induction false} ErrorsTell(lines: seq<string>, e: KVError)
    requires ParseLines(lines) == Err(e)
    ensures Faulty(lines, e)
    decreases |lines|
  {
    var line := lines[0];
    OpenerIff(line);
    NoEquals(line);
    if Trim(line) == "" {
      ErrorsTell(lines[1..], e);
      FaultyBehind(lines, 1, e);
    } else if IsOpener(line) {
      OpenerErrors(lines, e);
    } else if Find(line, "=").Some? && Find(line, "=").value > 0 {
      ErrorsTell(lines[1..], e);
      FaultyBehind(lines, 1, e);
    }
  }

  lemma {:induction false} OpenerErrors(lines: seq<string>, e: KVError)
    requires lines != [] && ParseLines(lines) == Err(e) && Trim(lines[0]) != "" && IsOpener(lines[0])
    ensures Faulty(lines, e)
    decreases |lines|, 0
  {
    var key, delim := OpenerKey(lines[0]), OpenerDelim(lines[0]);
    OpenerIff(lines[0]);
    var i :| OpensAt(lines[0], i);
    if key != "" && delim != "" {
      var n := BodyLength(lines[1..], delim);
      if n == |lines| - 1 {
        assert lines[1..][..n] == lines[1..];
        assert LeftOpen(lines, 0, key, delim);
      } else {
        assert lines[1..][n + 1..] == lines[n + 2..];
        ErrorsTell(lines[n + 2..], e);
        FaultyBehind(lines, n + 2, e);
      }
    }
  }

  // ---------------------------------------------------------------- applying

  function ApplyAll(env: map<string, string>, kvs: seq<KV>): map<string, string> {
    if kvs == [] then env
    else
      var n := |kvs| - 1;
      ApplyAll(env, kvs[..n])[kvs[n].key := kvs[n].value]
  }

  predicate IsLast(kvs: seq<KV>, key: string, i: int) {
    0 <= i < |kvs| && kvs[i].key == key && forall k :: i < k < |kvs| ==> kvs[k].key != key
  }

  /** Each key gets its last value. */
  lemma {:induction false} LastWins(env: map<string, string>, kvs: seq<KV>, key: string, i: nat)
    requires IsLast(kvs, key, i)
    ensures key in ApplyAll(env, kvs) && ApplyAll(env, kvs)[key] == kvs[i].value
    decreases |kvs|
  {
    var n := |kvs| - 1;
    if i < n {
      assert kvs[n].key != key && IsLast(kvs[..n], key, i);
      LastWins(env, kvs[..n], key, i);
    }
  }

  /** Other variables stay as they are. */
  lemma {:induction false} OthersStay(env: map<string, string>, kvs: seq<KV>, key: string)
    requires forall i :: 0 <= i < |kvs| ==> kvs[i].key != key
    ensures key in ApplyAll(env, kvs) <==> key in env
    ensures key in env ==> ApplyAll(env, kvs)[key] == env[key]
  {
    if kvs != [] { OthersStay(env, kvs[..|kvs| - 1], key); }
  }

  class Environment {
    var vars: map<string, string>

    constructor (vars: map<string, string>)
      ensures this.vars == vars
    {
      this.vars := vars;
    }

    method Apply(kvs: seq<KV>)
      modifies this
      ensures vars == ApplyAll(old(vars), kvs)
    {
      for i := 0 to |kvs|
        invariant vars == ApplyAll(old(vars), kvs[..i])
      {
        assert kvs[..i + 1][..i] == kvs[..i];
        vars := vars[kvs[i].key := kvs[i].value];
      }
      assert kvs[..|kvs|] == kvs;
    }
  }
}
