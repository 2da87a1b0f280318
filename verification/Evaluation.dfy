/** Values, environments, builtin functions and the evaluator
    (internal/workflow/expression: value.go, env.go, functions.go, eval.go).
    Number parsing and rendering and the JSON functions belong to the Go library;
    they are inputs of the model. */
module Evaluation {
  import opened Prelude
  import opened Lexing
  import opened Parsing
  import Txt = Text

  datatype Value =
    | VNull
    | VBool(b: bool)
    | VNumber(n: real)
    | VString(s: string)
    | VArray(items: seq<Value>)
    | VObject(fields: map<string, Value>)

  datatype Library = Library(
    parseFloat: string -> Option<real>,
    formatNumber: real -> string,
    toJson: Value -> Option<string>,
    fromJson: string -> Option<Value>)

  function FloatsOf(lib: Library): Floats {
    (s: string) => lib.parseFloat(s).Some?
  }

  /** The capability behind hashFiles(). */
  type Hasher = seq<string> -> Option<string>

  datatype Env = Env(contexts: map<string, Value>, hasher: Option<Hasher>) {
    function With(name: string, v: Value): Env {
      this.(contexts := contexts[Txt.Lower(name) := v])
    }
    function Lookup(name: string): Option<Value> {
      if Txt.Lower(name) in contexts then Some(contexts[Txt.Lower(name)]) else None
    }
  }

  const STATUS := "__jobstatus"

  function JobStatus(env: Env): string {
    match env.Lookup(STATUS)
    case Some(VString(s)) => s
    case _ => "success"
  }

  datatype EvalFault =
    | SyntaxFault(error: SyntaxError)
    | ContextUnavailable(want: string)
    | NotSupported(what: string)
    | BadCall(fn: string)

  type Outcome = Result<Value, EvalFault>

  // ---------------------------------------------------------------- values

  predicate Truthy(v: Value) {
    match v
    case VNull => false
    case VBool(b) => b
    case VNumber(n) => n != 0.0
    case VString(s) => s != ""
    case _ => true
  }

  lemma {:induction false} LeastExists(ks: set<string>)
    requires ks != {}
    ensures exists m :: m in ks && forall x :: x in ks ==> x == m || Txt.LexLess(m, x)
    decreases |ks|
  {
    var k :| k in ks;
    if ks != {k} {
      LeastExists(ks - {k});
      var m :| m in ks - {k} && forall x :: x in ks - {k} ==> x == m || Txt.LexLess(m, x);
      Txt.LexLessTotal(k, m);
      if Txt.LexLess(k, m) {
        forall x | x in ks
          ensures x == k || Txt.LexLess(k, x)
        {
          if x != k && x != m { Txt.LexLessTransitive(k, m, x); }
        }
      } else {
        assert forall x :: x in ks ==> x == m || Txt.LexLess(m, x);
      }
    }
  }

  /** The keys in byte order. */
  ghost function SortedKeys(ks: set<string>): (r: seq<string>)
    ensures forall k :: k in r <==> k in ks
    decreases |ks|
  {
    if ks == {} then []
    else
      LeastExists(ks);
      var m :| m in ks && forall x :: x in ks ==> x == m || Txt.LexLess(m, x);
      [m] + SortedKeys(ks - {m})
  }

  /** The display string. */
  ghost function Show(v: Value, lib: Library): string
    decreases v, 1
  {
    match v
    case VNull => ""
    case VBool(b) => if b then "true" else "false"
    case VNumber(n) => lib.formatNumber(n)
    case VString(s) => s
    case VArray(items) => Txt.Join(ShowAll(items, lib), ",")
    case VObject(fields) =>
      var keys := SortedKeys(fields.Keys);
      Txt.Join(seq(|keys|, i requires 0 <= i < |keys| => (assert keys[i] in keys; keys[i] + "=" + Show(fields[keys[i]], lib))), ",")
  }

  ghost function ShowAll(items: seq<Value>, lib: Library): seq<string>
    decreases items, 0
  {
    if items == [] then [] else [Show(items[0], lib)] + ShowAll(items[1..], lib)
  }

  predicate EqualFold(a: string, b: string) {
    Txt.Lower(a) == Txt.Lower(b)
  }

  function ToNumber(v: Value, lib: Library): Option<real> {
    match v
    case VNumber(n) => Some(n)
    case VBool(b) => Some(if b then 1.0 else 0.0)
    case VString(s) => lib.parseFloat(Txt.Trim(s))
    case _ => None
  }

  predicate SameKind(l: Value, r: Value) {
    match l
    case VNull => r.VNull?
    case VBool(_) => r.VBool?
    case VNumber(_) => r.VNumber?
    case VString(_) => r.VString?
    case VArray(_) => r.VArray?
    case VObject(_) => r.VObject?
  }

  ghost predicate LooseEqual(l: Value, r: Value, lib: Library) {
    if SameKind(l, r) then
      match l
      case VNull => true
      case VBool(b) => b == r.b
      case VNumber(n) => n == r.n
      case VString(s) => EqualFold(s, r.s)
      case _ => Show(l, lib) == Show(r, lib)
    else if l.VNull? && r.VString? then r.s == ""
    else if r.VNull? && l.VString? then l.s == ""
    else if l.VNumber? || r.VNumber? then
      var ln, rn := ToNumber(l, lib), ToNumber(r, lib);
      ln.Some? && rn.Some? && ln.value == rn.value
    else EqualFold(Show(l, lib), Show(r, lib))
  }

  /** -1, 0 or 1; None when the pair is not comparable. */
  function Compare(l: Value, r: Value, lib: Library): Option<int> {
    var ln, rn := ToNumber(l, lib), ToNumber(r, lib);
    if ln.Some? && rn.Some? && (l.VNumber? || r.VNumber?) then
      Some(if ln.value < rn.value then -1 else if ln.value > rn.value then 1 else 0)
    else if l.VString? && r.VString? then
      var a, b := Txt.Lower(l.s), Txt.Lower(r.s);
      Some(if Txt.LexLess(a, b) then -1 else if a == b then 0 else 1)
    else None
  }

  /** Float to integer conversion drops the fraction. */
  function Truncate(x: real): int {
    if x >= 0.0 then x.Floor else -((-x).Floor)
  }

  /** Exact key first, then some key equal but for case. A search of the source
      may meet any of them; see Lookups for all of its outcomes. */
  ghost function ObjKey(m: map<string, Value>, key: string): Value {
    if key in m then m[key]
    else if exists k :: k in m && EqualFold(k, key) then
      var k :| k in m && EqualFold(k, key); m[k]
    else VNull
  }

  ghost function MemberOf(obj: Value, prop: Value): Value {
    match obj
    case VObject(fields) => if prop.VString? then ObjKey(fields, prop.s) else VNull
    case VArray(items) =>
      if prop.VNumber? then
        var i := Truncate(prop.n);
        if 0 <= i < |items| then items[i] else VNull
      else VNull
    case _ => VNull
  }

  // ---------------------------------------------------------------- builtin functions

  predicate HasPrefix(s: string, p: string) { |p| <= |s| && s[..|p|] == p }
  predicate HasSuffix(s: string, p: string) { |p| <= |s| && s[|s| - |p|..] == p }

  /** A decimal integer with an optional sign. */
  function Atoi(s: string): Option<int> {
    if s == [] then None
    else if s[0] == '+' then DigitsValue(s[1..])
    else if s[0] == '-' then
      match DigitsValue(s[1..])
      case None => None
      case Some(n) => Some(-n)
    else DigitsValue(s)
  }

  function DigitsValue(s: string): Option<int> {
    if !Digits(s) then None else Some(DecimalOf(s))
  }

  function DecimalOf(s: string): nat
    requires forall i :: 0 <= i < |s| ==> IsDigit(s[i])
  {
    if s == [] then 0 else
      assert IsDigit(s[|s| - 1]);
      10 * DecimalOf(s[..|s| - 1]) + (s[|s| - 1] - '0') as nat
  }

  /** The position of the first c, or the length. */
  function IndexOf(s: string, c: char): (i: nat)
    ensures i <= |s| && (i < |s| ==> s[i] == c) && c !in s[..i]
  {
    if s == [] || s[0] == c then 0 else
      var j := IndexOf(s[1..], c);
      assert s[..j + 1] == [s[0]] + s[1..][..j];
      j + 1
  }

  /** {i} stands for argument i, doubled braces for a brace. */
  function Format(tpl: string, args: seq<string>): Option<string>
    decreases |tpl|
  {
    if tpl == [] then Some("")
    else if tpl[0] == '{' then
      if |tpl| > 1 && tpl[1] == '{' then Prepend("{", Format(tpl[2..], args))
      else
        var end := IndexOf(tpl, '}');
        if end == |tpl| then None
        else
          match Atoi(tpl[1..end])
          case None => None
          case Some(i) => if 0 <= i < |args| then Prepend(args[i], Format(tpl[end + 1..], args)) else None
    else if tpl[0] == '}' then
      if |tpl| > 1 && tpl[1] == '}' then Prepend("}", Format(tpl[2..], args)) else None
    else Prepend([tpl[0]], Format(tpl[1..], args))
  }

  function Prepend(s: string, r: Option<string>): Option<string> {
    match r
    case None => None
    case Some(t) => Some(s + t)
  }

  ghost function CallBuiltin(fn: string, env: Env, args: seq<Value>, lib: Library): Outcome {
    var name := Txt.Lower(fn);
    if name == "success" then Ok(VBool(JobStatus(env) == "success"))
    else if name == "failure" then Ok(VBool(JobStatus(env) == "failure"))
    else if name == "cancelled" then Ok(VBool(JobStatus(env) == "cancelled"))
    else if name == "always" then Ok(VBool(true))
    else if name == "hashfiles" then HashFiles(env, args)
    else if name == "contains" then
      if |args| != 2 then Err(BadCall(fn))
      else if args[0].VArray? then Ok(VBool(exists i :: 0 <= i < |args[0].items| && LooseEqual(args[0].items[i], args[1], lib)))
      else Ok(VBool(Txt.Contains(Txt.Lower(Show(args[0], lib)), Txt.Lower(Show(args[1], lib)))))
    else if name == "startswith" then
      if |args| != 2 then Err(BadCall(fn))
      else Ok(VBool(HasPrefix(Txt.Lower(Show(args[0], lib)), Txt.Lower(Show(args[1], lib)))))
    else if name == "endswith" then
      if |args| != 2 then Err(BadCall(fn))
      else Ok(VBool(HasSuffix(Txt.Lower(Show(args[0], lib)), Txt.Lower(Show(args[1], lib)))))
    else if name == "format" then
      if args == [] then Err(BadCall(fn))
      else
        match Format(Show(args[0], lib), ShowAll(args[1..], lib))
        case None => Err(BadCall(fn))
        case Some(s) => Ok(VString(s))
    else if name == "join" then
      if |args| != 1 && |args| != 2 then Err(BadCall(fn))
      else
        var sep := if |args| == 2 then Show(args[1], lib) else ",";
        Ok(VString(if args[0].VArray? then Txt.Join(ShowAll(args[0].items, lib), sep) else Show(args[0], lib)))
    else if name == "tojson" then
      if |args| != 1 then Err(BadCall(fn))
      else
        match lib.toJson(args[0])
        case None => Err(BadCall(fn))
        case Some(s) => Ok(VString(s))
    else if name == "fromjson" then
      if |args| != 1 then Err(BadCall(fn))
      else
        match lib.fromJson(Show(args[0], lib))
        case None => Err(BadCall(fn))
        case Some(v) => Ok(v)
    else Err(NotSupported(fn))
  }

  function Texts(args: seq<Value>): (r: seq<string>)
    ensures |r| == |args| && forall i :: 0 <= i < |args| && args[i].VString? ==> r[i] == args[i].s
  {
    seq(|args|, i requires 0 <= i < |args| => if args[i].VString? then args[i].s else "")
  }

  function HashFiles(env: Env, args: seq<Value>): Outcome {
    if args == [] || exists i :: 0 <= i < |args| && (!args[i].VString? || '\0' in args[i].s) then Err(BadCall("hashFiles"))
    else if env.hasher.None? then Err(NotSupported("hashFiles"))
    else
      match env.hasher.value(Texts(args))
      case None => Err(BadCall("hashFiles"))
      case Some(sum) => Ok(VString(sum))
  }

  predicate KnownFunction(fn: string) {
    Txt.Lower(fn) in {"hashfiles", "success", "failure", "cancelled", "always", "contains", "startswith",
                      "endswith", "format", "join", "tojson", "fromjson"}
  }

  // ---------------------------------------------------------------- evaluation

  /** Every context lookup that misses is an error, never null; && and || return
      an operand and evaluate the right one only when needed. An unknown function
      is refused before its arguments are evaluated. */
  ghost function Eval(n: Node, env: Env, lib: Library): Outcome
    decreases n, 1
  {
    match n
    case Null => Ok(VNull)
    case Boolean(b) => Ok(VBool(b))
    case Num(lexeme) =>
      (match lib.parseFloat(lexeme)
       case None => Ok(VNumber(0.0))
       case Some(x) => Ok(VNumber(x)))
    case Text(s) => Ok(VString(s))
    case Name(name) =>
      (match env.Lookup(name)
       case None => Err(ContextUnavailable(name))
       case Some(v) => Ok(v))
    case Member(obj, prop) =>
      var o :- Eval(obj, env, lib);
      var p :- Eval(prop, env, lib);
      Ok(MemberOf(o, p))
    case Not(x) =>
      var v :- Eval(x, env, lib);
      Ok(VBool(!Truthy(v)))
    case Binary(op, l, r) =>
      var a :- Eval(l, env, lib);
      if op.And? && !Truthy(a) then Ok(a)
      else if op.Or? && Truthy(a) then Ok(a)
      else
        var b :- Eval(r, env, lib);
        Ok(Combine(op, a, b, lib))
    case Call(fn, args) =>
      if !KnownFunction(fn) then Err(NotSupported(fn))
      else
        var vs :- EvalArgs(args, env, lib);
        CallBuiltin(fn, env, vs, lib)
  }

  ghost function Combine(op: BinOp, a: Value, b: Value, lib: Library): Value {
    match op
    case And => b
    case Or => b
    case Eq => VBool(LooseEqual(a, b, lib))
    case Ne => VBool(!LooseEqual(a, b, lib))
    case Lt => VBool(Compare(a, b, lib).Some? && Compare(a, b, lib).value < 0)
    case Le => VBool(Compare(a, b, lib).Some? && Compare(a, b, lib).value <= 0)
    case Gt => VBool(Compare(a, b, lib).Some? && Compare(a, b, lib).value > 0)
    case Ge => VBool(Compare(a, b, lib).Some? && Compare(a, b, lib).value >= 0)
  }

  ghost function EvalArgs(args: seq<Node>, env: Env, lib: Library): Result<seq<Value>, EvalFault>
    decreases args, 0
  {
    if args == [] then Ok([])
    else
      var v :- Eval(args[0], env, lib);
      var vs :- EvalArgs(args[1..], env, lib);
      Ok([v] + vs)
  }

  ghost function EvalText(s: string, env: Env, lib: Library): Outcome {
    match Parse(s, FloatsOf(lib))
    case Err(e) => Err(SyntaxFault(e))
    case Ok(n) => Eval(n, env, lib)
  }

  // ---------------------------------------------------------------- two phases, one meaning

  /** later keeps what env offers: every context, the absence of a job status,
      and the hasher if there is one. */
  ghost predicate Continues(env: Env, later: Env) {
    && (forall k :: k in env.contexts ==> k in later.contexts && later.contexts[k] == env.contexts[k])
    && (STATUS !in env.contexts ==> STATUS !in later.contexts)
    && (env.hasher.Some? ==> later.hasher == env.hasher)
  }

  lemma StatusKept(env: Env, later: Env)
    requires Continues(env, later)
    ensures JobStatus(later) == JobStatus(env)
  {
    assert Txt.Lower(STATUS) == STATUS;
  }

  lemma BuiltinKept(fn: string, env: Env, later: Env, args: seq<Value>, lib: Library)
    requires Continues(env, later) && CallBuiltin(fn, env, args, lib).Ok?
    ensures CallBuiltin(fn, later, args, lib) == CallBuiltin(fn, env, args, lib)
  {
    StatusKept(env, later);
  }

  /** The absence of a job status has to be kept: adding one changes success(). */
  lemma AddedStatusChangesMeaning(env: Env, lib: Library)
    requires STATUS !in env.contexts
    ensures Eval(Call("success", []), env, lib) == Ok(VBool(true))
    ensures Eval(Call("success", []), env.With(STATUS, VString("failure")), lib) == Ok(VBool(false))
  {
    assert Txt.Lower(STATUS) == STATUS;
    assert Txt.Lower("success") == "success";
  }
}
