/** What an evaluation can yield when a search through an object's keys may meet
    them in any order (internal/workflow/expression/eval.go): all outcomes, when
    there is only one, and what that gives for the two phases. */
module Lookups {
  import opened Prelude
  import opened Lexing
  import opened Parsing
  import opened Printing
  import opened ParserCalls
  import opened Evaluation
  import Txt = Text

  // ---------------------------------------------------------------- all outcomes

  /** A key of the object equal to the wanted one but for case. */
  predicate IsVariant(m: map<string, Value>, key: string, k: string) {
    k in m && EqualFold(k, key)
  }

  /** The exact key wins; otherwise the search returns whichever variant it meets
      first, in this search. */
  ghost predicate CanFind(m: map<string, Value>, key: string, v: Value) {
    if key in m then v == m[key]
    else if exists k :: IsVariant(m, key, k) then exists k :: IsVariant(m, key, k) && v == m[k]
    else v == VNull
  }

  ghost predicate CanRead(obj: Value, prop: Value, v: Value) {
    if obj.VObject? && prop.VString? then CanFind(obj.fields, prop.s, v) else v == MemberOf(obj, prop)
  }

  /** The evaluation can end in this outcome. */
  ghost predicate Evals(n: Node, env: Env, lib: Library, out: Outcome)
    decreases n, 1
  {
    match n
    case Member(obj, prop) => exists o :: Evals(obj, env, lib, o) && ReadEnds(prop, env, lib, o, out)
    case Not(x) => exists o :: Evals(x, env, lib, o) && out == Negated(o)
    case Binary(op, l, r) => exists o :: Evals(l, env, lib, o) && OperandEnds(op, r, env, lib, o, out)
    case Call(fn, args) =>
      if !KnownFunction(fn) then out == Err(NotSupported(fn))
      else exists vs :: EvalsArgs(args, env, lib, vs) && out == Called(fn, env, vs, lib)
    case _ => out == Eval(n, env, lib)
  }

  ghost predicate ReadEnds(prop: Node, env: Env, lib: Library, o: Outcome, out: Outcome)
    decreases prop, 2
  {
    match o
    case Err(f) => out == Err(f)
    case Ok(obj) => exists p :: Evals(prop, env, lib, p) && PropertyEnds(obj, p, out)
  }

  ghost predicate PropertyEnds(obj: Value, p: Outcome, out: Outcome) {
    match p
    case Err(f) => out == Err(f)
    case Ok(prop) => out.Ok? && CanRead(obj, prop, out.value)
  }

  function Negated(o: Outcome): Outcome {
    match o
    case Err(f) => Err(f)
    case Ok(v) => Ok(VBool(!Truthy(v)))
  }

  ghost predicate OperandEnds(op: BinOp, r: Node, env: Env, lib: Library, o: Outcome, out: Outcome)
    decreases r, 2
  {
    match o
    case Err(f) => out == Err(f)
    case Ok(a) =>
      if (op.And? && !Truthy(a)) || (op.Or? && Truthy(a)) then out == Ok(a)
      else exists p :: Evals(r, env, lib, p) && out == Combined(op, a, p, lib)
  }

  ghost function Combined(op: BinOp, a: Value, p: Outcome, lib: Library): Outcome {
    match p
    case Err(f) => Err(f)
    case Ok(b) => Ok(Combine(op, a, b, lib))
  }

  ghost function Called(fn: string, env: Env, vs: Result<seq<Value>, EvalFault>, lib: Library): Outcome {
    match vs
    case Err(f) => Err(f)
    case Ok(xs) => CallBuiltin(fn, env, xs, lib)
  }

  ghost predicate EvalsArgs(args: seq<Node>, env: Env, lib: Library, out: Result<seq<Value>, EvalFault>)
    decreases args, 0
  {
    if args == [] then out == Ok([])
    else exists o :: Evals(args[0], env, lib, o) && ArgsEnd(args[1..], env, lib, o, out)
  }

  ghost predicate ArgsEnd(rest: seq<Node>, env: Env, lib: Library, o: Outcome, out: Result<seq<Value>, EvalFault>)
    decreases rest, 2
  {
    match o
    case Err(f) => out == Err(f)
    case Ok(v) => exists p :: EvalsArgs(rest, env, lib, p) && out == Consed(v, p)
  }

  function Consed(v: Value, p: Result<seq<Value>, EvalFault>): Result<seq<Value>, EvalFault> {
    match p
    case Err(f) => Err(f)
    case Ok(vs) => Ok([v] + vs)
  }

  lemma VariantsOf(m: map<string, Value>, key: string)
    ensures (exists k :: IsVariant(m, key, k)) <==> (exists k :: k in m && EqualFold(k, key))
  {
    if exists k :: IsVariant(m, key, k) {
      var k :| IsVariant(m, key, k);
      assert k in m && EqualFold(k, key);
    }
    if exists k :: k in m && EqualFold(k, key) {
      var k :| k in m && EqualFold(k, key);
      assert IsVariant(m, key, k);
    }
  }

  /** The evaluator's search picks one of what it can find. */
  lemma KeyFound(m: map<string, Value>, key: string)
    ensures CanFind(m, key, ObjKey(m, key))
  {
    VariantsOf(m, key);
    if key !in m && exists k :: k in m && EqualFold(k, key) {
      var k :| k in m && EqualFold(k, key) && ObjKey(m, key) == m[k];
      assert IsVariant(m, key, k);
    }
  }

  lemma MemberFound(obj: Value, prop: Value)
    ensures CanRead(obj, prop, MemberOf(obj, prop))
  {
    if obj.VObject? && prop.VString? { KeyFound(obj.fields, prop.s); }
  }

  /** The evaluator's fixed choice is one of the outcomes. */
  lemma {:induction false} EvalIsPossible(n: Node, env: Env, lib: Library)
    ensures Evals(n, env, lib, Eval(n, env, lib))
    decreases n, 1
  {
    match n
    case Member(obj, prop) =>
      EvalIsPossible(obj, env, lib);
      EvalIsPossible(prop, env, lib);
      var o, p := Eval(obj, env, lib), Eval(prop, env, lib);
      if o.Ok? && p.Ok? { MemberFound(o.value, p.value); }
      if o.Ok? { assert PropertyEnds(o.value, p, Eval(n, env, lib)); }
      assert ReadEnds(prop, env, lib, o, Eval(n, env, lib));
    case Not(x) => EvalIsPossible(x, env, lib);
    case Binary(op, l, r) =>
      EvalIsPossible(l, env, lib);
      EvalIsPossible(r, env, lib);
      assert OperandEnds(op, r, env, lib, Eval(l, env, lib), Eval(n, env, lib));
    case Call(fn, args) => ArgsArePossible(args, env, lib);
    case _ =>
  }

  lemma {:induction false} ArgsArePossible(args: seq<Node>, env: Env, lib: Library)
    ensures EvalsArgs(args, env, lib, EvalArgs(args, env, lib))
    decreases args, 0
  {
    if args != [] {
      EvalIsPossible(args[0], env, lib);
      ArgsArePossible(args[1..], env, lib);
      assert ArgsEnd(args[1..], env, lib, Eval(args[0], env, lib), EvalArgs(args, env, lib));
    }
  }

  // ---------------------------------------------------------------- when there is only one

  /** Every key that is not there in its exact spelling has variants of one value at most. */
  ghost predicate SteadyMap(m: map<string, Value>) {
    forall key, a, b :: IsVariant(m, key, a) && IsVariant(m, key, b) && key !in m ==> m[a] == m[b]
  }

  /** So it is in all objects within the value. */
  ghost predicate Steady(v: Value) {
    match v
    case VArray(items) => forall i :: 0 <= i < |items| ==> Steady(items[i])
    case VObject(fields) => SteadyMap(fields) && forall k :: k in fields ==> Steady(fields[k])
    case _ => true
  }

  /** One search has one result exactly when the key is there or its variants agree. */
  lemma FindsOneIff(m: map<string, Value>, key: string)
    ensures (forall v, w :: CanFind(m, key, v) && CanFind(m, key, w) ==> v == w) <==>
            (key in m || forall a, b :: IsVariant(m, key, a) && IsVariant(m, key, b) ==> m[a] == m[b])
  {
    if key !in m && exists a, b :: IsVariant(m, key, a) && IsVariant(m, key, b) && m[a] != m[b] {
      var a, b :| IsVariant(m, key, a) && IsVariant(m, key, b) && m[a] != m[b];
      assert CanFind(m, key, m[a]) && CanFind(m, key, m[b]);
    }
  }

  /** Contexts an expression can name. */
  predicate Nameable(c: string) {
    IsIdent(c) && Txt.Lower(c) == c
  }

  ghost predicate SteadyEnv(env: Env) {
    forall c :: c in env.contexts && Nameable(c) ==> Steady(env.contexts[c])
  }

  ghost predicate SteadyJson(lib: Library) {
    forall s :: lib.fromJson(s).Some? ==> Steady(lib.fromJson(s).value)
  }

  const JsonFunctions := {"fromjson"}

  /** The tree reads no JSON, or the JSON read is steady. */
  ghost predicate JsonOk(n: Node, lib: Library) {
    SteadyJson(lib) || !Calls(n, JsonFunctions)
  }

  lemma LowerNameable(c: string)
    requires IsIdent(c)
    ensures Nameable(Txt.Lower(c))
  {
    var l := Txt.Lower(c);
    assert forall i :: 0 <= i < |l| ==> l[i] == Txt.LowerChar(c[i]) && IsIdentPart(c[i]);
  }

  lemma KeySteady(m: map<string, Value>, key: string, v: Value)
    requires SteadyMap(m) && CanFind(m, key, v)
    ensures v == ObjKey(m, key) && (v == VNull || exists k :: k in m && v == m[k])
  {
    KeyFound(m, key);
    VariantsOf(m, key);
  }

  lemma ReadsSteady(obj: Value, prop: Value, v: Value)
    requires Steady(obj) && CanRead(obj, prop, v)
    ensures v == MemberOf(obj, prop) && Steady(v)
  {
    if obj.VObject? && prop.VString? { KeySteady(obj.fields, prop.s, v); }
  }

  ghost predicate SteadyOutcome(out: Outcome) { out.Ok? ==> Steady(out.value) }

  lemma BuiltinSteady(fn: string, env: Env, vs: seq<Value>, lib: Library)
    requires SteadyJson(lib) || Txt.Lower(fn) !in JsonFunctions
    ensures SteadyOutcome(CallBuiltin(fn, env, vs, lib))
  {}

  lemma CombineSteady(op: BinOp, a: Value, b: Value, lib: Library)
    requires Steady(b)
    ensures Steady(Combine(op, a, b, lib))
  {}

  /** With steady contexts, and no unsteady JSON, an expression has one outcome,
      in whatever order objects are searched. */
  lemma {:induction false} OneOutcome(n: Node, env: Env, lib: Library, out: Outcome)
    requires WellFormed(n, FloatsOf(lib)) && SteadyEnv(env) && JsonOk(n, lib) && Evals(n, env, lib, out)
    ensures out == Eval(n, env, lib) && SteadyOutcome(out)
    decreases n, 1
  {
    match n
    case Name(name) => LowerNameable(name);
    case Member(obj, prop) =>
      var o :| Evals(obj, env, lib, o) && ReadEnds(prop, env, lib, o, out);
      OneOutcome(obj, env, lib, o);
      if o.Ok? {
        var p :| Evals(prop, env, lib, p) && PropertyEnds(o.value, p, out);
        OneOutcome(prop, env, lib, p);
        if p.Ok? { ReadsSteady(o.value, p.value, out.value); }
      }
    case Not(x) =>
      var o :| Evals(x, env, lib, o) && out == Negated(o);
      OneOutcome(x, env, lib, o);
    case Binary(op, l, r) =>
      var o :| Evals(l, env, lib, o) && OperandEnds(op, r, env, lib, o, out);
      OneOutcome(l, env, lib, o);
      OneOperand(op, r, env, lib, o, out);
    case Call(fn, args) =>
      if KnownFunction(fn) {
        var vs :| EvalsArgs(args, env, lib, vs) && out == Called(fn, env, vs, lib);
        OneArgs(args, env, lib, vs);
        if vs.Ok? { BuiltinSteady(fn, env, vs.value, lib); }
      }
    case _ =>
  }

  lemma {:induction false} OneOperand(op: BinOp, r: Node, env: Env, lib: Library, o: Outcome, out: Outcome)
    requires WellFormed(r, FloatsOf(lib)) && SteadyEnv(env) && JsonOk(r, lib) && SteadyOutcome(o) && OperandEnds(op, r, env, lib, o, out)
    ensures SteadyOutcome(out)
    ensures match o
            case Err(f) => out == Err(f)
            case Ok(a) => out == if (op.And? && !Truthy(a)) || (op.Or? && Truthy(a)) then Ok(a)
                                 else Combined(op, a, Eval(r, env, lib), lib)
    decreases r, 2
  {
    if o.Ok? && !((op.And? && !Truthy(o.value)) || (op.Or? && Truthy(o.value))) {
      var p :| Evals(r, env, lib, p) && out == Combined(op, o.value, p, lib);
      OneOutcome(r, env, lib, p);
      if p.Ok? { CombineSteady(op, o.value, p.value, lib); }
    }
  }

  ghost predicate ArgsWellFormed(args: seq<Node>, lib: Library) {
    forall i :: 0 <= i < |args| ==> WellFormed(args[i], FloatsOf(lib))
  }

  lemma {:induction false} OneArgs(args: seq<Node>, env: Env, lib: Library, out: Result<seq<Value>, EvalFault>)
    requires ArgsWellFormed(args, lib) && SteadyEnv(env) && (SteadyJson(lib) || !CallsAny(args, JsonFunctions))
    requires EvalsArgs(args, env, lib, out)
    ensures out == EvalArgs(args, env, lib)
    decreases args, 0
  {
    if args != [] {
      var o :| Evals(args[0], env, lib, o) && ArgsEnd(args[1..], env, lib, o, out);
      OneOutcome(args[0], env, lib, o);
      if o.Ok? {
        var p :| EvalsArgs(args[1..], env, lib, p) && out == Consed(o.value, p);
        assert forall i :: 0 <= i < |args[1..]| ==> args[1..][i] == args[i + 1];
        OneArgs(args[1..], env, lib, p);
      }
    }
  }

  // ---------------------------------------------------------------- exactly then

  /** Some lexeme denotes each index; so it is for the decimal numbers. */
  predicate Denotes(lib: Library, x: string, i: nat) {
    lib.parseFloat(x) == Some(i as real)
  }

  ghost predicate HasIndex(lib: Library, i: nat) {
    exists x :: IsNumber(x) && Denotes(lib, x, i)
  }

  ghost predicate ReadsIndexes(lib: Library) {
    forall i: nat :: HasIndex(lib, i)
  }

  /** An expression the parser can build, without fromJSON. */
  ghost predicate Plain(n: Node, lib: Library) {
    WellFormed(n, FloatsOf(lib)) && !Calls(n, JsonFunctions)
  }

  /** The expression can end in two ways. */
  ghost predicate Ambiguous(n: Node, env: Env, lib: Library) {
    exists a, b :: Evals(n, env, lib, a) && Evals(n, env, lib, b) && a != b
  }

  lemma ReadsKey(n: Node, key: string, fields: map<string, Value>, v: Value, env: Env, lib: Library)
    requires Evals(n, env, lib, Ok(VObject(fields))) && CanFind(fields, key, v)
    ensures Evals(Member(n, Text(key)), env, lib, Ok(v))
  {
    var p: Outcome := Ok(VString(key));
    assert Evals(Text(key), env, lib, p);
    assert PropertyEnds(VObject(fields), p, Ok(v));
    assert ReadEnds(Text(key), env, lib, Ok(VObject(fields)), Ok(v));
  }

  lemma ReadsItem(n: Node, x: string, i: nat, items: seq<Value>, env: Env, lib: Library)
    requires Evals(n, env, lib, Ok(VArray(items))) && i < |items| && Denotes(lib, x, i)
    ensures Evals(Member(n, Num(x)), env, lib, Ok(items[i]))
  {
    var p: Outcome := Ok(VNumber(i as real));
    assert Evals(Num(x), env, lib, p);
    assert Truncate(i as real) == i;
    assert PropertyEnds(VArray(items), p, Ok(items[i]));
    assert ReadEnds(Num(x), env, lib, Ok(VArray(items)), Ok(items[i]));
  }

  lemma AmbiguousKey(n: Node, fields: map<string, Value>, env: Env, lib: Library) returns (key: string)
    requires Evals(n, env, lib, Ok(VObject(fields))) && !SteadyMap(fields)
    ensures Ambiguous(Member(n, Text(key)), env, lib)
  {
    var k, a, b :| IsVariant(fields, k, a) && IsVariant(fields, k, b) && k !in fields && fields[a] != fields[b];
    key := k;
    assert CanFind(fields, key, fields[a]) && CanFind(fields, key, fields[b]);
    ReadsKey(n, key, fields, fields[a], env, lib);
    ReadsKey(n, key, fields, fields[b], env, lib);
  }

  lemma UnsteadyField(n: Node, fields: map<string, Value>, env: Env, lib: Library) returns (k: string)
    requires Plain(n, lib) && Evals(n, env, lib, Ok(VObject(fields))) && SteadyMap(fields) && !Steady(VObject(fields))
    ensures k in fields && !Steady(fields[k]) && Plain(Member(n, Text(k)), lib) && Evals(Member(n, Text(k)), env, lib, Ok(fields[k]))
  {
    k :| k in fields && !Steady(fields[k]);
    ReadsKey(n, k, fields, fields[k], env, lib);
  }

  lemma UnsteadyItem(n: Node, items: seq<Value>, env: Env, lib: Library) returns (i: nat, x: string)
    requires Plain(n, lib) && Evals(n, env, lib, Ok(VArray(items))) && !Steady(VArray(items)) && ReadsIndexes(lib)
    ensures i < |items| && !Steady(items[i]) && Plain(Member(n, Num(x)), lib) && Evals(Member(n, Num(x)), env, lib, Ok(items[i]))
  {
    i :| 0 <= i < |items| && !Steady(items[i]);
    assert HasIndex(lib, i);
    x :| IsNumber(x) && Denotes(lib, x, i);
    ReadsItem(n, x, i, items, env, lib);
  }

  /** Some path into an unsteady value ends in two ways. */
  lemma {:induction false} AmbiguousPath(n: Node, v: Value, env: Env, lib: Library) returns (r: Node)
    requires Plain(n, lib) && Evals(n, env, lib, Ok(v)) && !Steady(v) && ReadsIndexes(lib)
    ensures Plain(r, lib) && Ambiguous(r, env, lib)
    decreases v
  {
    match v
    case VObject(fields) =>
      if !SteadyMap(fields) {
        var key := AmbiguousKey(n, fields, env, lib);
        r := Member(n, Text(key));
      } else {
        var k := UnsteadyField(n, fields, env, lib);
        r := AmbiguousPath(Member(n, Text(k)), fields[k], env, lib);
      }
    case VArray(items) =>
      var i, x := UnsteadyItem(n, items, env, lib);
      r := AmbiguousPath(Member(n, Num(x)), items[i], env, lib);
  }

  /** A spelling of a context name that is no keyword. */
  function Spelling(c: string): string {
    if c == "null" then "NULL" else if c == "true" then "TRUE" else if c == "false" then "FALSE" else c
  }

  lemma SpellingOk(c: string)
    requires Nameable(c)
    ensures IsIdent(Spelling(c)) && !Keyword(Spelling(c)) && Txt.Lower(Spelling(c)) == c
  {
    assert Txt.Lower("NULL") == "null" && Txt.Lower("TRUE") == "true" && Txt.Lower("FALSE") == "false";
  }

  /** Every expression without fromJSON has one outcome in an environment exactly
      when all its contexts are steady. */
  lemma OneOutcomeIff(env: Env, lib: Library)
    requires ReadsIndexes(lib)
    ensures (forall n :: Plain(n, lib) ==> !Ambiguous(n, env, lib)) <==> SteadyEnv(env)
  {
    if SteadyEnv(env) {
      forall n | Plain(n, lib)
        ensures !Ambiguous(n, env, lib)
      {
        NotAmbiguous(n, env, lib);
      }
    } else {
      var c :| c in env.contexts && Nameable(c) && !Steady(env.contexts[c]);
      SpellingOk(c);
      var n := Name(Spelling(c));
      assert Evals(n, env, lib, Ok(env.contexts[c]));
      var r := AmbiguousPath(n, env.contexts[c], env, lib);
    }
  }

  lemma NotAmbiguous(n: Node, env: Env, lib: Library)
    requires WellFormed(n, FloatsOf(lib)) && SteadyEnv(env) && JsonOk(n, lib)
    ensures !Ambiguous(n, env, lib)
  {
    forall a, b | Evals(n, env, lib, a) && Evals(n, env, lib, b)
      ensures a == b
    {
      OneOutcome(n, env, lib, a);
      OneOutcome(n, env, lib, b);
    }
  }

  // ---------------------------------------------------------------- two phases, one meaning

  /** Where an expression evaluates over steady contexts, a later phase can only
      end in the same value, whatever is searched in whichever order. */
  lemma {:induction false} LaterOutcome(n: Node, env: Env, later: Env, lib: Library, out: Outcome)
    requires WellFormed(n, FloatsOf(lib)) && SteadyEnv(env) && JsonOk(n, lib) && Continues(env, later)
    requires Eval(n, env, lib).Ok? && Evals(n, later, lib, out)
    ensures out == Eval(n, env, lib)
    decreases n, 1
  {
    match n
    case Member(obj, prop) =>
      var o :| Evals(obj, later, lib, o) && ReadEnds(prop, later, lib, o, out);
      LaterOutcome(obj, env, later, lib, o);
      var p :| Evals(prop, later, lib, p) && PropertyEnds(o.value, p, out);
      LaterOutcome(prop, env, later, lib, p);
      EvalIsPossible(obj, env, lib);
      OneOutcome(obj, env, lib, o);
      ReadsSteady(o.value, p.value, out.value);
    case Not(x) =>
      var o :| Evals(x, later, lib, o) && out == Negated(o);
      LaterOutcome(x, env, later, lib, o);
    case Binary(op, l, r) =>
      var o :| Evals(l, later, lib, o) && OperandEnds(op, r, later, lib, o, out);
      LaterOutcome(l, env, later, lib, o);
      if !((op.And? && !Truthy(o.value)) || (op.Or? && Truthy(o.value))) {
        var p :| Evals(r, later, lib, p) && out == Combined(op, o.value, p, lib);
        LaterOutcome(r, env, later, lib, p);
      }
    case Call(fn, args) =>
      var vs :| EvalsArgs(args, later, lib, vs) && out == Called(fn, later, vs, lib);
      LaterArgs(args, env, later, lib, vs);
      BuiltinKept(fn, env, later, vs.value, lib);
    case _ =>
  }

  lemma {:induction false} LaterArgs(args: seq<Node>, env: Env, later: Env, lib: Library, out: Result<seq<Value>, EvalFault>)
    requires ArgsWellFormed(args, lib) && SteadyEnv(env) && (SteadyJson(lib) || !CallsAny(args, JsonFunctions))
    requires Continues(env, later) && EvalArgs(args, env, lib).Ok? && EvalsArgs(args, later, lib, out)
    ensures out == EvalArgs(args, env, lib)
    decreases args, 0
  {
    if args != [] {
      var o :| Evals(args[0], later, lib, o) && ArgsEnd(args[1..], later, lib, o, out);
      LaterOutcome(args[0], env, later, lib, o);
      var p :| EvalsArgs(args[1..], later, lib, p) && out == Consed(o.value, p);
      assert forall i :: 0 <= i < |args[1..]| ==> args[1..][i] == args[i + 1];
      LaterArgs(args[1..], env, later, lib, p);
    }
  }

  /** An expression that can evaluate to a value at scheduling time evaluates to
      that value, and to nothing else, in every later phase. */
  lemma TwoPhase(n: Node, env: Env, later: Env, lib: Library, v: Value, out: Outcome)
    requires WellFormed(n, FloatsOf(lib)) && SteadyEnv(env) && JsonOk(n, lib) && Continues(env, later)
    requires Evals(n, env, lib, Ok(v))
    ensures Evals(n, later, lib, out) <==> out == Ok(v)
  {
    OneOutcome(n, env, lib, Ok(v));
    EvalIsPossible(n, later, lib);
    LaterOutcome(n, env, later, lib, Eval(n, later, lib));
    if Evals(n, later, lib, out) { LaterOutcome(n, env, later, lib, out); }
  }

  /** Keys that differ in case only, and an expression that uses neither spelling:
      two evaluations of one environment can differ. */
  lemma TwoSpellings(c: string, a: string, b: string, key: string, x: Value, y: Value, env: Env, lib: Library)
    requires Nameable(c) && !Keyword(c) && EqualFold(a, key) && EqualFold(b, key) && a != b && key != a && key != b && x != y
    requires c in env.contexts && env.contexts[c] == VObject(map[a := x, b := y])
    ensures WellFormed(Member(Name(c), Text(key)), FloatsOf(lib))
    ensures Evals(Member(Name(c), Text(key)), env, lib, Ok(x)) && Evals(Member(Name(c), Text(key)), env, lib, Ok(y))
  {
    var m := map[a := x, b := y];
    assert Evals(Name(c), env, lib, Ok(VObject(m)));
    assert IsVariant(m, key, a) && IsVariant(m, key, b);
    assert CanFind(m, key, x) && CanFind(m, key, y);
    ReadsKey(Name(c), key, m, x, env, lib);
    ReadsKey(Name(c), key, m, y, env, lib);
  }
}
