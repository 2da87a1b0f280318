/** What the builtin functions and the display of values mean
    (internal/workflow/expression/functions.go, value.go). */
module Builtins {
  import opened Prelude
  import opened Parsing
  import opened Evaluation
  import opened Formatting
  import opened Operators
  import Txt = Text

  // ---------------------------------------------------------------- display

  /** Keys in byte order, each once. */
  predicate Ascending(ks: seq<string>) {
    forall i, j :: 0 <= i < j < |ks| ==> Txt.LexLess(ks[i], ks[j])
  }

  lemma {:induction false} KeysAscend(ks: set<string>)
    ensures Ascending(SortedKeys(ks))
    decreases |ks|
  {
    if ks != {} {
      LeastExists(ks);
      var r := SortedKeys(ks);
      var m := r[0];
      assert r[1..] == SortedKeys(ks - {m});
      KeysAscend(ks - {m});
      forall i, j | 0 <= i < j < |r|
        ensures Txt.LexLess(r[i], r[j])
      {
        assert r[j] == r[1..][j - 1];
        assert r[1..][j - 1] in ks - {m};
        if i > 0 { assert r[i] == r[1..][i - 1]; }
      }
    }
  }

  lemma {:induction false} AllShown(items: seq<Value>, lib: Library)
    ensures |ShowAll(items, lib)| == |items|
    ensures forall i :: 0 <= i < |items| ==> ShowAll(items, lib)[i] == Show(items[i], lib)
  {
    if items != [] { AllShown(items[1..], lib); }
  }

  /** The pieces of the display of an object: key=value. */
  ghost predicate ShowsFields(parts: seq<string>, keys: seq<string>, fields: map<string, Value>, lib: Library) {
    |parts| == |keys| && forall i :: 0 <= i < |keys| ==> keys[i] in fields && parts[i] == keys[i] + "=" + Show(fields[keys[i]], lib)
  }

  /** Values are displayed as documented: null as nothing, truth values in lower
      case, lists by comma, objects as key=value by comma in key order. */
  lemma ShowMeaning(v: Value, lib: Library)
    ensures v.VNull? ==> Show(v, lib) == ""
    ensures v == VBool(true) ==> Show(v, lib) == "true"
    ensures v == VBool(false) ==> Show(v, lib) == "false"
    ensures v.VNumber? ==> Show(v, lib) == lib.formatNumber(v.n)
    ensures v.VString? ==> Show(v, lib) == v.s
    ensures v.VArray? ==> exists parts :: |parts| == |v.items| && Show(v, lib) == Txt.Join(parts, ",")
                                          && forall i :: 0 <= i < |parts| ==> parts[i] == Show(v.items[i], lib)
    ensures v.VObject? ==> exists keys, parts :: Ascending(keys) && (forall k :: k in keys <==> k in v.fields)
                                                 && ShowsFields(parts, keys, v.fields, lib) && Show(v, lib) == Txt.Join(parts, ",")
  {
    match v
    case VArray(items) => AllShown(items, lib);
    case VObject(fields) =>
      var keys := SortedKeys(fields.Keys);
      KeysAscend(fields.Keys);
      assert forall i :: 0 <= i < |keys| ==> keys[i] in keys;
      var parts := seq(|keys|, i requires 0 <= i < |keys| => keys[i] + "=" + Show(fields[keys[i]], lib));
      assert ShowsFields(parts, keys, fields, lib);
    case _ =>
  }

  // ---------------------------------------------------------------- calls

  /** A call evaluates its arguments in order and applies the function; an unknown
      one is refused whatever its arguments. */
  lemma CallMeaning(fn: string, args: seq<Node>, vs: seq<Value>, env: Env, lib: Library)
    ensures !KnownFunction(fn) ==> Eval(Call(fn, args), env, lib) == Err(NotSupported(fn))
    ensures KnownFunction(fn) && EvalArgs(args, env, lib) == Ok(vs) ==> Eval(Call(fn, args), env, lib) == CallBuiltin(fn, env, vs, lib)
  {}

  ghost predicate ArgsAre(args: seq<Node>, vs: seq<Value>, env: Env, lib: Library) {
    |vs| == |args| && forall i :: 0 <= i < |args| ==> Eval(args[i], env, lib) == Ok(vs[i])
  }

  /** The arguments have values exactly when each has one, in order. */
  lemma {:induction false} ArgsMeaning(args: seq<Node>, vs: seq<Value>, env: Env, lib: Library)
    ensures EvalArgs(args, env, lib) == Ok(vs) <==> ArgsAre(args, vs, env, lib)
  {
    if args != [] {
      if |vs| == |args| {
        ArgsMeaning(args[1..], vs[1..], env, lib);
        ArgsStep(args, vs, env, lib);
        assert vs == [vs[0]] + vs[1..];
      } else if EvalArgs(args, env, lib).Ok? {
        ArgsMeaning(args[1..], EvalArgs(args[1..], env, lib).value, env, lib);
      }
    }
  }

  lemma ArgsStep(args: seq<Node>, vs: seq<Value>, env: Env, lib: Library)
    requires args != [] && |vs| == |args|
    ensures ArgsAre(args, vs, env, lib) <==> Eval(args[0], env, lib) == Ok(vs[0]) && ArgsAre(args[1..], vs[1..], env, lib)
  {
    assert forall i :: 0 <= i < |args| - 1 ==> args[1..][i] == args[i + 1];
    assert forall i :: 0 <= i < |vs| - 1 ==> vs[1..][i] == vs[i + 1];
    if Eval(args[0], env, lib) == Ok(vs[0]) && ArgsAre(args[1..], vs[1..], env, lib) {
      forall i | 0 <= i < |args|
        ensures Eval(args[i], env, lib) == Ok(vs[i])
      {
        if i > 0 { assert Eval(args[1..][i - 1], env, lib) == Ok(vs[1..][i - 1]); }
      }
    }
  }

  /** The job status: the text registered for it, success when there is none. */
  ghost predicate StatusIs(env: Env, st: string) {
    if STATUS in env.contexts && env.contexts[STATUS].VString? then env.contexts[STATUS] == VString(st) else st == "success"
  }

  /** Which status makes which function true; always() needs none. */
  lemma StatusFunctionsMeaning(fn: string, env: Env, args: seq<Value>, lib: Library, st: string)
    requires StatusIs(env, st)
    ensures Txt.Lower(fn) == "success" ==> CallBuiltin(fn, env, args, lib) == Ok(VBool(st == "success"))
    ensures Txt.Lower(fn) == "failure" ==> CallBuiltin(fn, env, args, lib) == Ok(VBool(st == "failure"))
    ensures Txt.Lower(fn) == "cancelled" ==> CallBuiltin(fn, env, args, lib) == Ok(VBool(st == "cancelled"))
    ensures Txt.Lower(fn) == "always" ==> CallBuiltin(fn, env, args, lib) == Ok(VBool(true))
  {
    assert Txt.Lower(STATUS) == STATUS;
  }

  predicate SearchFunction(fn: string) {
    Txt.Lower(fn) == "contains" || Txt.Lower(fn) == "startswith" || Txt.Lower(fn) == "endswith"
  }

  /** text holds part between some u and w. */
  predicate Around(text: string, u: string, part: string, w: string) {
    text == u + part + w
  }

  ghost predicate Within(text: string, part: string) {
    exists u, w :: Around(text, u, part, w)
  }

  ghost predicate AtStart(text: string, part: string) {
    exists w :: Around(text, "", part, w)
  }

  ghost predicate AtEnd(text: string, part: string) {
    exists u :: Around(text, u, part, "")
  }

  lemma ContainsIff(text: string, part: string)
    ensures Txt.Contains(text, part) <==> Within(text, part)
  {
    if Txt.Contains(text, part) {
      var i :| 0 <= i <= |text| && Txt.OccursAt(text, part, i);
      assert text == text[..i] + text[i..i + |part|] + text[i + |part|..];
      assert Around(text, text[..i], part, text[i + |part|..]);
    }
    if Within(text, part) {
      var u, w :| Around(text, u, part, w);
      assert text[|u|..|u| + |part|] == part;
      assert Txt.OccursAt(text, part, |u|);
    }
  }

  lemma PrefixIff(text: string, part: string)
    ensures HasPrefix(text, part) <==> AtStart(text, part)
  {
    if HasPrefix(text, part) {
      assert text == "" + text[..|part|] + text[|part|..];
      assert Around(text, "", part, text[|part|..]);
    }
    if AtStart(text, part) {
      var w :| Around(text, "", part, w);
      assert text == part + w;
    }
  }

  lemma SuffixIff(text: string, part: string)
    ensures HasSuffix(text, part) <==> AtEnd(text, part)
  {
    if HasSuffix(text, part) {
      var k := |text| - |part|;
      assert text == text[..k] + text[k..] + "";
      assert Around(text, text[..k], part, "");
    }
    if AtEnd(text, part) {
      var u :| Around(text, u, part, "");
      assert text == u + part;
    }
  }

  /** contains finds an equal item in a list; elsewhere it looks for the second
      text in the first, both as displayed and in lower case. */
  lemma ContainsMeaning(fn: string, env: Env, a: Value, b: Value, lib: Library)
    requires Txt.Lower(fn) == "contains"
    ensures a.VArray? ==> CallBuiltin(fn, env, [a, b], lib) == Ok(VBool(exists i :: 0 <= i < |a.items| && Holds(Eq, a.items[i], b, lib)))
    ensures !a.VArray? ==> CallBuiltin(fn, env, [a, b], lib) == Ok(VBool(Within(Txt.Lower(Show(a, lib)), Txt.Lower(Show(b, lib)))))
  {
    if a.VArray? {
      ItemFound(a.items, b, lib);
    } else {
      ContainsIff(Txt.Lower(Show(a, lib)), Txt.Lower(Show(b, lib)));
    }
  }

  /** startsWith looks for it at the start. */
  lemma StartsMeaning(fn: string, env: Env, a: Value, b: Value, lib: Library)
    requires Txt.Lower(fn) == "startswith"
    ensures CallBuiltin(fn, env, [a, b], lib) == Ok(VBool(AtStart(Txt.Lower(Show(a, lib)), Txt.Lower(Show(b, lib)))))
  {
    PrefixIff(Txt.Lower(Show(a, lib)), Txt.Lower(Show(b, lib)));
  }

  /** endsWith looks for it at the end. */
  lemma EndsMeaning(fn: string, env: Env, a: Value, b: Value, lib: Library)
    requires Txt.Lower(fn) == "endswith"
    ensures CallBuiltin(fn, env, [a, b], lib) == Ok(VBool(AtEnd(Txt.Lower(Show(a, lib)), Txt.Lower(Show(b, lib)))))
  {
    SuffixIff(Txt.Lower(Show(a, lib)), Txt.Lower(Show(b, lib)));
  }

  lemma ItemFound(items: seq<Value>, b: Value, lib: Library)
    ensures (exists i :: 0 <= i < |items| && LooseEqual(items[i], b, lib)) <==> (exists i :: 0 <= i < |items| && Holds(Eq, items[i], b, lib))
  {
    if i :| 0 <= i < |items| && LooseEqual(items[i], b, lib) { assert Holds(Eq, items[i], b, lib); }
    if i :| 0 <= i < |items| && Holds(Eq, items[i], b, lib) { assert LooseEqual(items[i], b, lib); }
  }

  lemma SearchArity(fn: string, env: Env, args: seq<Value>, lib: Library)
    requires SearchFunction(fn) && |args| != 2
    ensures CallBuiltin(fn, env, args, lib) == Err(BadCall(fn))
  {}

  /** join puts the separator, a comma unless given, between the displayed items. */
  lemma JoinMeaning(env: Env, fn: string, items: seq<Value>, sep: Option<Value>, lib: Library)
    requires Txt.Lower(fn) == "join"
    ensures var args := if sep.Some? then [VArray(items), sep.value] else [VArray(items)];
            exists parts :: |parts| == |items| && (forall i :: 0 <= i < |parts| ==> parts[i] == Show(items[i], lib))
              && CallBuiltin(fn, env, args, lib) == Ok(VString(Txt.Join(parts, if sep.Some? then Show(sep.value, lib) else ",")))
  {
    AllShown(items, lib);
    var args := if sep.Some? then [VArray(items), sep.value] else [VArray(items)];
    assert CallBuiltin(fn, env, args, lib) ==
           Ok(VString(Txt.Join(ShowAll(items, lib), if sep.Some? then Show(sep.value, lib) else ",")));
  }

  /** format fills a template with the displayed arguments. */
  lemma FormatMeaning(env: Env, fn: string, ps: seq<Piece>, vs: seq<Value>, lib: Library)
    requires Txt.Lower(fn) == "format"
    ensures var filled := Filled(ps, ShowAll(vs, lib));
            CallBuiltin(fn, env, [VString(Template(ps))] + vs, lib) == if filled.Some? then Ok(VString(filled.value)) else Err(BadCall(fn))
  {
    TemplateFormats(ps, ShowAll(vs, lib));
    assert ([VString(Template(ps))] + vs)[1..] == vs;
  }

  predicate HashableArgs(args: seq<Value>) {
    args != [] && forall i :: 0 <= i < |args| ==> args[i].VString? && '\0' !in args[i].s
  }

  /** hashFiles hands texts to the hasher, if the environment has one. */
  lemma HashMeaning(env: Env, fn: string, args: seq<Value>, lib: Library)
    requires Txt.Lower(fn) == "hashfiles"
    ensures !HashableArgs(args) ==> CallBuiltin(fn, env, args, lib) == Err(BadCall("hashFiles"))
    ensures HashableArgs(args) && env.hasher.None? ==> CallBuiltin(fn, env, args, lib) == Err(NotSupported("hashFiles"))
    ensures HashableArgs(args) && env.hasher.Some? ==>
              exists texts :: |texts| == |args| && (forall i :: 0 <= i < |args| ==> args[i] == VString(texts[i]))
                && var sum := env.hasher.value(texts);
                   CallBuiltin(fn, env, args, lib) == if sum.Some? then Ok(VString(sum.value)) else Err(BadCall("hashFiles"))
  {
    if HashableArgs(args) { assert forall i :: 0 <= i < |args| ==> args[i] == VString(Texts(args)[i]); }
  }

  /** toJSON writes its argument, fromJSON reads its displayed text. */
  lemma JsonMeaning(env: Env, fn: string, a: Value, lib: Library)
    ensures Txt.Lower(fn) == "tojson" ==>
              CallBuiltin(fn, env, [a], lib) == if lib.toJson(a).Some? then Ok(VString(lib.toJson(a).value)) else Err(BadCall(fn))
    ensures Txt.Lower(fn) == "fromjson" ==>
              var v := lib.fromJson(Show(a, lib));
              CallBuiltin(fn, env, [a], lib) == if v.Some? then Ok(v.value) else Err(BadCall(fn))
  {}

  /** The known functions are exactly those that answer other than by refusal. */
  lemma KnownIff(fn: string, env: Env, lib: Library)
    ensures KnownFunction(fn) <==> CallBuiltin(fn, env, [], lib) != Err(NotSupported(fn))
  {}

  /** Spelling does not matter: two names equal but for case are one function. */
  lemma SpellingFree(fn: string, gn: string, env: Env, args: seq<Value>, lib: Library)
    requires EqualFold(fn, gn)
    ensures KnownFunction(fn) <==> KnownFunction(gn)
    ensures CallBuiltin(fn, env, args, lib).Ok? ==> CallBuiltin(gn, env, args, lib) == CallBuiltin(fn, env, args, lib)
  {}
}
