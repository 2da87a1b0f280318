/** What interpolation makes of a text (internal/workflow/expression/interpolate.go). */
module Templates {
  import opened Prelude
  import opened Parsing
  import opened Evaluation
  import opened Conditions
  import Txt = Text

  function Opening(): string { "${{" }
  function Closing(): string { "}}" }

  /** No placeholder opens within a, even with one right behind it. */
  ghost predicate Unopened(a: string) {
    forall i :: 0 <= i < |a| ==> !Opens((a + Opening())[i..])
  }

  /** No placeholder closes within e, even with a closing right behind it. */
  ghost predicate Unclosed(e: string) {
    forall i :: 0 <= i < |e| ==> !ClosesAt(e + Closing(), i)
  }

  predicate ClosesAt(s: string, i: int) {
    0 <= i < |s| - 1 && s[i] == '}' && s[i + 1] == '}'
  }

  ghost predicate NeverClosed(s: string) {
    forall i :: !ClosesAt(s, i)
  }

  /** Text a, the shown value, and what follows. */
  ghost function Placed(a: string, o: Outcome, r: Result<string, ConditionFault>, lib: Library): Result<string, ConditionFault> {
    match o
    case Err(f) => Err(EvalProblem(f))
    case Ok(v) => Behind(a + Show(v, lib), r)
  }

  function Behind(a: string, r: Result<string, ConditionFault>): Result<string, ConditionFault> {
    match r
    case Err(f) => Err(f)
    case Ok(t) => Ok(a + t)
  }

  lemma {:induction false} PlainText(tpl: string, env: Env, lib: Library)
    requires forall i :: 0 <= i < |tpl| ==> !Opens(tpl[i..])
    ensures Interpolate(tpl, env, lib) == Ok(tpl)
  {
    if tpl != "" {
      forall i | 0 <= i < |tpl| - 1
        ensures !Opens(tpl[1..][i..])
      {
        assert tpl[1..][i..] == tpl[i + 1..];
      }
      PlainText(tpl[1..], env, lib);
      assert tpl[0..] == tpl && tpl == [tpl[0]] + tpl[1..];
    }
  }

  lemma OpensAt(s: string, i: nat)
    requires i <= |s|
    ensures Opens(s[i..]) <==> Txt.OccursAt(s, Opening(), i)
  {
    var t := s[i..];
    if |t| >= 3 {
      assert s[i..i + 3] == [t[0], t[1], t[2]];
    }
  }

  /** Text without an opening is kept as it is. */
  lemma TextKept(tpl: string, env: Env, lib: Library)
    requires !Txt.Contains(tpl, Opening())
    ensures Interpolate(tpl, env, lib) == Ok(tpl)
  {
    forall i | 0 <= i < |tpl|
      ensures !Opens(tpl[i..])
    {
      OpensAt(tpl, i);
    }
    PlainText(tpl, env, lib);
  }

  lemma {:induction false} TextBefore(a: string, rest: string, env: Env, lib: Library)
    requires Unopened(a) && Opens(rest)
    ensures Interpolate(a + rest, env, lib) == Behind(a, Interpolate(rest, env, lib))
  {
    if a == "" {
      assert a + rest == rest;
      BehindNothing(Interpolate(rest, env, lib));
    } else {
      FrontUnopened(a);
      TextBefore(a[1..], rest, env, lib);
      NotOpening(a, rest);
      CharacterKept(a + rest, a[1..] + rest, env, lib);
      BehindTwice(a, Interpolate(rest, env, lib));
    }
  }

  lemma CharacterKept(s: string, t: string, env: Env, lib: Library)
    requires s != "" && !Opens(s) && t == s[1..]
    ensures Interpolate(s, env, lib) == Behind([s[0]], Interpolate(t, env, lib))
  {}

  lemma BehindNothing(r: Result<string, ConditionFault>)
    ensures Behind("", r) == r
  {
    if r.Ok? { assert "" + r.value == r.value; }
  }

  lemma BehindTwice(a: string, r: Result<string, ConditionFault>)
    requires a != ""
    ensures Behind([a[0]], Behind(a[1..], r)) == Behind(a, r)
  {
    if r.Ok? { assert [a[0]] + (a[1..] + r.value) == a + r.value; }
  }

  lemma FrontUnopened(a: string)
    requires a != "" && Unopened(a)
    ensures Unopened(a[1..])
  {
    forall i | 0 <= i < |a| - 1
      ensures !Opens((a[1..] + Opening())[i..])
    {
      assert (a[1..] + Opening())[i..] == (a + Opening())[i + 1..];
    }
  }

  lemma NotOpening(a: string, rest: string)
    requires a != "" && Unopened(a) && Opens(rest)
    ensures !Opens(a + rest)
  {
    var x, y := a + rest, a + Opening();
    assert !Opens(y[0..]) && y[0..] == y;
    assert forall k :: 0 <= k < 3 ==> x[k] == y[k];
  }

  lemma {:induction false} ClosesBehind(e: string, rest: string)
    requires Unclosed(e)
    ensures ClosingBraces(e + (Closing() + rest)) == |e|
  {
    var s := e + (Closing() + rest);
    if e != "" {
      assert s[1..] == e[1..] + (Closing() + rest);
      assert s[0] == (e + Closing())[0] && s[1] == (e + Closing())[1] && !ClosesAt(e + Closing(), 0);
      forall i | 0 <= i < |e| - 1
        ensures !ClosesAt(e[1..] + Closing(), i)
      {
        assert e[1..] + Closing() == (e + Closing())[1..];
        assert !ClosesAt(e + Closing(), i + 1);
      }
      ClosesBehind(e[1..], rest);
    } else {
      assert s[0] == '}' && s[1] == '}';
    }
  }

  /** A placeholder stands for the shown value of its trimmed expression, or its
      fault; the rest of the text follows. */
  lemma PlaceFilled(a: string, e: string, rest: string, env: Env, lib: Library)
    requires Unopened(a) && Unclosed(e)
    ensures Interpolate(a + (Opening() + (e + (Closing() + rest))), env, lib) ==
            Placed(a, EvalText(Txt.Trim(e), env, lib), Interpolate(rest, env, lib), lib)
  {
    var place := Opening() + (e + (Closing() + rest));
    PlaceFirst(e, rest, env, lib);
    TextBefore(a, place, env, lib);
    PlacedBehind(a, EvalText(Txt.Trim(e), env, lib), Interpolate(rest, env, lib), lib);
  }

  lemma PlacedBehind(a: string, o: Outcome, r: Result<string, ConditionFault>, lib: Library)
    ensures Behind(a, Placed("", o, r, lib)) == Placed(a, o, r, lib)
  {
    if o.Ok? && r.Ok? {
      var x, y := Show(o.value, lib), r.value;
      assert a + ("" + x + y) == a + x + y;
    }
  }

  lemma PlaceFirst(e: string, rest: string, env: Env, lib: Library)
    requires Unclosed(e)
    ensures Opens(Opening() + (e + (Closing() + rest)))
    ensures Interpolate(Opening() + (e + (Closing() + rest)), env, lib) ==
            Placed("", EvalText(Txt.Trim(e), env, lib), Interpolate(rest, env, lib), lib)
  {
    var place := Opening() + (e + (Closing() + rest));
    PlaceSplit(e, rest);
    var o := EvalText(Txt.Trim(e), env, lib);
    if o.Ok? { assert "" + Show(o.value, lib) == Show(o.value, lib); }
  }

  lemma PlaceSplit(e: string, rest: string)
    requires Unclosed(e)
    ensures var place := Opening() + (e + (Closing() + rest));
            && Opens(place) && ClosingBraces(place[3..]) == |e| && |e| != |place| - 3
            && place[3..3 + |e|] == e && place[3 + |e| + 2..] == rest
  {
    ClosesBehind(e, rest);
    var place := Opening() + (e + (Closing() + rest));
    assert place[3..] == e + (Closing() + rest);
    assert place == (Opening() + e) + (Closing() + rest) && place == (Opening() + e + Closing()) + rest;
  }

  lemma {:induction false} NeverCloses(s: string)
    requires NeverClosed(s)
    ensures ClosingBraces(s) == |s|
  {
    if s != "" {
      assert !ClosesAt(s, 0);
      forall i
        ensures !ClosesAt(s[1..], i)
      {
        assert !ClosesAt(s, i + 1);
      }
      NeverCloses(s[1..]);
    }
  }

  /** A placeholder that is never closed is an error. */
  lemma PlaceUnterminated(a: string, rest: string, env: Env, lib: Library)
    requires Unopened(a) && NeverClosed(rest)
    ensures Interpolate(a + (Opening() + rest), env, lib) == Err(UnterminatedTemplate)
  {
    var place := Opening() + rest;
    assert place[3..] == rest && Opens(place);
    NeverCloses(rest);
    TextBefore(a, place, env, lib);
  }

  /** Every text is one of these three: free of openings, unterminated behind its
      first opening, or with a placeholder there. */
  lemma TextForms(tpl: string) returns (a: string, e: string, rest: string)
    ensures || !Txt.Contains(tpl, Opening())
            || (Unopened(a) && NeverClosed(rest) && tpl == a + (Opening() + rest))
            || (Unopened(a) && Unclosed(e) && tpl == a + (Opening() + (e + (Closing() + rest))))
  {
    a, e, rest := "", "", "";
    if Txt.Contains(tpl, Opening()) {
      var i := Txt.Find(tpl, Opening()).value;
      a := tpl[..i];
      var tail := tpl[i + 3..];
      SplitsThere(tpl, i);
      FirstOpening(tpl, i);
      e, rest := TailForms(tail);
    }
  }

  lemma SplitsThere(tpl: string, i: nat)
    requires Txt.OccursAt(tpl, Opening(), i)
    ensures tpl == tpl[..i] + (Opening() + tpl[i + 3..])
  {
    assert tpl == tpl[..i] + (tpl[i..i + 3] + tpl[i + 3..]);
  }

  lemma TailForms(tail: string) returns (e: string, rest: string)
    ensures (NeverClosed(rest) && tail == rest) || (Unclosed(e) && tail == e + (Closing() + rest))
  {
    var c := ClosingBraces(tail);
    FirstClosing(tail);
    if c == |tail| {
      e, rest := "", tail;
    } else {
      e, rest := tail[..c], tail[c + 2..];
      assert tail == e + (Closing() + rest);
      assert e + Closing() == tail[..c + 2];
      forall i | 0 <= i < |e|
        ensures !ClosesAt(e + Closing(), i)
      {
        assert !ClosesAt(tail, i);
      }
    }
  }

  lemma FirstOpening(tpl: string, i: nat)
    requires Txt.OccursAt(tpl, Opening(), i) && Txt.NoneBefore(tpl, Opening(), i)
    ensures Unopened(tpl[..i])
  {
    var a := tpl[..i];
    forall j | 0 <= j < i
      ensures !Opens((a + Opening())[j..])
    {
      OpensAt(tpl, j);
      var x, y := (a + Opening())[j..], tpl[j..];
      assert tpl[i..i + 3] == Opening();
      assert forall k :: 0 <= k < |x| ==> x[k] == y[k] by {
        forall k | 0 <= k < |x|
          ensures x[k] == y[k]
        {
          if j + k >= i { assert Opening()[j + k - i] == tpl[i..i + 3][j + k - i]; }
        }
      }
    }
  }

  lemma {:induction false} FirstClosing(s: string)
    ensures forall i :: i < ClosingBraces(s) ==> !ClosesAt(s, i)
  {
    if s != "" && ClosingBraces(s) > 0 {
      FirstClosing(s[1..]);
      forall i | i < ClosingBraces(s)
        ensures !ClosesAt(s, i)
      {
        assert !ClosesAt(s[1..], i - 1);
      }
    }
  }

  /** A condition that is one placeholder is decided by the text of its value. */
  lemma OnePlace(e: string, v: Value, env: Env, lib: Library)
    requires Unclosed(e) && Txt.Trim(Opening() + (e + Closing())) == Opening() + (e + Closing())
    requires EvalText(Txt.Trim(e), env, lib) == Ok(v)
    ensures EvaluateCondition(Opening() + (e + Closing()), env, lib) ==
            var text := Txt.Trim(Show(v, lib));
            if text == "" then Ok(true) else Decide(text, env, lib)
  {
    var s := Opening() + (e + Closing());
    PlaceFilled("", e, "", env, lib);
    assert Closing() + "" == Closing() && "" + s == s;
    assert "" + Show(v, lib) + "" == Show(v, lib);
    assert s[0..3] == Opening();
    assert Txt.OccursAt(s, Opening(), 0);
  }
}
