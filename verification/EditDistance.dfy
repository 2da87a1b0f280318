/** The edit distance behind "did you mean" hints
    (internal/workflow/compiler/builtin.go). */
module EditDistance {
  import Txt = Text

  // ---------------------------------------------------------------- edits

  datatype Edit = Insert(at: nat, c: char) | Delete(at: nat) | Replace(at: nat, c: char)

  predicate Fits(e: Edit, s: string) {
    if e.Insert? then e.at <= |s| else e.at < |s|
  }

  function Apply(e: Edit, s: string): string
    requires Fits(e, s)
  {
    match e
    case Insert(k, c) => s[..k] + [c] + s[k..]
    case Delete(k) => s[..k] + s[k + 1..]
    case Replace(k, c) => s[..k] + [c] + s[k + 1..]
  }

  /** The edits, one after the other, turn a into b. */
  ghost predicate Turns(es: seq<Edit>, a: string, b: string)
    decreases |es|
  {
    if es == [] then a == b else Fits(es[0], a) && Turns(es[1..], Apply(es[0], a), b)
  }

  /** d is the least number of edits that turn a into b. */
  ghost predicate LeastEdits(d: nat, a: string, b: string) {
    && (exists es :: Turns(es, a, b) && |es| == d)
    && (forall es :: Turns(es, a, b) ==> d <= |es|)
  }

  // ---------------------------------------------------------------- the recurrence

  function Cost(x: char, y: char): nat { if x == y then 0 else 1 }

  function Min3(x: nat, y: nat, z: nat): nat {
    if x <= y && x <= z then x else if y <= z then y else z
  }

  function Front(s: string): string
    requires s != []
  {
    s[..|s| - 1]
  }

  function Last(s: string): char
    requires s != []
  {
    s[|s| - 1]
  }

  function Lev(a: string, b: string): nat
    decreases |a| + |b|
  {
    if a == [] then |b|
    else if b == [] then |a|
    else Min3(Lev(Front(a), b) + 1, Lev(a, Front(b)) + 1, Lev(Front(a), Front(b)) + Cost(Last(a), Last(b)))
  }

  lemma Extend(a: string, z: char)
    ensures a + [z] != [] && Front(a + [z]) == a && Last(a + [z]) == z
  {}

  lemma Parts(a: string)
    requires a != []
    ensures a == Front(a) + [Last(a)]
  {}

  // ---------------------------------------------------------------- no script is shorter

  /** One more character at the end moves the distance by at most one. */
  lemma {:induction false} LevAppend(a: string, z: char, b: string)
    ensures Lev(a, b) <= Lev(a + [z], b) + 1 && Lev(a + [z], b) <= Lev(a, b) + 1
    decreases |b|
  {
    Extend(a, z);
    if b != [] {
      LevAppend(a, z, Front(b));
      LevStep(a, b);
    }
  }

  lemma LevStep(a: string, b: string)
    requires b != []
    ensures Lev(a, b) <= Lev(a, Front(b)) + 1
  {}

  lemma LevReplace(a: string, y: char, z: char, b: string)
    ensures Lev(a + [y], b) <= Lev(a + [z], b) + 1
    decreases |b|
  {
    Extend(a, y);
    Extend(a, z);
    if b != [] { LevReplace(a, y, z, Front(b)); }
  }

  /** Behind a common last character nothing changes about that. */
  lemma {:induction false} LevBehind(s: string, t: string, z: char, b: string)
    requires forall c :: Lev(s, c) <= Lev(t, c) + 1
    ensures Lev(s + [z], b) <= Lev(t + [z], b) + 1
    decreases |b|
  {
    Extend(s, z);
    Extend(t, z);
    if b == [] {
      assert Lev(s, b) <= Lev(t, b) + 1;
    } else {
      LevBehind(s, t, z, Front(b));
      assert Lev(s, b) <= Lev(t, b) + 1 && Lev(s, Front(b)) <= Lev(t, Front(b)) + 1;
    }
  }

  /** Where the edited text ends in a character after the edited place. */
  lemma EditBehind(e: Edit, s: string)
    requires s != [] && Fits(e, Front(s))
    ensures Fits(e, s) && Apply(e, s) == Apply(e, Front(s)) + [Last(s)]
  {
    var t, c := Front(s), Last(s);
    assert s == t + [c];
    EditBefore(e, t, c);
  }

  lemma EditBefore(e: Edit, t: string, c: char)
    requires Fits(e, t)
    ensures Fits(e, t + [c]) && Apply(e, t + [c]) == Apply(e, t) + [c]
  {}

  lemma EditAtEnd(e: Edit, s: string)
    requires Fits(e, s) && (s == [] || !Fits(e, Front(s)))
    ensures match e
            case Insert(_, c) => Apply(e, s) == s + [c]
            case Delete(_) => s != [] && Apply(e, s) == Front(s)
            case Replace(_, c) => s != [] && Apply(e, s) == Front(s) + [c]
  {}

  /** One edit moves the distance to any text by at most one. */
  lemma {:induction false} LevEdit(e: Edit, s: string, b: string)
    requires Fits(e, s)
    ensures Lev(s, b) <= Lev(Apply(e, s), b) + 1
    decreases |s|
  {
    if s != [] && Fits(e, Front(s)) {
      EditBehind(e, s);
      forall c ensures Lev(Front(s), c) <= Lev(Apply(e, Front(s)), c) + 1 {
        LevEdit(e, Front(s), c);
      }
      LevBehind(Front(s), Apply(e, Front(s)), Last(s), b);
      Parts(s);
    } else {
      EditAtEnd(e, s);
      match e
      case Insert(_, c) => LevAppend(s, c, b);
      case Delete(_) => Parts(s); LevAppend(Front(s), Last(s), b);
      case Replace(_, c) => Parts(s); LevReplace(Front(s), Last(s), c, b);
    }
  }

  lemma {:induction false} LevSelf(a: string)
    ensures Lev(a, a) == 0
  {
    if a != [] { LevSelf(Front(a)); }
  }

  lemma {:induction false} LevLower(es: seq<Edit>, a: string, b: string)
    requires Turns(es, a, b)
    ensures Lev(a, b) <= |es|
    decreases |es|
  {
    if es == [] {
      LevSelf(a);
    } else {
      LevEdit(es[0], a, b);
      LevLower(es[1..], Apply(es[0], a), b);
    }
  }

  // ---------------------------------------------------------------- a script as short

  lemma {:induction false} TurnsBehind(es: seq<Edit>, a: string, b: string, z: char)
    requires Turns(es, a, b)
    ensures Turns(es, a + [z], b + [z])
    decreases |es|
  {
    if es != [] {
      Extend(a, z);
      EditBehind(es[0], a + [z]);
      TurnsBehind(es[1..], Apply(es[0], a), b, z);
    }
  }

  lemma TurnsFirst(e: Edit, es: seq<Edit>, a: string, b: string)
    requires Fits(e, a) && Turns(es, Apply(e, a), b)
    ensures Turns([e] + es, a, b)
  {
    assert ([e] + es)[1..] == es;
  }

  lemma {:induction false} Script(a: string, b: string) returns (es: seq<Edit>)
    ensures Turns(es, a, b) && |es| == Lev(a, b)
    decreases |a| + |b|
  {
    if a == [] && b == [] {
      es := [];
    } else if a == [] {
      // only insertions are left
      es := Script([], Front(b));
      es := InsertLast(es, a, b);
    } else if b == [] {
      es := Script(Front(a), []);
      es := DeleteLast(es, a, b);
    } else if Lev(a, b) == Lev(Front(a), b) + 1 {
      es := Script(Front(a), b);
      es := DeleteLast(es, a, b);
    } else if Lev(a, b) == Lev(a, Front(b)) + 1 {
      es := Script(a, Front(b));
      es := InsertLast(es, a, b);
    } else {
      es := Script(Front(a), Front(b));
      es := KeepLast(es, a, b);
    }
  }

  lemma DeleteLast(es: seq<Edit>, a: string, b: string) returns (fs: seq<Edit>)
    requires a != [] && Turns(es, Front(a), b)
    ensures Turns(fs, a, b) && |fs| == |es| + 1
  {
    var e := Delete(|a| - 1);
    assert Apply(e, a) == Front(a);
    fs := [e] + es;
    TurnsFirst(e, es, a, b);
  }

  lemma InsertLast(es: seq<Edit>, a: string, b: string) returns (fs: seq<Edit>)
    requires b != [] && Turns(es, a, Front(b))
    ensures Turns(fs, a, b) && |fs| == |es| + 1
  {
    var e := Insert(|a|, Last(b));
    assert Apply(e, a) == a + [Last(b)];
    TurnsBehind(es, a, Front(b), Last(b));
    Parts(b);
    fs := [e] + es;
    TurnsFirst(e, es, a, b);
  }

  lemma KeepLast(es: seq<Edit>, a: string, b: string) returns (fs: seq<Edit>)
    requires a != [] && b != [] && Turns(es, Front(a), Front(b))
    ensures Turns(fs, a, b) && |fs| == |es| + Cost(Last(a), Last(b))
  {
    TurnsBehind(es, Front(a), Front(b), Last(b));
    Parts(a);
    Parts(b);
    if Last(a) == Last(b) {
      fs := es;
    } else {
      var e := Replace(|a| - 1, Last(b));
      assert Apply(e, a) == Front(a) + [Last(b)];
      fs := [e] + es;
      TurnsFirst(e, es, a, b);
    }
  }

  // ---------------------------------------------------------------- what the distance is

  lemma LevIsLeast(a: string, b: string)
    ensures LeastEdits(Lev(a, b), a, b)
  {
    var es := Script(a, b);
    forall fs | Turns(fs, a, b)
      ensures Lev(a, b) <= |fs|
    {
      LevLower(fs, a, b);
    }
  }

  lemma {:induction false} LevSymmetric(a: string, b: string)
    ensures Lev(a, b) == Lev(b, a)
    decreases |a| + |b|
  {
    if a != [] && b != [] {
      LevSymmetric(Front(a), b);
      LevSymmetric(a, Front(b));
      LevSymmetric(Front(a), Front(b));
    }
  }

  lemma LevZero(a: string, b: string)
    ensures Lev(a, b) == 0 <==> a == b
  {
    LevSelf(a);
    var es := Script(a, b);
  }

  lemma {:induction false} TurnsJoin(es: seq<Edit>, fs: seq<Edit>, a: string, b: string, c: string)
    requires Turns(es, a, b) && Turns(fs, b, c)
    ensures Turns(es + fs, a, c)
    decreases |es|
  {
    if es == [] {
      assert es + fs == fs;
    } else {
      TurnsJoin(es[1..], fs, Apply(es[0], a), b, c);
      assert (es + fs)[1..] == es[1..] + fs;
    }
  }

  lemma LevTriangle(a: string, b: string, c: string)
    ensures Lev(a, c) <= Lev(a, b) + Lev(b, c)
  {
    var es := Script(a, b);
    var fs := Script(b, c);
    TurnsJoin(es, fs, a, b, c);
    LevLower(es + fs, a, c);
  }

  // ---------------------------------------------------------------- the two-row computation

  /** The row of distances from a to the prefixes of b. */
  ghost predicate Row(row: seq<nat>, a: string, b: string, n: nat) {
    n <= |row| == |b| + 1 && forall j :: 0 <= j < n ==> row[j] == Lev(a, b[..j])
  }

  lemma RowStep(a: string, b: string, i: nat, j: nat, up: nat, left: nat, diagonal: nat)
    requires 0 < i <= |a| && 0 < j <= |b|
    requires up == Lev(a[..i - 1], b[..j]) && left == Lev(a[..i], b[..j - 1]) && diagonal == Lev(a[..i - 1], b[..j - 1])
    ensures Min3(up + 1, left + 1, diagonal + Cost(a[i - 1], b[j - 1])) == Lev(a[..i], b[..j])
  {
    assert Front(a[..i]) == a[..i - 1] && Front(b[..j]) == b[..j - 1];
  }

  method FillRow(a: string, b: string, i: nat, prev: array<nat>, cur: array<nat>)
    requires 0 < i <= |a| && prev != cur && cur.Length == |b| + 1
    requires Row(prev[..], a[..i - 1], b, |b| + 1)
    modifies cur
    ensures Row(cur[..], a[..i], b, |b| + 1)
  {
    cur[0] := i;
    for j := 1 to |b| + 1
      invariant prev[..] == old(prev[..]) && Row(cur[..], a[..i], b, j)
    {
      ghost var before := cur[..];
      RowStep(a, b, i, j, prev[j], cur[j - 1], prev[j - 1]);
      cur[j] := Min3(prev[j] + 1, cur[j - 1] + 1, prev[j - 1] + Cost(a[i - 1], b[j - 1]));
      assert cur[..] == before[j := cur[j]];
    }
  }

  method Distance(a: string, b: string) returns (d: nat)
    ensures d == Lev(a, b)
  {
    var prev := new nat[|b| + 1](j => j);
    var cur := new nat[|b| + 1](_ => 0);
    assert a[..0] == [] && prev[..] == seq(|b| + 1, j => j);
    for i := 1 to |a| + 1
      invariant prev != cur && prev.Length == cur.Length == |b| + 1 && fresh(prev) && fresh(cur)
      invariant Row(prev[..], a[..i - 1], b, |b| + 1)
    {
      FillRow(a, b, i, prev, cur);
      prev, cur := cur, prev;
    }
    assert a[..|a|] == a && b[..|b|] == b;
    d := prev[|b|];
  }

  /** A hint within distance 2, and then a closest one; whatever order the
      registry is walked in. */
  method Nearest(s: string, registry: set<string>) returns (best: string)
    ensures (best == "" && forall n :: n in registry ==> Lev(Txt.Lower(s), n) > 2)
         || (best in registry && Lev(Txt.Lower(s), best) <= 2
             && forall n :: n in registry ==> Lev(Txt.Lower(s), best) <= Lev(Txt.Lower(s), n))
  {
    best := "";
    var bestDist := 3;
    var rest := registry;
    while rest != {}
      invariant rest <= registry
      invariant forall n :: n in registry - rest ==> bestDist <= Lev(Txt.Lower(s), n)
      invariant (best == "" && bestDist == 3)
             || (best in registry && bestDist == Lev(Txt.Lower(s), best) && bestDist < 3)
      decreases |rest|
    {
      var n :| n in rest;
      rest := rest - {n};
      var d := Distance(Txt.Lower(s), n);
      if d < bestDist {
        best, bestDist := n, d;
      }
    }
  }
}
