/** Matrix jobs: one instance per combination of axis values
    (internal/workflow/compiler/expand.go). */
module MatrixExpansion {
  import opened Prelude
  import opened Text
  import opened Sorting

  type Matrix = map<string, seq<string>>

  /** What expansion changes of a job instance. */
  datatype Instance = Instance(key: string, displayName: string, matrix: map<string, string>)

  // ---------------------------------------------------------------- "axis=value"

  function Part(axis: string, value: string): string { axis + ("=" + value) }

  /** The texts before and after the first '='. */
  function SplitPart(part: string): (string, string) {
    match Find(part, "=")
    case None => (part, "")
    case Some(i) => (part[..i], part[i + 1..])
  }

  function Shown(axis: string, value: string): string { SplitPart(Part(axis, value)).1 }

  lemma FirstEquals(s: string, i: nat)
    requires i < |s| && s[i] == '=' && '=' !in s[..i]
    ensures Find(s, "=") == Some(i)
  {
    assert s[i..i + 1] == "=";
    forall j | 0 <= j < i
      ensures !OccursAt(s, "=", j)
    {
      assert s[j..j + 1] == [s[j]] && s[j] == s[..i][j];
    }
    FoundFirst(s, "=", Find(s, "="), i);
  }

  /** Splitting recovers axis and value exactly when the axis has no '='. */
  lemma SplitRecoversIff(axis: string, value: string)
    ensures SplitPart(Part(axis, value)) == (axis, value) <==> '=' !in axis
  {
    var s := Part(axis, value);
    if '=' !in axis {
      assert s[..|axis|] == axis && s[|axis| + 1..] == value;
      FirstEquals(s, |axis|);
    } else {
      var i := FirstIn(axis);
      assert s[..i] == axis[..i];
      FirstEquals(s, i);
    }
  }

  lemma {:induction false} FirstIn(s: string) returns (i: nat)
    requires '=' in s
    ensures i < |s| && s[i] == '=' && '=' !in s[..i]
  {
    if s[0] == '=' {
      i := 0;
    } else {
      var k := FirstIn(s[1..]);
      i := k + 1;
      assert s[..i] == [s[0]] + s[1..][..k];
    }
  }

  lemma ShownTail(axis: string, value: string, full: string, i: nat)
    requires full == axis + "=" && i < |full| && full[i] == '=' && '=' !in full[..i]
    ensures Shown(axis, value) == full[i + 1..] + value
  {
    var s := Part(axis, value);
    assert s == full + value;
    assert s[..i] == full[..i] && s[i] == full[i];
    FirstEquals(s, i);
    assert s[i + 1..] == full[i + 1..] + value;
  }

  lemma SameTail(x: string, v: string, w: string)
    requires x + v == x + w
    ensures v == w
  {
    assert (x + v)[|x|..] == v && (x + w)[|x|..] == w;
  }

  /** The value shown for an axis is different for different values. */
  lemma ShownInjective(axis: string, v: string, w: string)
    requires Shown(axis, v) == Shown(axis, w)
    ensures v == w
  {
    var full := axis + "=";
    var i := FirstIn(full);
    ShownTail(axis, v, full, i);
    ShownTail(axis, w, full, i);
    SameTail(full[i + 1..], v, w);
  }

  // ---------------------------------------------------------------- combinations

  predicate AxesOf(axes: seq<string>, m: Matrix) {
    forall k :: 0 <= k < |axes| ==> axes[k] in m && m[axes[k]] != []
  }

  function Extended(combos: seq<seq<string>>, axis: string, values: seq<string>): seq<seq<string>> {
    if combos == [] then [] else ExtendOne(combos[0], axis, values) + Extended(combos[1..], axis, values)
  }

  function ExtendOne(combo: seq<string>, axis: string, values: seq<string>): (r: seq<seq<string>>)
    ensures |r| == |values| && forall j :: 0 <= j < |values| ==> r[j] == combo + [Part(axis, values[j])]
  {
    seq(|values|, j requires 0 <= j < |values| => combo + [Part(axis, values[j])])
  }

  function Combos(axes: seq<string>, m: Matrix): seq<seq<string>>
    requires AxesOf(axes, m)
  {
    if axes == [] then [[]]
    else
      var n := |axes| - 1;
      Extended(Combos(axes[..n], m), axes[n], m[axes[n]])
  }

  function Count(axes: seq<string>, m: Matrix): (c: nat)
    requires AxesOf(axes, m)
    ensures c > 0
  {
    if axes == [] then 1
    else
      var n := |axes| - 1;
      assert m[axes[n]] != [];
      Count(axes[..n], m) * |m[axes[n]]|
  }

  /** The mixed-radix digit of i for axis k; the last axis moves fastest. */
  function Digit(axes: seq<string>, m: Matrix, i: nat, k: nat): (d: nat)
    requires AxesOf(axes, m) && k < |axes|
    ensures d < |m[axes[k]]|
    decreases |axes|
  {
    var n := |axes| - 1;
    if k == n then i % |m[axes[n]]| else Digit(axes[..n], m, i / |m[axes[n]]|, k)
  }

  lemma {:induction false} ExtendedAt(combos: seq<seq<string>>, axis: string, values: seq<string>, a: nat, b: nat)
    requires a < |combos| && b < |values|
    ensures |Extended(combos, axis, values)| == |combos| * |values|
    ensures a * |values| + b < |combos| * |values|
    ensures Extended(combos, axis, values)[a * |values| + b] == combos[a] + [Part(axis, values[b])]
    decreases |combos|
  {
    var v := |values|;
    var first, rest := ExtendOne(combos[0], axis, values), Extended(combos[1..], axis, values);
    ExtendedCount(combos, axis, values);
    ExtendedCount(combos[1..], axis, values);
    Below(a, b, |combos|, v);
    if a > 0 {
      ExtendedAt(combos[1..], axis, values, a - 1, b);
      assert a * v + b - v == (a - 1) * v + b;
      assert (first + rest)[a * v + b] == rest[(a - 1) * v + b];
    }
  }

  lemma Below(a: nat, b: nat, n: nat, v: nat)
    requires a < n && b < v
    ensures a * v + b < n * v
  {
    assert (a + 1) * v <= n * v;
  }

  lemma {:induction false} ExtendedCount(combos: seq<seq<string>>, axis: string, values: seq<string>)
    ensures |Extended(combos, axis, values)| == |combos| * |values|
  {
    if combos != [] {
      ExtendedCount(combos[1..], axis, values);
      assert |combos| * |values| == |values| + (|combos| - 1) * |values|;
    }
  }

  /** As many combinations as the product of the axis sizes. */
  lemma {:induction false} ComboCount(axes: seq<string>, m: Matrix)
    requires AxesOf(axes, m)
    ensures |Combos(axes, m)| == Count(axes, m)
  {
    if axes != [] {
      var n := |axes| - 1;
      ComboCount(axes[..n], m);
      ExtendedCount(Combos(axes[..n], m), axes[n], m[axes[n]]);
    }
  }

  lemma Quotient(i: nat, c: nat, v: nat)
    requires v > 0 && i < c * v
    ensures i / v < c && i == (i / v) * v + i % v
  {}

  /** Combination i takes, on every axis, the value at its mixed-radix digit. */
  lemma {:induction false} ComboAt(axes: seq<string>, m: Matrix, i: nat)
    requires AxesOf(axes, m) && i < Count(axes, m)
    ensures |Combos(axes, m)| == Count(axes, m) && |Combos(axes, m)[i]| == |axes|
    ensures forall k :: 0 <= k < |axes| ==> Combos(axes, m)[i][k] == Part(axes[k], m[axes[k]][Digit(axes, m, i, k)])
  {
    ComboCount(axes, m);
    if axes != [] {
      var n := |axes| - 1;
      var front, v := axes[..n], |m[axes[n]]|;
      Quotient(i, Count(front, m), v);
      ComboCount(front, m);
      ComboAt(front, m, i / v);
      ExtendedAt(Combos(front, m), axes[n], m[axes[n]], i / v, i % v);
      ComboExtends(axes, m, i, Combos(front, m)[i / v]);
    }
  }

  /** The combination takes on every axis the value at its digit. */
  ghost predicate ComboIs(axes: seq<string>, m: Matrix, i: nat, combo: seq<string>)
    requires AxesOf(axes, m)
  {
    |combo| == |axes| && forall k :: 0 <= k < |axes| ==> combo[k] == Part(axes[k], m[axes[k]][Digit(axes, m, i, k)])
  }

  lemma ComboExtends(axes: seq<string>, m: Matrix, i: nat, combo: seq<string>)
    requires AxesOf(axes, m) && axes != [] && ComboIs(axes[..|axes| - 1], m, i / |m[axes[|axes| - 1]]|, combo)
    ensures var last := axes[|axes| - 1];
            ComboIs(axes, m, i, combo + [Part(last, m[last][i % |m[last]|])])
  {
    var n := |axes| - 1;
    var front, v := axes[..n], |m[axes[n]]|;
    var all := combo + [Part(axes[n], m[axes[n]][i % v])];
    forall k | 0 <= k < |axes|
      ensures all[k] == Part(axes[k], m[axes[k]][Digit(axes, m, i, k)])
    {
      if k < n { assert axes[k] == front[k] && all[k] == combo[k]; }
    }
  }

  /** Different numbers differ in a digit: every combination occurs once. */
  lemma {:induction false} DigitsDiffer(axes: seq<string>, m: Matrix, i: nat, j: nat) returns (k: nat)
    requires AxesOf(axes, m) && i < Count(axes, m) && j < Count(axes, m) && i != j
    ensures k < |axes| && Digit(axes, m, i, k) != Digit(axes, m, j, k)
    decreases |axes|
  {
    var n := |axes| - 1;
    var v := |m[axes[n]]|;
    if i % v != j % v {
      k := n;
    } else {
      Quotient(i, Count(axes[..n], m), v);
      Quotient(j, Count(axes[..n], m), v);
      k := DigitsDiffer(axes[..n], m, i / v, j / v);
    }
  }

  // ---------------------------------------------------------------- instances

  function Values(combo: seq<string>): (r: seq<string>)
    ensures |r| == |combo| && forall k :: 0 <= k < |combo| ==> r[k] == SplitPart(combo[k]).1
  {
    seq(|combo|, k requires 0 <= k < |combo| => SplitPart(combo[k]).1)
  }

  function Assignment(combo: seq<string>): map<string, string> {
    if combo == [] then map[]
    else
      var n := |combo| - 1;
      Assignment(combo[..n])[SplitPart(combo[n]).0 := SplitPart(combo[n]).1]
  }

  function Named(jobId: string, displayName: string, values: seq<string>, matrix: map<string, string>): Instance {
    Instance(jobId + "[" + Join(values, ",") + "]", displayName + " (" + Join(values, ", ") + ")", matrix)
  }

  function InstanceOf(jobId: string, displayName: string, combo: seq<string>): Instance {
    Named(jobId, displayName, Values(combo), Assignment(combo))
  }

  predicate Distinct(xs: seq<string>) {
    forall i, j :: 0 <= i < j < |xs| ==> xs[i] != xs[j]
  }

  lemma {:induction false} AssignmentAt(axes: seq<string>, values: seq<string>, combo: seq<string>, k: nat)
    requires |axes| == |values| == |combo| && Distinct(axes) && k < |axes|
    requires forall a :: 0 <= a < |axes| ==> '=' !in axes[a] && combo[a] == Part(axes[a], values[a])
    ensures axes[k] in Assignment(combo) && Assignment(combo)[axes[k]] == values[k]
    decreases |axes|
  {
    var n := |axes| - 1;
    SplitRecoversIff(axes[n], values[n]);
    if k < n {
      AssignmentAt(axes[..n], values[..n], combo[..n], k);
      assert axes[k] == axes[..n][k] && axes[k] != axes[n];
    }
  }

  /** With plain axis names, instance i maps every axis to its digit's value. */
  lemma InstanceValues(jobId: string, displayName: string, axes: seq<string>, m: Matrix, i: nat, k: nat)
    requires AxesOf(axes, m) && Distinct(axes) && i < Count(axes, m) && k < |axes|
    requires forall a :: 0 <= a < |axes| ==> '=' !in axes[a]
    ensures i < |Combos(axes, m)|
    ensures var r := InstanceOf(jobId, displayName, Combos(axes, m)[i]).matrix;
            axes[k] in r && r[axes[k]] == m[axes[k]][Digit(axes, m, i, k)]
  {
    ComboAt(axes, m, i);
    var combo := Combos(axes, m)[i];
    var values := seq(|axes|, a requires 0 <= a < |axes| => m[axes[a]][Digit(axes, m, i, a)]);
    AssignmentAt(axes, values, combo, k);
  }

  /** With plain axis names, its key and display name show those values in axis order. */
  lemma InstanceName(jobId: string, displayName: string, axes: seq<string>, m: Matrix, i: nat, values: seq<string>)
    requires AxesOf(axes, m) && i < Count(axes, m) && |values| == |axes|
    requires forall a :: 0 <= a < |axes| ==> '=' !in axes[a] && values[a] == m[axes[a]][Digit(axes, m, i, a)]
    ensures i < |Combos(axes, m)|
    ensures var r := InstanceOf(jobId, displayName, Combos(axes, m)[i]);
            r.key == jobId + "[" + Join(values, ",") + "]" && r.displayName == displayName + " (" + Join(values, ", ") + ")"
  {
    ComboAt(axes, m, i);
    var combo := Combos(axes, m)[i];
    forall k | 0 <= k < |axes|
      ensures Values(combo)[k] == values[k]
    {
      SplitRecoversIff(axes[k], values[k]);
    }
    assert Values(combo) == values;
  }

  lemma ComboValues(axes: seq<string>, m: Matrix, i: nat)
    requires AxesOf(axes, m) && i < Count(axes, m)
    ensures i < |Combos(axes, m)| && |Values(Combos(axes, m)[i])| == |axes|
    ensures forall k :: 0 <= k < |axes| ==> Values(Combos(axes, m)[i])[k] == Shown(axes[k], m[axes[k]][Digit(axes, m, i, k)])
  {
    ComboAt(axes, m, i);
  }

  lemma Bracketed(id: string, x: string, y: string)
    requires x != y
    ensures id + "[" + x + "]" != id + "[" + y + "]"
  {
    var s, t := id + "[" + x + "]", id + "[" + y + "]";
    assert x == s[|id| + 1..|s| - 1] && y == t[|id| + 1..|t| - 1];
  }

  // ---------------------------------------------------------------- one axis with commas

  /** The comma-separated pieces of the values, value after value. */
  function Pieces(values: seq<string>): seq<string> {
    if values == [] then [] else Split(values[0], ',') + Pieces(values[1..])
  }

  lemma {:induction false} JoinPieces(values: seq<string>)
    requires values != []
    ensures Split(Join(values, ","), ',') == Pieces(values)
  {
    if |values| == 1 {
      assert Pieces(values[1..]) == [];
    } else {
      JoinPieces(values[1..]);
      SplitConcat(values[0], Join(values[1..], ","), ',');
      assert Join(values, ",") == values[0] + ("," + Join(values[1..], ","));
    }
  }

  predicate NoComma(values: seq<string>) {
    forall k :: 0 <= k < |values| ==> ',' !in values[k]
  }

  lemma {:induction false} PlainPieces(values: seq<string>)
    requires NoComma(values)
    ensures Pieces(values) == values
  {
    if values != [] {
      SplitPlain(values[0], ',');
      PlainPieces(values[1..]);
    }
  }

  /** At most value c has commas. */
  predicate CommasOnlyAt(values: seq<string>, c: int) {
    forall k :: 0 <= k < |values| && k != c ==> ',' !in values[k]
  }

  lemma SameParts(x: seq<string>, a: seq<string>, y: seq<string>, b: seq<string>)
    requires x + a == y + b && (|x| == |y| || |a| == |b|)
    ensures x == y && a == b
  {
    assert |x| == |y|;
    assert (x + a)[..|x|] == x && (y + b)[..|y|] == y;
    assert (x + a)[|x|..] == a && (y + b)[|y|..] == b;
  }

  lemma {:induction false} PiecesDetermine(a: seq<string>, b: seq<string>, c: int)
    requires |a| == |b| && CommasOnlyAt(a, c) && CommasOnlyAt(b, c) && Pieces(a) == Pieces(b)
    ensures a == b
    decreases |a|
  {
    if a != [] {
      var x, y := Split(a[0], ','), Split(b[0], ',');
      if c == 0 {
        PlainPieces(a[1..]);
        PlainPieces(b[1..]);
        SameParts(x, a[1..], y, b[1..]);
        JoinSplit(a[0], ',');
        JoinSplit(b[0], ',');
      } else {
        SplitPlain(a[0], ',');
        SplitPlain(b[0], ',');
        SameParts(x, Pieces(a[1..]), y, Pieces(b[1..]));
        assert x[0] == a[0] && y[0] == b[0];
        PiecesDetermine(a[1..], b[1..], c - 1);
      }
      assert a == [a[0]] + a[1..] && b == [b[0]] + b[1..];
    }
  }

  /** Only on axis c may the values, as shown in keys, contain commas. */
  ghost predicate CommaAxis(axes: seq<string>, m: Matrix, c: int)
    requires AxesOf(axes, m)
  {
    forall k, v :: 0 <= k < |axes| && k != c && 0 <= v < |m[axes[k]]| ==> ',' !in Shown(axes[k], m[axes[k]][v])
  }

  lemma ValuesCommas(axes: seq<string>, m: Matrix, c: int, i: nat)
    requires AxesOf(axes, m) && CommaAxis(axes, m, c) && i < Count(axes, m)
    ensures i < |Combos(axes, m)| && CommasOnlyAt(Values(Combos(axes, m)[i]), c)
  {
    ComboValues(axes, m, i);
  }

  ghost predicate ValuesDistinct(axes: seq<string>, m: Matrix)
    requires AxesOf(axes, m)
  {
    forall k :: 0 <= k < |axes| ==> Distinct(m[axes[k]])
  }

  function KeyAt(jobId: string, axes: seq<string>, m: Matrix, i: nat): string
    requires AxesOf(axes, m) && i < |Combos(axes, m)|
  {
    InstanceOf(jobId, "", Combos(axes, m)[i]).key
  }

  ghost predicate KeysDiffer(jobId: string, axes: seq<string>, m: Matrix)
    requires AxesOf(axes, m)
  {
    forall i, j :: 0 <= i < j < |Combos(axes, m)| ==> KeyAt(jobId, axes, m, i) != KeyAt(jobId, axes, m, j)
  }

  lemma DistinctValuesDiffer(jobId: string, axes: seq<string>, m: Matrix, c: int, i: nat, j: nat)
    requires AxesOf(axes, m) && axes != [] && CommaAxis(axes, m, c) && ValuesDistinct(axes, m)
    requires i < Count(axes, m) && j < Count(axes, m) && i != j
    ensures |Combos(axes, m)| == Count(axes, m) && KeyAt(jobId, axes, m, i) != KeyAt(jobId, axes, m, j)
  {
    ComboCount(axes, m);
    ValuesCommas(axes, m, c, i);
    ValuesCommas(axes, m, c, j);
    ComboValues(axes, m, i);
    ComboValues(axes, m, j);
    var a, b := Values(Combos(axes, m)[i]), Values(Combos(axes, m)[j]);
    var k := DigitsDiffer(axes, m, i, j);
    if a[k] == b[k] { ShownInjective(axes[k], m[axes[k]][Digit(axes, m, i, k)], m[axes[k]][Digit(axes, m, j, k)]); }
    JoinPieces(a);
    JoinPieces(b);
    if Join(a, ",") == Join(b, ",") { PiecesDetermine(a, b, c); }
    Bracketed(jobId, Join(a, ","), Join(b, ","));
  }

  // ---------------------------------------------------------------- every combination of digits

  predicate DigitsOf(axes: seq<string>, m: Matrix, ds: seq<nat>)
    requires AxesOf(axes, m)
  {
    |ds| == |axes| && forall k :: 0 <= k < |axes| ==> ds[k] < |m[axes[k]]|
  }

  /** The number with these mixed-radix digits. */
  function Number(axes: seq<string>, m: Matrix, ds: seq<nat>): nat
    requires AxesOf(axes, m) && DigitsOf(axes, m, ds)
  {
    if axes == [] then 0
    else
      var n := |axes| - 1;
      Number(axes[..n], m, ds[..n]) * |m[axes[n]]| + ds[n]
  }

  lemma Divides(q: nat, d: nat, v: nat)
    requires d < v
    ensures (q * v + d) / v == q && (q * v + d) % v == d
  {
    var x := q * v + d;
    Quotient(x, q + 1, v);
    if x / v < q {
      Multiplied(x / v + 1, q, v);
    }
  }

  lemma Multiplied(a: nat, b: nat, v: nat)
    requires a <= b
    ensures a * v <= b * v
  {}

  lemma {:induction false} NumberDigits(axes: seq<string>, m: Matrix, ds: seq<nat>)
    requires AxesOf(axes, m) && DigitsOf(axes, m, ds)
    ensures Number(axes, m, ds) < Count(axes, m)
    ensures forall k :: 0 <= k < |axes| ==> Digit(axes, m, Number(axes, m, ds), k) == ds[k]
    decreases |axes|
  {
    if axes != [] {
      var n := |axes| - 1;
      var v := |m[axes[n]]|;
      NumberDigits(axes[..n], m, ds[..n]);
      Below(Number(axes[..n], m, ds[..n]), ds[n], Count(axes[..n], m), v);
      Divides(Number(axes[..n], m, ds[..n]), ds[n], v);
      forall k | 0 <= k < |axes|
        ensures Digit(axes, m, Number(axes, m, ds), k) == ds[k]
      {
        if k < n { assert ds[k] == ds[..n][k]; }
      }
    }
  }

  /** A repeated value on an axis gives two instances one key. */
  lemma RepeatedValueCollides(jobId: string, axes: seq<string>, m: Matrix, k: nat, u: nat, v: nat) returns (i: nat, j: nat)
    requires AxesOf(axes, m) && k < |axes| && u < v < |m[axes[k]]| && m[axes[k]][u] == m[axes[k]][v]
    ensures |Combos(axes, m)| == Count(axes, m) && i < Count(axes, m) && j < Count(axes, m) && i != j
    ensures KeyAt(jobId, axes, m, i) == KeyAt(jobId, axes, m, j)
  {
    var zeros := seq(|axes|, _ => 0);
    var a, b := zeros[k := u], zeros[k := v];
    NumberDigits(axes, m, a);
    NumberDigits(axes, m, b);
    i, j := Number(axes, m, a), Number(axes, m, b);
    ComboCount(axes, m);
    ComboValues(axes, m, i);
    ComboValues(axes, m, j);
    assert Values(Combos(axes, m)[i]) == Values(Combos(axes, m)[j]);
  }

  /** With commas on one axis at most, keys are pairwise distinct exactly when
      the values of every axis are. */
  lemma KeysDistinctIff(jobId: string, axes: seq<string>, m: Matrix, c: int)
    requires AxesOf(axes, m) && axes != [] && CommaAxis(axes, m, c)
    ensures KeysDiffer(jobId, axes, m) <==> ValuesDistinct(axes, m)
  {
    ComboCount(axes, m);
    if ValuesDistinct(axes, m) {
      forall i, j | 0 <= i < j < |Combos(axes, m)|
        ensures KeyAt(jobId, axes, m, i) != KeyAt(jobId, axes, m, j)
      {
        DistinctValuesDiffer(jobId, axes, m, c, i, j);
      }
    } else {
      var k :| 0 <= k < |axes| && !Distinct(m[axes[k]]);
      var u, v :| 0 <= u < v < |m[axes[k]]| && m[axes[k]][u] == m[axes[k]][v];
      var i, j := RepeatedValueCollides(jobId, axes, m, k, u, v);
      if i < j {
        assert KeyAt(jobId, axes, m, i) == KeyAt(jobId, axes, m, j);
      } else {
        assert KeyAt(jobId, axes, m, j) == KeyAt(jobId, axes, m, i);
      }
    }
  }

  // ---------------------------------------------------------------- two axes with commas

  lemma JoinTwo(x: string, y: string)
    ensures Join([x, y], ",") == x + "," + y
  {
    assert [x, y][1..] == [y];
  }

  lemma PlainShown(axis: string, value: string)
    requires '=' !in axis
    ensures Shown(axis, value) == value
  {
    SplitRecoversIff(axis, value);
  }

  lemma TwoValues(axes: seq<string>, m: Matrix, i: nat, x: string, y: string)
    requires |axes| == 2 && AxesOf(axes, m) && i < Count(axes, m) && '=' !in axes[0] && '=' !in axes[1]
    requires m[axes[0]][Digit(axes, m, i, 0)] == x && m[axes[1]][Digit(axes, m, i, 1)] == y
    ensures i < |Combos(axes, m)| && Values(Combos(axes, m)[i]) == [x, y]
  {
    ComboValues(axes, m, i);
    PlainShown(axes[0], x);
    PlainShown(axes[1], y);
  }

  /** Two plain axes of two values each, the first values joined making the same
      text as the second values. */
  lemma TwoAxesCollide(jobId: string, axes: seq<string>, m: Matrix, p: string, q: string, r: string)
    requires |axes| == 2 && AxesOf(axes, m) && '=' !in axes[0] && '=' !in axes[1]
    requires m[axes[0]] == [p + "," + q, p] && m[axes[1]] == [r, q + "," + r]
    ensures |Combos(axes, m)| == 4 && KeyAt(jobId, axes, m, 0) == KeyAt(jobId, axes, m, 3)
  {
    ComboCount(axes, m);
    TwoAxesCount(axes, m);
    FirstAndLast(axes, m);
    TwoValues(axes, m, 0, p + "," + q, r);
    TwoValues(axes, m, 3, p, q + "," + r);
    JoinTwo(p + "," + q, r);
    JoinTwo(p, q + "," + r);
    SameText(p, q, r);
  }

  lemma SameText(p: string, q: string, r: string)
    ensures p + "," + q + "," + r == p + "," + (q + "," + r)
  {}

  lemma TwoAxesCount(axes: seq<string>, m: Matrix)
    requires |axes| == 2 && AxesOf(axes, m) && |m[axes[0]]| == 2 && |m[axes[1]]| == 2
    ensures Count(axes, m) == 4
  {
    assert axes[..1] == [axes[0]] && axes[..1][..0] == [];
    assert Count(axes[..1], m) == Count(axes[..1][..0], m) * 2;
  }

  lemma FirstAndLast(axes: seq<string>, m: Matrix)
    requires |axes| == 2 && AxesOf(axes, m) && |m[axes[0]]| == 2 && |m[axes[1]]| == 2
    ensures Digit(axes, m, 0, 0) == 0 && Digit(axes, m, 0, 1) == 0
    ensures Digit(axes, m, 3, 0) == 1 && Digit(axes, m, 3, 1) == 1
  {
    assert axes[..1] == [axes[0]];
  }

  /** Commas on two axes can make two instances of one expansion share a key
      although the values of both axes are distinct. */
  lemma CommasCollide(jobId: string) returns (axes: seq<string>, m: Matrix, i: nat, j: nat)
    ensures AxesOf(axes, m) && ValuesDistinct(axes, m)
    ensures i < |Combos(axes, m)| && j < |Combos(axes, m)| && i != j
    ensures KeyAt(jobId, axes, m, i) == KeyAt(jobId, axes, m, j)
  {
    var p, q, r := "x", "y", "z";
    m := map["a" := [p + "," + q, p], "b" := [r, q + "," + r]];
    axes := ["a", "b"];
    TwoAxesCollide(jobId, axes, m, p, q, r);
    i, j := 0, 3;
  }

  // ---------------------------------------------------------------- expansion

  /** Fails exactly on an axis without values; otherwise lists the instances of
      the axes in byte order. */
  method ExpandMatrix(jobId: string, inst: Instance, m: Matrix) returns (r: Result<seq<Instance>, string>, axes: seq<string>)
    ensures m == map[] ==> r == Ok([inst.(matrix := map[])])
    ensures r.Err? ==> r.error in m && m[r.error] == []
    ensures r.Ok? ==> forall a :: a in m ==> m[a] != []
    ensures r.Ok? && m != map[] ==>
              && Sorted(LexLess, axes) && (forall a :: a in axes <==> a in m) && AxesOf(axes, m)
              && |r.value| == Count(axes, m) == |Combos(axes, m)|
              && forall i :: 0 <= i < |r.value| ==> r.value[i] == InstanceOf(jobId, inst.displayName, Combos(axes, m)[i])
  {
    axes := [];
    if m == map[] { return Ok([inst.(matrix := map[])]), axes; }
    var empty := EmptyAxis(m);
    if empty.Some? { return Err(empty.value), axes; }
    axes := SortStrings(m.Keys);
    assert AxesOf(axes, m) by { assert forall k :: 0 <= k < |axes| ==> axes[k] in axes; }
    var combos := AllCombos(axes, m);
    ComboCount(axes, m);
    var out := BuildAll(jobId, inst.displayName, combos);
    r := Ok(out);
  }

  /** Some axis without values, found in whatever order the map is walked. */
  method EmptyAxis(m: Matrix) returns (r: Option<string>)
    ensures r.Some? ==> r.value in m && m[r.value] == []
    ensures r.None? ==> forall a :: a in m ==> m[a] != []
  {
    var rest := m.Keys;
    while rest != {}
      invariant rest <= m.Keys && forall a :: a in m.Keys - rest ==> m[a] != []
      decreases |rest|
    {
      var axis :| axis in rest;
      if m[axis] == [] { return Some(axis); }
      rest := rest - {axis};
    }
    r := None;
  }

  method BuildAll(jobId: string, displayName: string, combos: seq<seq<string>>) returns (out: seq<Instance>)
    ensures |out| == |combos| && forall i :: 0 <= i < |out| ==> out[i] == InstanceOf(jobId, displayName, combos[i])
  {
    out := [];
    for i := 0 to |combos|
      invariant |out| == i && forall k :: 0 <= k < i ==> out[k] == InstanceOf(jobId, displayName, combos[k])
    {
      var instance := Build(jobId, displayName, combos[i]);
      out := out + [instance];
    }
  }

  method AllCombos(axes: seq<string>, m: Matrix) returns (combos: seq<seq<string>>)
    requires AxesOf(axes, m)
    ensures combos == Combos(axes, m)
  {
    combos := [[]];
    for n := 0 to |axes|
      invariant combos == Combos(axes[..n], m)
    {
      assert axes[..n + 1][..n] == axes[..n];
      combos := ExtendAll(combos, axes[n], m[axes[n]]);
    }
    assert axes[..|axes|] == axes;
  }

  method ExtendAll(combos: seq<seq<string>>, axis: string, values: seq<string>) returns (next: seq<seq<string>>)
    ensures next == Extended(combos, axis, values)
  {
    next := [];
    assert combos[0..] == combos;
    for c := 0 to |combos|
      invariant next + Extended(combos[c..], axis, values) == Extended(combos, axis, values)
    {
      ghost var before, all := next, ExtendOne(combos[c], axis, values);
      for v := 0 to |values|
        invariant next == before + all[..v]
      {
        assert all[..v + 1] == all[..v] + [all[v]];
        next := next + [combos[c] + [Part(axis, values[v])]];
      }
      assert all[..|values|] == all;
      ExtendedNext(combos, c, axis, values, before);
    }
    assert next + [] == next;
  }

  lemma ExtendedNext(combos: seq<seq<string>>, c: nat, axis: string, values: seq<string>, before: seq<seq<string>>)
    requires c < |combos|
    ensures before + Extended(combos[c..], axis, values) ==
            before + ExtendOne(combos[c], axis, values) + Extended(combos[c + 1..], axis, values)
  {
    assert combos[c..][1..] == combos[c + 1..];
    Associates(before, ExtendOne(combos[c], axis, values), Extended(combos[c + 1..], axis, values));
  }

  lemma Associates(a: seq<seq<string>>, b: seq<seq<string>>, c: seq<seq<string>>)
    ensures a + (b + c) == a + b + c
  {}

  lemma AssignmentNext(combo: seq<string>, k: nat)
    requires k < |combo|
    ensures Assignment(combo[..k + 1]) == Assignment(combo[..k])[SplitPart(combo[k]).0 := SplitPart(combo[k]).1]
    ensures Values(combo)[..k + 1] == Values(combo)[..k] + [SplitPart(combo[k]).1]
  {
    assert combo[..k + 1][..k] == combo[..k];
  }

  method Build(jobId: string, displayName: string, combo: seq<string>) returns (r: Instance)
    ensures r == InstanceOf(jobId, displayName, combo)
  {
    var matrix: map<string, string> := map[];
    var parts: seq<string> := [];
    for k := 0 to |combo|
      invariant matrix == Assignment(combo[..k]) && parts == Values(combo)[..k]
    {
      AssignmentNext(combo, k);
      var split := SplitPart(combo[k]);
      matrix := matrix[split.0 := split.1];
      parts := parts + [split.1];
    }
    assert combo[..|combo|] == combo && Values(combo)[..|combo|] == Values(combo);
    r := Named(jobId, displayName, parts, matrix);
  }
}
