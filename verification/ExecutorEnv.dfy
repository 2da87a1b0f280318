/** The environment every step of a run sees, told by who wrote a variable last. */
module ExecutorEnv {
  import opened Prelude
  import Text
  import opened FileCommands
  import opened Executor
  import opened ExecutorTrace

  type Vars = map<string, string>

  function Get(env: Vars, v: string): Option<string> {
    if v in env then Some(env[v]) else None
  }

  /** The value of the last pair with this key. */
  function LastOf(kvs: seq<KV>, key: string): (r: Option<string>)
    ensures r.None? <==> forall i :: 0 <= i < |kvs| ==> kvs[i].key != key
    ensures r.Some? ==> exists i :: IsLast(kvs, key, i) && kvs[i].value == r.value
  {
    if kvs == [] then None
    else
      var n := |kvs| - 1;
      if kvs[n].key == key then
        assert IsLast(kvs, key, n);
        Some(kvs[n].value)
      else
        var r := LastOf(kvs[..n], key);
        assert r.Some? ==> exists i :: IsLast(kvs, key, i) && kvs[i].value == r.value by {
          if r.Some? {
            var i :| IsLast(kvs[..n], key, i) && kvs[..n][i].value == r.value;
            assert IsLast(kvs, key, i);
          }
        }
        r
  }

  function Or(a: Option<string>, b: Option<string>): Option<string> {
    if a.Some? then a else b
  }

  lemma AppliedIs(env: Vars, kvs: seq<KV>, key: string)
    ensures Get(ApplyAll(env, kvs), key) == Or(LastOf(kvs, key), Get(env, key))
  {
    if LastOf(kvs, key).Some? {
      var i :| IsLast(kvs, key, i) && kvs[i].value == LastOf(kvs, key).value;
      LastWins(env, kvs, key, i);
    } else {
      OthersStay(env, kvs, key);
    }
  }

  /** A variable STATE_x is written by the pairs of the state file with key x. */
  predicate Prefixed(v: string) { |v| >= 6 && v[..6] == "STATE_" }

  lemma {:induction false} StatedIs(kvs: seq<KV>, v: string)
    ensures LastOf(Stated(kvs), v) == if Prefixed(v) then LastOf(kvs, v[6..]) else None
  {
    if kvs != [] {
      var n := |kvs| - 1;
      assert Stated(kvs)[..n] == Stated(kvs[..n]);
      StatedIs(kvs[..n], v);
      var key := "STATE_" + kvs[n].key;
      assert key[..6] == "STATE_" && key[6..] == kvs[n].key;
      assert Prefixed(v) ==> v == v[..6] + v[6..];
    }
  }

  // ---------------------------------------------------------------- who wrote a variable last

  /** What the body of step k wrote into the variable, if it ran: its state file
      counts before its environment file. */
  function WrittenBy(plan: seq<Step>, world: World, seen: seq<Seen>, k: nat, v: string): Option<string>
    requires k < |plan| && k < |seen|
  {
    if !BodyRuns(plan[k], world, seen[k]) then None
    else
      var f := world.files(k);
      Or(if Prefixed(v) then LastOf(PairsOf(f.state), v[6..]) else None, LastOf(PairsOf(f.env), v))
  }

  /** The value before step k: the latest of what bodies and the engine wrote, or
      the job's own. */
  function VarBefore(env: Vars, plan: seq<Step>, world: World, seen: seq<Seen>, k: nat, v: string): Option<string>
    requires k <= |plan| && k <= |seen|
  {
    if k == 0 then Get(env, v)
    else
      Or(WrittenBy(plan, world, seen, k - 1, v),
         Or(Get(world.fileNames(k - 1), v), VarBefore(env, plan, world, seen, k - 1, v)))
  }

  /** The path entries before step k, those of later steps first. */
  function PathsBefore(plan: seq<Step>, world: World, seen: seq<Seen>, k: nat): seq<string>
    requires k <= |plan| && k <= |seen|
  {
    if k == 0 then []
    else
      (if BodyRuns(plan[k - 1], world, seen[k - 1]) then NonBlank(SplitLines(world.files(k - 1).path)) else [])
      + PathsBefore(plan, world, seen, k - 1)
  }

  /** What step k finds in a variable before its path is put together: its own
      setting, the engine's file names, or what came before. */
  function BaseOf(env: Vars, plan: seq<Step>, world: World, seen: seq<Seen>, k: nat, v: string): Option<string>
    requires k < |plan| && k <= |seen|
  {
    Or(Get(plan[k].env, v), Or(Get(world.fileNames(k), v), VarBefore(env, plan, world, seen, k, v)))
  }

  ghost predicate SeesEnv(env: Vars, plan: seq<Step>, world: World, seen: seq<Seen>, k: nat)
    requires k < |plan| && k < |seen|
  {
    var paths := PathsBefore(plan, world, seen, k);
    forall v :: Get(seen[k].env, v) ==
      if v == "PATH" && paths != [] then
        var base := BaseOf(env, plan, world, seen, k, v);
        Some(Text.Join(paths, ":") + ":" + if base.Some? then base.value else "")
      else BaseOf(env, plan, world, seen, k, v)
  }

  // ---------------------------------------------------------------- the loop keeps it

  ghost predicate EnvTraced(p: Progress, env: Vars, plan: seq<Step>, i: nat, world: World) {
    && |p.seen| == i <= |plan|
    && (forall v :: Get(p.env, v) == VarBefore(env, plan, world, p.seen, i, v))
    && p.paths == PathsBefore(plan, world, p.seen, i)
    && AllSee(env, plan, world, p.seen)
  }

  ghost predicate AllSee(env: Vars, plan: seq<Step>, world: World, seen: seq<Seen>) {
    |seen| <= |plan| && forall k :: 0 <= k < |seen| ==> SeesEnv(env, plan, world, seen, k)
  }

  lemma {:induction false} BeforeKept(env: Vars, plan: seq<Step>, world: World, seen: seq<Seen>, more: seq<Seen>, k: nat, v: string)
    requires k <= |plan| && k <= |seen| && seen <= more
    ensures VarBefore(env, plan, world, more, k, v) == VarBefore(env, plan, world, seen, k, v)
    ensures PathsBefore(plan, world, more, k) == PathsBefore(plan, world, seen, k)
  {
    if k > 0 { BeforeKept(env, plan, world, seen, more, k - 1, v); }
  }

  lemma SeesKept(env: Vars, plan: seq<Step>, world: World, seen: seq<Seen>, more: seq<Seen>, k: nat)
    requires k < |plan| && k < |seen| && seen <= more && SeesEnv(env, plan, world, seen, k)
    ensures SeesEnv(env, plan, world, more, k)
  {
    BeforeKept(env, plan, world, seen, more, k, "PATH");
    forall v
      ensures BaseOf(env, plan, world, more, k, v) == BaseOf(env, plan, world, seen, k, v)
    {
      BeforeKept(env, plan, world, seen, more, k, v);
    }
  }

  /** The contexts of the next step. */
  lemma NextSees(p: Progress, env: Vars, plan: seq<Step>, i: nat, world: World, seen: Seen)
    requires i < |plan| && EnvTraced(p, env, plan, i, world)
    requires seen.env == StepEnv(Overlay(p.env, world.fileNames(i)), plan[i], p.paths)
    ensures AllSee(env, plan, world, p.seen + [seen])
  {
    var more := p.seen + [seen];
    forall k | 0 <= k < |more|
      ensures SeesEnv(env, plan, world, more, k)
    {
      if k < i {
        SeesKept(env, plan, world, p.seen, more, k);
      } else {
        StepSees(p, env, plan, i, world, seen);
      }
    }
  }

  lemma StepSees(p: Progress, env: Vars, plan: seq<Step>, i: nat, world: World, seen: Seen)
    requires i < |plan| && EnvTraced(p, env, plan, i, world)
    requires seen.env == StepEnv(Overlay(p.env, world.fileNames(i)), plan[i], p.paths)
    ensures SeesEnv(env, plan, world, p.seen + [seen], i)
  {
    var more := p.seen + [seen];
    var e := Overlay(Overlay(p.env, world.fileNames(i)), plan[i].env);
    BeforeKept(env, plan, world, p.seen, more, i, "PATH");
    forall v
      ensures BaseOf(env, plan, world, more, i, v) == Get(e, v)
    {
      BeforeKept(env, plan, world, p.seen, more, i, v);
      assert Get(p.env, v) == VarBefore(env, plan, world, p.seen, i, v);
    }
  }

  /** The step is over: its body ran and its files were folded in, or it wrote nothing. */
  ghost predicate EnvMoved(p: Progress, q: Progress, step: Step, i: nat, world: World, seen: Seen) {
    var e := Overlay(p.env, world.fileNames(i));
    && q.seen == p.seen + [seen]
    && if BodyRuns(step, world, seen) then q.env == FoldEnv(e, world.files(i)) && q.paths == FoldPaths(p.paths, world.files(i))
       else q.env == e && q.paths == p.paths
  }

  lemma FoldedIs(e: Vars, f: Files, v: string)
    ensures Get(FoldEnv(e, f), v) ==
            Or(Or(if Prefixed(v) then LastOf(PairsOf(f.state), v[6..]) else None, LastOf(PairsOf(f.env), v)), Get(e, v))
  {
    AppliedIs(ApplyAll(e, PairsOf(f.env)), Stated(PairsOf(f.state)), v);
    AppliedIs(e, PairsOf(f.env), v);
    StatedIs(PairsOf(f.state), v);
  }

  lemma MovedTraced(p: Progress, q: Progress, env: Vars, plan: seq<Step>, i: nat, world: World, seen: Seen)
    requires i < |plan| && EnvTraced(p, env, plan, i, world) && EnvMoved(p, q, plan[i], i, world, seen)
    requires seen.env == StepEnv(Overlay(p.env, world.fileNames(i)), plan[i], p.paths)
    ensures EnvTraced(q, env, plan, i + 1, world)
  {
    NextSees(p, env, plan, i, world, seen);
    BeforeKept(env, plan, world, p.seen, q.seen, i, "PATH");
    forall v
      ensures Get(q.env, v) == VarBefore(env, plan, world, q.seen, i + 1, v)
    {
      assert Get(p.env, v) == VarBefore(env, plan, world, p.seen, i, v);
      MovedVar(p, q, env, plan, i, world, seen, v);
    }
  }

  lemma MovedVar(p: Progress, q: Progress, env: Vars, plan: seq<Step>, i: nat, world: World, seen: Seen, v: string)
    requires i < |plan| && |p.seen| == i && EnvMoved(p, q, plan[i], i, world, seen)
    requires Get(p.env, v) == VarBefore(env, plan, world, p.seen, i, v)
    ensures Get(q.env, v) == VarBefore(env, plan, world, q.seen, i + 1, v)
  {
    var e := Overlay(p.env, world.fileNames(i));
    BeforeKept(env, plan, world, p.seen, q.seen, i, v);
    assert Get(e, v) == Or(Get(world.fileNames(i), v), Get(p.env, v));
    FoldedIs(e, world.files(i), v);
  }

  function SeenNext(p: Progress, step: Step, i: nat, world: World): Seen {
    Seen(StepEnv(Overlay(p.env, world.fileNames(i)), step, p.paths), p.states, JobStatusFor(p.states))
  }

  /** A wanted step: its files are folded in exactly if its body runs. */
  lemma ExecuteMoves(q: Progress, step: Step, i: nat, world: World, seen: Seen)
    requires Wanted(step, world, seen)
    ensures var m := Execute(q, step, i, world, seen);
            && m.p.seen == q.seen
            && (m.Onward? ==> if BodyRuns(step, world, seen)
                              then m.p.env == FoldEnv(q.env, world.files(i)) && m.p.paths == FoldPaths(q.paths, world.files(i))
                              else m.p.env == q.env && m.p.paths == q.paths)
  {}

  lemma StepMoves(p: Progress, plan: seq<Step>, i: nat, world: World)
    requires i < |plan|
    ensures var m := DoStep(p, plan[i], i, world);
            var seen := SeenNext(p, plan[i], i, world);
            && (m.Onward? ==> EnvMoved(p, m.p, plan[i], i, world, seen))
            && (m.Halt? ==> m.p.seen == p.seen || m.p.seen == p.seen + [seen])
  {
    var seen := SeenNext(p, plan[i], i, world);
    if Reached(world, i) && Wanted(plan[i], world, seen) {
      ExecuteMoves(p.(env := Overlay(p.env, world.fileNames(i)), seen := p.seen + [seen]), plan[i], i, world, seen);
    }
  }

  lemma {:induction false} LoopSees(p: Progress, env: Vars, plan: seq<Step>, i: nat, world: World)
    requires i <= |plan| && EnvTraced(p, env, plan, i, world)
    ensures AllSee(env, plan, world, Loop(p, plan, i, world).p.seen)
    decreases |plan| - i
  {
    if i < |plan| {
      var m := DoStep(p, plan[i], i, world);
      var seen := SeenNext(p, plan[i], i, world);
      StepMoves(p, plan, i, world);
      NextSees(p, env, plan, i, world, seen);
      if m.Onward? {
        MovedTraced(p, m.p, env, plan, i, world, seen);
        LoopSees(m.p, env, plan, i + 1, world);
      }
    }
  }

  /** In every run each step sees in each variable its own setting, or else what
      was written last before it: by the engine, by the command files of a body
      that ran, or by the job; and its path starts with the entries of the latest
      steps. */
  lemma RunSees(env: Vars, plan: seq<Step>, world: World)
    ensures AllSee(env, plan, world, Loop(Started(env), plan, 0, world).p.seen)
  {
    LoopSees(Started(env), env, plan, 0, world);
  }

  /** The path entries of a file are its lines that are not blank, in order. */
  lemma {:induction false} NonBlankIs(lines: seq<string>)
    ensures forall x :: x in NonBlank(lines) <==> x in lines && Text.Trim(x) != ""
    ensures (forall i :: 0 <= i < |lines| ==> Text.Trim(lines[i]) != "") ==> NonBlank(lines) == lines
  {
    if lines != [] {
      NonBlankIs(lines[1..]);
      assert lines == [lines[0]] + lines[1..];
    }
  }
}
