/** The step loop of the job executor (internal/runtime/executor/engine.go,
    expr.go). Processes, files, cancellation and the expression evaluator are
    inputs; what steps write to their command files is folded in. */
module Executor {
  import opened Prelude
  import Text
  import opened FileCommands

  datatype Mark = Passed | Failed | Skipped

  datatype StepResult = StepResult(id: string, outcome: Mark, conclusion: Mark)

  /** What later expressions see of a step. */
  datatype StepState = StepState(outputs: map<string, string>, outcome: Mark, conclusion: Mark)

  type States = map<string, StepState>

  datatype Kind = Script | Builtin(known: bool) | JavaScript | Composite

  datatype Step = Step(id: string, condition: string, kind: Kind, continueOnError: bool, env: map<string, string>)

  /** The contexts an expression of a step is evaluated in. */
  datatype Seen = Seen(env: map<string, string>, states: States, status: string)

  datatype Exit = Fine | Interrupted | Broke

  /** What a step left in its command files, and outputs it set directly. */
  datatype Files = Files(env: string, output: string, path: string, state: string, outputs: map<string, string>)

  datatype World = World(
    cancelled: nat -> bool,
    prepared: nat -> bool,
    fileNames: nat -> map<string, string>,
    evaluate: (string, Seen) -> Option<bool>,
    renders: (Step, Seen) -> bool,
    run: (nat, Seen) -> Exit,
    files: nat -> Files)

  datatype JobResult = JobResult(success: bool, cancelled: bool, steps: seq<StepResult>)

  datatype Ending = Completed | StepFailed | CancelledRun | NotPrepared

  datatype Progress = Progress(env: map<string, string>, states: States, paths: seq<string>, steps: seq<StepResult>, seen: seq<Seen>)

  // ---------------------------------------------------------------- one step

  predicate FailsJob(st: StepState) { st.outcome == Failed && st.conclusion != Passed }

  /** Success until a step failed without continue-on-error. */
  function JobStatusFor(states: States): string {
    if exists id :: id in states && FailsJob(states[id]) then "failure" else "success"
  }

  function Overlay(env: map<string, string>, over: map<string, string>): map<string, string> {
    env + over
  }

  function StepEnv(env: map<string, string>, step: Step, paths: seq<string>): map<string, string> {
    var e := Overlay(env, step.env);
    if paths == [] then e
    else e["PATH" := Text.Join(paths, ":") + ":" + (if "PATH" in e then e["PATH"] else "")]
  }

  function PairsOf(file: string): seq<KV> {
    match ParseLines(SplitLines(file))
    case Ok(kvs) => kvs
    case Err(_) => []
  }

  function Stated(kvs: seq<KV>): seq<KV> {
    seq(|kvs|, i requires 0 <= i < |kvs| => KV("STATE_" + kvs[i].key, kvs[i].value))
  }

  function NonBlank(lines: seq<string>): seq<string> {
    if lines == [] then []
    else (if Text.Trim(lines[0]) == "" then [] else [lines[0]]) + NonBlank(lines[1..])
  }

  /** A malformed command file is passed over. */
  function FoldEnv(env: map<string, string>, f: Files): map<string, string> {
    ApplyAll(ApplyAll(env, PairsOf(f.env)), Stated(PairsOf(f.state)))
  }

  function FoldOutputs(f: Files): map<string, string> {
    ApplyAll(f.outputs, PairsOf(f.output))
  }

  function FoldPaths(paths: seq<string>, f: Files): seq<string> {
    NonBlank(SplitLines(f.path)) + paths
  }

  datatype Stop = BeforeStep | Unprepared | DuringStep | FailFrom(k: nat)

  datatype Move = Onward(p: Progress) | Halt(p: Progress, stop: Stop)

  function Record(p: Progress, step: Step, outputs: map<string, string>, outcome: Mark, conclusion: Mark): Progress {
    p.(states := p.states[step.id := StepState(outputs, outcome, conclusion)],
       steps := p.steps + [StepResult(step.id, outcome, conclusion)])
  }

  /** Running the step's body and folding what it wrote. */
  function RunBody(p: Progress, step: Step, i: nat, world: World, seen: Seen): Move {
    var f := world.files(i);
    var q := p.(env := FoldEnv(p.env, f), paths := FoldPaths(p.paths, f));
    match world.run(i, seen)
    case Fine => Onward(Record(q, step, FoldOutputs(f), Passed, Passed))
    case Interrupted => Halt(q, DuringStep)
    case Broke =>
      if step.continueOnError then Onward(Record(q, step, FoldOutputs(f), Failed, Passed))
      else Halt(q.(steps := q.steps + [StepResult(step.id, Failed, Failed)]), FailFrom(i + 1))
  }

  function Execute(p: Progress, step: Step, i: nat, world: World, seen: Seen): Move {
    if step.kind.Composite? then Onward(Record(p, step, map[], Passed, Passed))
    else if !world.renders(step, seen) then Halt(p, FailFrom(i))
    else if step.kind.Builtin? && !step.kind.known then Halt(p, FailFrom(i))
    else RunBody(p, step, i, world, seen)
  }

  function DoStep(p: Progress, step: Step, i: nat, world: World): Move {
    if world.cancelled(i) then Halt(p, BeforeStep)
    else if !world.prepared(i) then Halt(p, Unprepared)
    else
      var env := Overlay(p.env, world.fileNames(i));
      var seen := Seen(StepEnv(env, step, p.paths), p.states, JobStatusFor(p.states));
      var q := p.(env := env, seen := p.seen + [seen]);
      if step.condition == "" then Execute(q, step, i, world, seen)
      else
        match world.evaluate(step.condition, seen)
        case None => Halt(q, FailFrom(i))
        case Some(false) => Onward(Record(q, step, map[], Skipped, Skipped))
        case Some(true) => Execute(q, step, i, world, seen)
  }

  // ---------------------------------------------------------------- a whole run

  function Loop(p: Progress, plan: seq<Step>, i: nat, world: World): Move
    requires i <= |plan|
    decreases |plan| - i
  {
    if i == |plan| then Onward(p)
    else
      match DoStep(p, plan[i], i, world)
      case Halt(q, stop) => Halt(q, stop)
      case Onward(q) => Loop(q, plan, i + 1, world)
  }

  function SkippedFrom(plan: seq<Step>, k: nat): (r: seq<StepResult>)
    ensures |r| == if k <= |plan| then |plan| - k else 0
    ensures forall j :: 0 <= j < |r| ==> r[j] == StepResult(plan[k + j].id, Skipped, Skipped)
  {
    if k > |plan| then []
    else seq(|plan| - k, j requires 0 <= j < |plan| - k => StepResult(plan[k + j].id, Skipped, Skipped))
  }

  function ResultOf(plan: seq<Step>, m: Move): JobResult {
    match m
    case Onward(p) => JobResult(true, false, p.steps)
    case Halt(p, BeforeStep) => JobResult(false, true, p.steps)
    case Halt(p, DuringStep) => JobResult(false, true, p.steps)
    case Halt(p, Unprepared) => JobResult(false, false, p.steps)
    case Halt(p, FailFrom(k)) => JobResult(false, false, p.steps + SkippedFrom(plan, k))
  }

  function EndingOf(m: Move): Ending {
    match m
    case Onward(_) => Completed
    case Halt(_, FailFrom(_)) => StepFailed
    case Halt(_, Unprepared) => NotPrepared
    case Halt(_, _) => CancelledRun
  }

  function Started(env: map<string, string>): Progress {
    Progress(env, map[], [], [], [])
  }

  // ---------------------------------------------------------------- the invariant

  /** One result per step so far, in plan order, none of them failing the job. */
  ghost predicate OnTrack(p: Progress, plan: seq<Step>, i: nat) {
    && |p.steps| == i <= |plan|
    && forall k :: 0 <= k < i ==> p.steps[k].id == plan[k].id && p.steps[k].conclusion != Failed
  }

  predicate IsLatest(steps: seq<StepResult>, id: string, k: int) {
    0 <= k < |steps| && steps[k].id == id && forall j :: k < j < |steps| ==> steps[j].id != id
  }

  /** The steps context shows, per id, the latest result. */
  ghost predicate Mirrors(p: Progress) {
    && (forall id :: id in p.states ==> exists k :: IsLatest(p.steps, id, k))
    && (forall id, k :: IsLatest(p.steps, id, k) ==>
          && id in p.states
          && p.states[id].outcome == p.steps[k].outcome && p.states[id].conclusion == p.steps[k].conclusion)
  }

  ghost predicate NoneFails(p: Progress) {
    && (forall id :: id in p.states ==> p.states[id].conclusion != Failed && !FailsJob(p.states[id]))
    && (forall k :: 0 <= k < |p.seen| ==> p.seen[k].status == "success")
  }

  ghost predicate Good(p: Progress, plan: seq<Step>, i: nat) {
    OnTrack(p, plan, i) && Mirrors(p) && NoneFails(p)
  }

  lemma RecordMirrors(p: Progress, step: Step, outputs: map<string, string>, outcome: Mark, conclusion: Mark)
    requires Mirrors(p)
    ensures Mirrors(Record(p, step, outputs, outcome, conclusion))
  {
    var q := Record(p, step, outputs, outcome, conclusion);
    var n := |p.steps|;
    assert IsLatest(q.steps, step.id, n);
    forall id, k
      ensures id != step.id ==> (IsLatest(q.steps, id, k) <==> IsLatest(p.steps, id, k))
    {
      if id != step.id {
        assert q.steps[n].id == step.id;
        assert forall j :: 0 <= j < n ==> q.steps[j] == p.steps[j];
      }
    }
    forall id | id in q.states
      ensures exists k :: IsLatest(q.steps, id, k)
    {
      if id != step.id {
        var k :| IsLatest(p.steps, id, k);
        assert IsLatest(q.steps, id, k);
      }
    }
  }

  lemma RecordGood(p: Progress, plan: seq<Step>, i: nat, outputs: map<string, string>, outcome: Mark, conclusion: Mark)
    requires i < |plan| && Good(p, plan, i) && conclusion != Failed && (outcome == Failed ==> conclusion == Passed)
    ensures Good(Record(p, plan[i], outputs, outcome, conclusion), plan, i + 1)
  {
    RecordMirrors(p, plan[i], outputs, outcome, conclusion);
  }

  /** Where a halt leaves the results: those of the steps before it, plus the
      failing one when later steps are all that is left to skip. */
  ghost predicate Halted(p: Progress, stop: Stop, plan: seq<Step>, i: nat) {
    && i < |plan|
    && (forall k :: 0 <= k < |p.seen| ==> p.seen[k].status == "success")
    && if stop == FailFrom(i + 1) then
         |p.steps| == i + 1 && p.steps[i] == StepResult(plan[i].id, Failed, Failed)
         && forall k :: 0 <= k < i ==> p.steps[k].id == plan[k].id && p.steps[k].conclusion != Failed
       else (stop.FailFrom? ==> stop.k == i) && OnTrack(p, plan, i)
  }

  ghost predicate MoveOk(m: Move, plan: seq<Step>, i: nat) {
    match m
    case Onward(q) => Good(q, plan, i + 1)
    case Halt(q, stop) => Halted(q, stop, plan, i)
  }

  ghost predicate EndOk(m: Move, plan: seq<Step>) {
    match m
    case Onward(q) => Good(q, plan, |plan|)
    case Halt(q, stop) => exists k :: Halted(q, stop, plan, k)
  }

  lemma StepKeeps(p: Progress, plan: seq<Step>, i: nat, world: World)
    requires i < |plan| && Good(p, plan, i)
    ensures MoveOk(DoStep(p, plan[i], i, world), plan, i)
  {
    if !world.cancelled(i) && world.prepared(i) {
      var env := Overlay(p.env, world.fileNames(i));
      var seen := Seen(StepEnv(env, plan[i], p.paths), p.states, JobStatusFor(p.states));
      var q := p.(env := env, seen := p.seen + [seen]);
      SeenGood(p, q, plan, i, seen);
      ExecuteKeeps(q, plan, i, world, seen);
      RecordGood(q, plan, i, map[], Skipped, Skipped);
    }
  }

  lemma SeenGood(p: Progress, q: Progress, plan: seq<Step>, i: nat, seen: Seen)
    requires Good(p, plan, i) && seen.status == JobStatusFor(p.states)
    requires q == p.(env := q.env, seen := p.seen + [seen])
    ensures Good(q, plan, i)
  {
    assert JobStatusFor(p.states) == "success";
  }

  lemma ExecuteKeeps(p: Progress, plan: seq<Step>, i: nat, world: World, seen: Seen)
    requires i < |plan| && Good(p, plan, i)
    ensures MoveOk(Execute(p, plan[i], i, world, seen), plan, i)
  {
    RecordGood(p, plan, i, map[], Passed, Passed);
    BodyKeeps(p, plan, i, world, seen);
  }

  lemma BodyKeeps(p: Progress, plan: seq<Step>, i: nat, world: World, seen: Seen)
    requires i < |plan| && Good(p, plan, i)
    ensures MoveOk(RunBody(p, plan[i], i, world, seen), plan, i)
  {
    var f := world.files(i);
    var q := p.(env := FoldEnv(p.env, f), paths := FoldPaths(p.paths, f));
    SurroundingsGood(p, q, plan, i);
    match world.run(i, seen)
    case Fine => RecordGood(q, plan, i, FoldOutputs(f), Passed, Passed);
    case Interrupted =>
    case Broke =>
      if plan[i].continueOnError {
        RecordGood(q, plan, i, FoldOutputs(f), Failed, Passed);
      } else {
        FailHalts(q, plan, i);
      }
  }

  lemma SurroundingsGood(p: Progress, q: Progress, plan: seq<Step>, i: nat)
    requires Good(p, plan, i) && q == p.(env := q.env, paths := q.paths)
    ensures Good(q, plan, i)
  {}

  lemma FailHalts(q: Progress, plan: seq<Step>, i: nat)
    requires i < |plan| && Good(q, plan, i)
    ensures Halted(q.(steps := q.steps + [StepResult(plan[i].id, Failed, Failed)]), FailFrom(i + 1), plan, i)
  {}

  lemma {:induction false} LoopKeeps(p: Progress, plan: seq<Step>, i: nat, world: World)
    requires i <= |plan| && Good(p, plan, i)
    ensures EndOk(Loop(p, plan, i, world), plan)
    decreases |plan| - i
  {
    if i < |plan| {
      StepKeeps(p, plan, i, world);
      LoopStep(p, plan, i, world, DoStep(p, plan[i], i, world));
      if DoStep(p, plan[i], i, world).Onward? { LoopKeeps(DoStep(p, plan[i], i, world).p, plan, i + 1, world); }
    }
  }

  lemma LoopStep(p: Progress, plan: seq<Step>, i: nat, world: World, m: Move)
    requires i < |plan| && m == DoStep(p, plan[i], i, world) && MoveOk(m, plan, i)
    ensures m.Halt? ==> Loop(p, plan, i, world) == m && EndOk(m, plan)
    ensures m.Onward? ==> Loop(p, plan, i, world) == Loop(m.p, plan, i + 1, world)
  {}

  // ---------------------------------------------------------------- what a run reports

  /** One result per plan step, in plan order; a failing one is the only one and
      everything behind it is skipped. */
  ghost predicate Conserved(plan: seq<Step>, steps: seq<StepResult>) {
    && |steps| == |plan| && (forall k :: 0 <= k < |plan| ==> steps[k].id == plan[k].id)
    && (forall a, b :: 0 <= a < b < |steps| && steps[a].conclusion == Failed ==> steps[b] == StepResult(plan[b].id, Skipped, Skipped))
  }

  /** The results of the steps that were done, none failing. */
  ghost predicate PlanPrefix(plan: seq<Step>, steps: seq<StepResult>) {
    |steps| <= |plan| && forall k :: 0 <= k < |steps| ==> steps[k].id == plan[k].id && steps[k].conclusion != Failed
  }

  lemma GoodStart(env: map<string, string>, plan: seq<Step>)
    ensures Good(Started(env), plan, 0)
  {}

  lemma FailConserves(plan: seq<Step>, p: Progress, stop: Stop, i: nat)
    requires i < |plan| && Halted(p, stop, plan, i) && stop.FailFrom?
    ensures Conserved(plan, p.steps + SkippedFrom(plan, stop.k))
  {
    var r := p.steps + SkippedFrom(plan, stop.k);
    forall b | 0 <= b < |r|
      ensures r[b].id == plan[b].id
      ensures b >= |p.steps| ==> r[b] == StepResult(plan[b].id, Skipped, Skipped)
    {
      if b >= |p.steps| { assert r[b] == SkippedFrom(plan, stop.k)[b - |p.steps|]; }
    }
  }

  lemma RunConserves(env: map<string, string>, plan: seq<Step>, world: World)
    ensures var m := Loop(Started(env), plan, 0, world);
            var r := ResultOf(plan, m);
            && (EndingOf(m).Completed? || EndingOf(m).StepFailed? ==> Conserved(plan, r.steps))
            && (!EndingOf(m).StepFailed? ==> PlanPrefix(plan, r.steps))
            && (r.success <==> EndingOf(m).Completed?) && (r.cancelled <==> EndingOf(m).CancelledRun?)
  {
    GoodStart(env, plan);
    LoopKeeps(Started(env), plan, 0, world);
    var m := Loop(Started(env), plan, 0, world);
    if m.Halt? {
      var i :| Halted(m.p, m.stop, plan, i);
      if m.stop.FailFrom? { FailConserves(plan, m.p, m.stop, i); }
    }
  }

  /** No step expression ever sees another job status than success. */
  lemma StatusIsSuccess(env: map<string, string>, plan: seq<Step>, world: World)
    ensures forall k :: 0 <= k < |Loop(Started(env), plan, 0, world).p.seen| ==>
              Loop(Started(env), plan, 0, world).p.seen[k].status == "success"
  {
    GoodStart(env, plan);
    LoopKeeps(Started(env), plan, 0, world);
  }

  // ---------------------------------------------------------------- the engine

  lemma FailWithin(p: Progress, step: Step, i: nat, world: World)
    ensures var m := DoStep(p, step, i, world);
            m.Halt? && m.stop.FailFrom? ==> m.stop.k <= i + 1
  {}

  class Engine {
    var reports: seq<JobResult>
    var env: map<string, string>
    var states: States
    var pathEntries: seq<string>
    var steps: seq<StepResult>
    ghost var seen: seq<Seen>

    ghost function View(): Progress
      reads this
    {
      Progress(env, states, pathEntries, steps, seen)
    }

    constructor ()
      ensures reports == []
    {
      reports, env, states, pathEntries, steps, seen := [], map[], map[], [], [], [];
    }

    method Report(r: JobResult)
      modifies this`reports
      ensures reports == old(reports) + [r]
    {
      reports := reports + [r];
    }

    /** Records the remaining steps as skipped and reports the failed job. */
    method FailJob(plan: seq<Step>, from: nat)
      returns (r: JobResult)
      requires from <= |plan|
      modifies this`reports, this`steps
      ensures r == JobResult(false, false, old(steps) + SkippedFrom(plan, from)) && reports == old(reports) + [r]
    {
      ghost var all := SkippedFrom(plan, from);
      for k := from to |plan|
        invariant steps == old(steps) + all[..k - from] && reports == old(reports)
      {
        assert all[..k - from + 1] == all[..k - from] + [all[k - from]];
        steps := steps + [StepResult(plan[k].id, Skipped, Skipped)];
      }
      assert all[..|plan| - from] == all;
      r := JobResult(false, false, steps);
      Report(r);
    }

    method Keep(step: Step, outputs: map<string, string>, outcome: Mark, conclusion: Mark)
      modifies this`states, this`steps
      ensures View() == Record(old(View()), step, outputs, outcome, conclusion)
    {
      states := states[step.id := StepState(outputs, outcome, conclusion)];
      steps := steps + [StepResult(step.id, outcome, conclusion)];
    }

    /** The step's body; its command files count whether it failed or not. */
    method RunStepBody(step: Step, i: nat, world: World, ctx: Seen) returns (stop: Option<Stop>)
      modifies this`env, this`states, this`pathEntries, this`steps
      ensures Moved(RunBody(old(View()), step, i, world, ctx), View(), stop)
    {
      stop := None;
      var exit := world.run(i, ctx);
      var f := world.files(i);
      env := FoldEnv(env, f);
      pathEntries := FoldPaths(pathEntries, f);
      match exit {
        case Fine => Keep(step, FoldOutputs(f), Passed, Passed);
        case Interrupted => stop := Some(DuringStep);
        case Broke =>
          if step.continueOnError {
            Keep(step, FoldOutputs(f), Failed, Passed);
          } else {
            steps := steps + [StepResult(step.id, Failed, Failed)];
            stop := Some(FailFrom(i + 1));
          }
      }
    }

    method ExecuteStep(step: Step, i: nat, world: World, ctx: Seen) returns (stop: Option<Stop>)
      modifies this`env, this`states, this`pathEntries, this`steps
      ensures Moved(Execute(old(View()), step, i, world, ctx), View(), stop)
    {
      if step.kind.Composite? {
        Keep(step, map[], Passed, Passed);
        return None;
      }
      if !world.renders(step, ctx) { return Some(FailFrom(i)); }
      if step.kind.Builtin? && !step.kind.known { return Some(FailFrom(i)); }
      stop := RunStepBody(step, i, world, ctx);
    }

    method TakeStep(step: Step, i: nat, world: World) returns (stop: Option<Stop>)
      modifies this`env, this`states, this`pathEntries, this`steps, this`seen
      ensures Moved(DoStep(old(View()), step, i, world), View(), stop)
    {
      if world.cancelled(i) { return Some(BeforeStep); }
      if !world.prepared(i) { return Some(Unprepared); }
      env := Overlay(env, world.fileNames(i));
      var ctx := Seen(StepEnv(env, step, pathEntries), states, JobStatusFor(states));
      seen := seen + [ctx];
      if step.condition != "" {
        var run := world.evaluate(step.condition, ctx);
        if run.None? { return Some(FailFrom(i)); }
        if !run.value {
          Keep(step, map[], Skipped, Skipped);
          return None;
        }
      }
      stop := ExecuteStep(step, i, world, ctx);
    }

    /** Exactly one report, of the returned result, unless the run could not be prepared. */
    method Run(jobEnv: map<string, string>, plan: seq<Step>, world: World) returns (result: JobResult, ending: Ending)
      modifies this
      ensures result == ResultOf(plan, Loop(Started(jobEnv), plan, 0, world))
      ensures ending == EndingOf(Loop(Started(jobEnv), plan, 0, world))
      ensures reports == old(reports) + if ending.NotPrepared? then [] else [result]
      ensures seen == Loop(Started(jobEnv), plan, 0, world).p.seen
    {
      env, states, pathEntries, steps, seen := jobEnv, map[], [], [], [];
      ghost var goal := Loop(View(), plan, 0, world);
      for i := 0 to |plan|
        invariant Loop(View(), plan, i, world) == goal && reports == old(reports)
      {
        FailWithin(View(), plan[i], i, world);
        var stop := TakeStep(plan[i], i, world);
        if stop.Some? {
          result, ending := Stopped(plan, stop.value);
          return;
        }
      }
      result, ending := JobResult(true, false, steps), Completed;
      Report(result);
    }

    method Stopped(plan: seq<Step>, stop: Stop) returns (result: JobResult, ending: Ending)
      requires stop.FailFrom? ==> stop.k <= |plan|
      modifies this`reports, this`steps
      ensures result == ResultOf(plan, Halt(old(View()), stop)) && ending == EndingOf(Halt(old(View()), stop))
      ensures reports == old(reports) + if ending.NotPrepared? then [] else [result]
    {
      match stop {
        case FailFrom(k) =>
          result := FailJob(plan, k);
          ending := StepFailed;
        case Unprepared =>
          result, ending := JobResult(false, false, steps), NotPrepared;
          assert reports == old(reports) + [];
        case _ =>
          result, ending := JobResult(false, true, steps), CancelledRun;
          Report(result);
      }
    }
  }

  ghost predicate Moved(m: Move, after: Progress, stop: Option<Stop>) {
    match m
    case Onward(q) => stop == None && after == q
    case Halt(q, s) => stop == Some(s) && after == q
  }
}
