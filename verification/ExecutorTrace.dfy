/** What the results of a run say about the world it ran in: which step was
    skipped, passed or failed and why, what every step saw, and when the job
    succeeds. */
module ExecutorTrace {
  import opened Prelude
  import Text
  import opened FileCommands
  import opened Executor

  // ---------------------------------------------------------------- one step against the world

  /** The step is reached: nobody cancelled before it, and its files are there. */
  predicate Reached(world: World, k: nat) {
    !world.cancelled(k) && world.prepared(k)
  }

  /** The step's condition is absent or true. */
  predicate Wanted(step: Step, world: World, seen: Seen) {
    step.condition == "" || world.evaluate(step.condition, seen) == Some(true)
  }

  /** Its condition is false. */
  predicate Unwanted(step: Step, world: World, seen: Seen) {
    step.condition != "" && world.evaluate(step.condition, seen) == Some(false)
  }

  /** Its body is run: it has one, which renders and is known. */
  predicate BodyRuns(step: Step, world: World, seen: Seen) {
    && Wanted(step, world, seen) && !step.kind.Composite?
    && world.renders(step, seen) && (step.kind.Builtin? ==> step.kind.known)
  }

  /** The recorded result tells what happened: skipped exactly for a false
      condition; passed exactly for a composite or a body that ended well; failed
      exactly for a body that broke, which continue-on-error forgives. */
  ghost predicate Tells(step: Step, k: nat, world: World, seen: Seen, r: StepResult) {
    && r.id == step.id
    && (r.outcome == Skipped <==> Unwanted(step, world, seen))
    && (r.outcome == Passed <==> (Wanted(step, world, seen) && step.kind.Composite?)
                                  || (BodyRuns(step, world, seen) && world.run(k, seen) == Fine))
    && (r.outcome == Failed <==> BodyRuns(step, world, seen) && world.run(k, seen) == Broke)
    && (r.conclusion == if r.outcome == Failed && step.continueOnError then Passed else r.outcome)
  }

  /** The job goes on behind the step. */
  predicate Proceeds(step: Step, k: nat, world: World, seen: Seen) {
    || Unwanted(step, world, seen)
    || (Wanted(step, world, seen) && step.kind.Composite?)
    || (BodyRuns(step, world, seen) && (world.run(k, seen) == Fine || (world.run(k, seen) == Broke && step.continueOnError)))
  }

  /** The step cannot be started: its condition has no value, its texts do not
      render, or the action is unknown. */
  predicate CannotStart(step: Step, world: World, seen: Seen) {
    || (step.condition != "" && world.evaluate(step.condition, seen).None?)
    || (Wanted(step, world, seen) && !step.kind.Composite? && !BodyRuns(step, world, seen))
  }

  // ---------------------------------------------------------------- the trace

  /** The outputs a step leaves: what its body wrote, or none. */
  function OutputsOf(step: Step, k: nat, world: World, seen: Seen): map<string, string> {
    if BodyRuns(step, world, seen) then FoldOutputs(world.files(k)) else map[]
  }

  /** The state kept of step j. */
  function StateOf(plan: seq<Step>, world: World, seen: seq<Seen>, steps: seq<StepResult>, j: nat): StepState
    requires j < |plan| && j < |seen| && j < |steps|
  {
    StepState(OutputsOf(plan[j], j, world, seen[j]), steps[j].outcome, steps[j].conclusion)
  }

  /** The states tell, per id, the latest result and the outputs of that step. */
  ghost predicate StatesTell(plan: seq<Step>, world: World, seen: seq<Seen>, steps: seq<StepResult>, states: States) {
    && |steps| <= |seen| && |steps| <= |plan|
    && (forall id :: id in states ==> exists j :: IsLatest(steps, id, j))
    && (forall id, j :: IsLatest(steps, id, j) ==> id in states && states[id] == StateOf(plan, world, seen, steps, j))
  }

  /** The first n steps were reached, let the job go on and are told by their results. */
  ghost predicate Done(plan: seq<Step>, world: World, seen: seq<Seen>, steps: seq<StepResult>, n: nat) {
    && n <= |plan| && n <= |seen| && n <= |steps|
    && forall k :: 0 <= k < n ==> DoneAt(plan, world, seen, steps, k)
  }

  /** What step k sees of the steps before it: per id the latest result and outputs. */
  ghost predicate SeenAt(plan: seq<Step>, world: World, seen: seq<Seen>, steps: seq<StepResult>, k: nat)
    requires k < |seen|
  {
    k <= |steps| && StatesTell(plan, world, seen, steps[..k], seen[k].states)
  }

  ghost predicate DoneAt(plan: seq<Step>, world: World, seen: seq<Seen>, steps: seq<StepResult>, k: nat)
    requires k < |plan| && k < |seen| && k < |steps|
  {
    && Reached(world, k) && Proceeds(plan[k], k, world, seen[k]) && Tells(plan[k], k, world, seen[k], steps[k])
    && SeenAt(plan, world, seen, steps, k)
  }

  ghost predicate Traced(p: Progress, plan: seq<Step>, i: nat, world: World) {
    && |p.seen| == i && |p.steps| == i && Done(plan, world, p.seen, p.steps, i)
    && StatesTell(plan, world, p.seen, p.steps, p.states)
  }

  /** Why a run stopped at step i. */
  ghost predicate Cut(p: Progress, stop: Stop, plan: seq<Step>, i: nat, world: World) {
    && i < |plan| && Done(plan, world, p.seen, p.steps, i)
    && match stop
       case BeforeStep => world.cancelled(i) && |p.seen| == |p.steps| == i
       case Unprepared => !world.cancelled(i) && !world.prepared(i) && |p.seen| == |p.steps| == i
       case DuringStep => && Reached(world, i) && |p.seen| == i + 1 && |p.steps| == i && SeenAt(plan, world, p.seen, p.steps, i)
                          && BodyRuns(plan[i], world, p.seen[i]) && world.run(i, p.seen[i]) == Interrupted
       case FailFrom(f) => && Reached(world, i) && |p.seen| == i + 1 && |p.steps| == f && f >= i && SeenAt(plan, world, p.seen, p.steps, i)
                           && if f == i then CannotStart(plan[i], world, p.seen[i])
                              else f == i + 1 && Breaks(plan[i], i, world, p.seen[i]) && Tells(plan[i], i, world, p.seen[i], p.steps[i])
  }

  /** The step's body broke, and nothing forgives that. */
  predicate Breaks(step: Step, k: nat, world: World, seen: Seen) {
    BodyRuns(step, world, seen) && world.run(k, seen) == Broke && !step.continueOnError
  }

  ghost predicate MoveTold(m: Move, plan: seq<Step>, i: nat, world: World) {
    match m
    case Onward(q) => Traced(q, plan, i + 1, world)
    case Halt(q, stop) => Cut(q, stop, plan, i, world)
  }

  // ---------------------------------------------------------------- one step keeps the trace

  lemma LongerSeen(plan: seq<Step>, world: World, seen: seq<Seen>, more: seq<Seen>, steps: seq<StepResult>, others: seq<StepResult>, n: nat)
    requires Done(plan, world, seen, steps, n) && seen <= more && steps <= others
    ensures Done(plan, world, more, others, n)
  {
    forall k | 0 <= k < n
      ensures DoneAt(plan, world, more, others, k)
    {
      assert DoneAt(plan, world, seen, steps, k);
      SeenLonger(plan, world, seen, more, steps, others, k);
    }
  }

  lemma SeenLonger(plan: seq<Step>, world: World, seen: seq<Seen>, more: seq<Seen>, steps: seq<StepResult>, others: seq<StepResult>, k: nat)
    requires k < |seen| && k <= |steps| && SeenAt(plan, world, seen, steps, k) && seen <= more && steps <= others
    ensures SeenAt(plan, world, more, others, k)
  {
    assert others[..k] == steps[..k];
    StatesLonger(plan, world, seen, more, steps[..k], seen[k].states);
  }

  lemma StatesLonger(plan: seq<Step>, world: World, seen: seq<Seen>, more: seq<Seen>, steps: seq<StepResult>, states: States)
    requires StatesTell(plan, world, seen, steps, states) && seen <= more
    ensures StatesTell(plan, world, more, steps, states)
  {
    forall id, j | IsLatest(steps, id, j)
      ensures id in states && states[id] == StateOf(plan, world, more, steps, j)
    {
      assert states[id] == StateOf(plan, world, seen, steps, j);
    }
  }

  lemma LatestNext(steps: seq<StepResult>, r: StepResult, id: string, j: int)
    ensures IsLatest(steps + [r], id, j) <==> if id == r.id then j == |steps| else IsLatest(steps, id, j)
  {
    var more := steps + [r];
    assert forall k :: 0 <= k < |steps| ==> more[k] == steps[k];
    assert more[|steps|] == r;
  }

  lemma StatesNext(plan: seq<Step>, world: World, seen: seq<Seen>, steps: seq<StepResult>, states: States, r: StepResult)
    requires StatesTell(plan, world, seen, steps, states) && |steps| < |seen| && |steps| < |plan|
    ensures var i := |steps|;
            StatesTell(plan, world, seen, steps + [r],
                       states[r.id := StepState(OutputsOf(plan[i], i, world, seen[i]), r.outcome, r.conclusion)])
  {
    var i := |steps|;
    var now := states[r.id := StepState(OutputsOf(plan[i], i, world, seen[i]), r.outcome, r.conclusion)];
    forall id | id in now
      ensures exists j :: IsLatest(steps + [r], id, j)
    {
      if id == r.id {
        LatestNext(steps, r, id, i);
      } else {
        var j :| IsLatest(steps, id, j);
        LatestNext(steps, r, id, j);
      }
    }
    forall id, j | IsLatest(steps + [r], id, j)
      ensures id in now && now[id] == StateOf(plan, world, seen, steps + [r], j)
    {
      LatestNext(steps, r, id, j);
    }
  }

  /** Recording a result that tells what happened. */
  lemma RecordTraced(p: Progress, plan: seq<Step>, i: nat, world: World, outputs: map<string, string>, outcome: Mark, conclusion: Mark)
    requires i < |plan| && |p.seen| == i + 1 && AtStep(p, plan, i, world, p.seen[i])
    requires outputs == OutputsOf(plan[i], i, world, p.seen[i]) && Proceeds(plan[i], i, world, p.seen[i])
    requires Tells(plan[i], i, world, p.seen[i], StepResult(plan[i].id, outcome, conclusion))
    ensures Traced(Record(p, plan[i], outputs, outcome, conclusion), plan, i + 1, world)
  {
    var r := StepResult(plan[i].id, outcome, conclusion);
    LongerSeen(plan, world, p.seen, p.seen, p.steps, p.steps + [r], i);
    SeenLonger(plan, world, p.seen, p.seen, p.steps, p.steps + [r], i);
    assert DoneAt(plan, world, p.seen, p.steps + [r], i);
    StatesNext(plan, world, p.seen, p.steps, p.states, r);
  }

  /** Step i is reached and has its contexts. */
  ghost predicate AtStep(p: Progress, plan: seq<Step>, i: nat, world: World, seen: Seen) {
    && i < |plan| && |p.seen| == i + 1 && p.seen[i] == seen && |p.steps| == i && Reached(world, i)
    && Done(plan, world, p.seen, p.steps, i) && StatesTell(plan, world, p.seen, p.steps, p.states)
    && SeenAt(plan, world, p.seen, p.steps, i)
  }

  lemma BodyTold(p: Progress, plan: seq<Step>, i: nat, world: World, seen: Seen)
    requires AtStep(p, plan, i, world, seen) && BodyRuns(plan[i], world, seen)
    ensures MoveTold(RunBody(p, plan[i], i, world, seen), plan, i, world)
  {
    var f := world.files(i);
    var q := p.(env := FoldEnv(p.env, f), paths := FoldPaths(p.paths, f));
    match world.run(i, seen)
    case Fine => RecordTraced(q, plan, i, world, FoldOutputs(f), Passed, Passed);
    case Interrupted =>
    case Broke =>
      if plan[i].continueOnError {
        RecordTraced(q, plan, i, world, FoldOutputs(f), Failed, Passed);
      } else {
        LongerSeen(plan, world, q.seen, q.seen, q.steps, q.steps + [StepResult(plan[i].id, Failed, Failed)], i);
        SeenLonger(plan, world, q.seen, q.seen, q.steps, q.steps + [StepResult(plan[i].id, Failed, Failed)], i);
      }
  }

  lemma ExecuteTold(p: Progress, plan: seq<Step>, i: nat, world: World, seen: Seen)
    requires AtStep(p, plan, i, world, seen) && Wanted(plan[i], world, seen)
    ensures MoveTold(Execute(p, plan[i], i, world, seen), plan, i, world)
  {
    if plan[i].kind.Composite? {
      RecordTraced(p, plan, i, world, map[], Passed, Passed);
    } else if BodyRuns(plan[i], world, seen) {
      BodyTold(p, plan, i, world, seen);
    }
  }

  lemma StepTold(p: Progress, plan: seq<Step>, i: nat, world: World)
    requires i < |plan| && Traced(p, plan, i, world)
    ensures MoveTold(DoStep(p, plan[i], i, world), plan, i, world)
  {
    if Reached(world, i) {
      var env := Overlay(p.env, world.fileNames(i));
      var seen := Seen(StepEnv(env, plan[i], p.paths), p.states, JobStatusFor(p.states));
      var q := p.(env := env, seen := p.seen + [seen]);
      SeenTold(p, q, plan, i, world, seen);
      if Wanted(plan[i], world, seen) {
        ExecuteTold(q, plan, i, world, seen);
      } else if Unwanted(plan[i], world, seen) {
        RecordTraced(q, plan, i, world, map[], Skipped, Skipped);
      }
    }
  }

  lemma SeenTold(p: Progress, q: Progress, plan: seq<Step>, i: nat, world: World, seen: Seen)
    requires i < |plan| && Traced(p, plan, i, world) && Reached(world, i)
    requires q == p.(env := q.env, seen := p.seen + [seen]) && seen.states == p.states
    ensures AtStep(q, plan, i, world, seen)
  {
    LongerSeen(plan, world, p.seen, q.seen, p.steps, q.steps, i);
    StatesLonger(plan, world, p.seen, q.seen, p.steps, p.states);
    assert q.steps[..i] == q.steps;
  }

  ghost predicate EndTold(m: Move, plan: seq<Step>, world: World) {
    match m
    case Onward(q) => Traced(q, plan, |plan|, world)
    case Halt(q, stop) => exists k: nat :: Cut(q, stop, plan, k, world)
  }

  lemma {:induction false} LoopTold(p: Progress, plan: seq<Step>, i: nat, world: World)
    requires i <= |plan| && Traced(p, plan, i, world)
    ensures EndTold(Loop(p, plan, i, world), plan, world)
    decreases |plan| - i
  {
    if i < |plan| {
      StepTold(p, plan, i, world);
      var m := DoStep(p, plan[i], i, world);
      LoopMoves(p, plan, i, world, m);
      if m.Onward? { LoopTold(m.p, plan, i + 1, world); }
    }
  }

  lemma LoopMoves(p: Progress, plan: seq<Step>, i: nat, world: World, m: Move)
    requires i < |plan| && m == DoStep(p, plan[i], i, world) && MoveTold(m, plan, i, world)
    ensures m.Halt? ==> Loop(p, plan, i, world) == m && EndTold(m, plan, world)
    ensures m.Onward? ==> Loop(p, plan, i, world) == Loop(m.p, plan, i + 1, world) && Traced(m.p, plan, i + 1, world)
  {}

  // ---------------------------------------------------------------- the whole run

  /** Every result is told by the world, up to the step that stopped the run; what
      a failed run records behind that is skipped. */
  ghost predicate ResultsTell(plan: seq<Step>, world: World, seen: seq<Seen>, steps: seq<StepResult>, n: nat) {
    && n <= |plan| && n <= |seen| && n <= |steps| <= |plan|
    && (forall k :: 0 <= k < n ==> Reached(world, k) && Tells(plan[k], k, world, seen[k], steps[k]))
    && (forall k :: n <= k < |steps| ==> steps[k] == StepResult(plan[k].id, Skipped, Skipped))
    && |seen| <= n + 1 && forall k :: 0 <= k < |seen| ==> SeenAt(plan, world, seen, steps, k)
  }

  /** All steps were reached and none of them stopped the job. */
  ghost predicate AllProceed(plan: seq<Step>, world: World, seen: seq<Seen>) {
    |seen| == |plan| && ProceedTo(plan, world, seen, |plan|)
  }

  ghost predicate ProceedTo(plan: seq<Step>, world: World, seen: seq<Seen>, n: nat) {
    n <= |plan| && n <= |seen| && forall k :: 0 <= k < n ==> Reached(world, k) && Proceeds(plan[k], k, world, seen[k])
  }

  /** The run got to step k, and cancellation came before it or while its body ran. */
  ghost predicate CancelledAt(plan: seq<Step>, world: World, seen: seq<Seen>, k: nat) {
    && k < |plan| && ProceedTo(plan, world, seen, k)
    && ((|seen| == k && world.cancelled(k))
        || (|seen| == k + 1 && Reached(world, k) && BodyRuns(plan[k], world, seen[k]) && world.run(k, seen[k]) == Interrupted))
  }

  lemma StartTold(env: map<string, string>, plan: seq<Step>, world: World)
    ensures Traced(Started(env), plan, 0, world)
  {}

  lemma DoneProceeds(plan: seq<Step>, world: World, seen: seq<Seen>, steps: seq<StepResult>, n: nat)
    requires Done(plan, world, seen, steps, n)
    ensures ProceedTo(plan, world, seen, n)
  {
    forall k | 0 <= k < n
      ensures Reached(world, k) && Proceeds(plan[k], k, world, seen[k])
    {
      assert DoneAt(plan, world, seen, steps, k);
    }
  }

  lemma CutStops(p: Progress, stop: Stop, plan: seq<Step>, i: nat, world: World)
    requires Cut(p, stop, plan, i, world)
    ensures !AllProceed(plan, world, p.seen)
    ensures (stop.BeforeStep? || stop.DuringStep?) <==> exists k: nat :: CancelledAt(plan, world, p.seen, k)
  {
    DoneProceeds(plan, world, p.seen, p.steps, i);
    if stop.BeforeStep? || stop.DuringStep? {
      assert CancelledAt(plan, world, p.seen, i);
    } else {
      forall k: nat
        ensures !CancelledAt(plan, world, p.seen, k)
      {
        NotCancelled(p, stop, plan, i, world, k);
      }
    }
  }

  lemma NotCancelled(p: Progress, stop: Stop, plan: seq<Step>, i: nat, world: World, k: nat)
    requires Cut(p, stop, plan, i, world) && !stop.BeforeStep? && !stop.DuringStep? && ProceedTo(plan, world, p.seen, i)
    ensures !CancelledAt(plan, world, p.seen, k)
  {}

  ghost predicate ResultsTold(plan: seq<Step>, world: World, seen: seq<Seen>, steps: seq<StepResult>) {
    exists n: nat :: ResultsTell(plan, world, seen, steps, n)
  }

  lemma CutResults(p: Progress, stop: Stop, plan: seq<Step>, i: nat, world: World)
    requires Cut(p, stop, plan, i, world)
    ensures ResultsTold(plan, world, p.seen, ResultOf(plan, Halt(p, stop)).steps)
  {
    CutTells(p, stop, plan, i, world);
    var steps := TailSkipped(p, stop, plan);
    CutSeen(p, stop, plan, i, world, steps);
    JoinResults(plan, world, p.seen, p.steps, steps);
  }

  lemma TailSkipped(p: Progress, stop: Stop, plan: seq<Step>) returns (steps: seq<StepResult>)
    requires |p.steps| <= |plan| && (stop.FailFrom? ==> stop.k == |p.steps|)
    ensures steps == ResultOf(plan, Halt(p, stop)).steps && p.steps <= steps && |steps| <= |plan|
    ensures forall k :: |p.steps| <= k < |steps| ==> steps[k] == StepResult(plan[k].id, Skipped, Skipped)
  {
    steps := ResultOf(plan, Halt(p, stop)).steps;
    if stop.FailFrom? {
      var tail := SkippedFrom(plan, stop.k);
      forall k | |p.steps| <= k < |steps|
        ensures steps[k] == StepResult(plan[k].id, Skipped, Skipped)
      {
        assert steps[k] == tail[k - |p.steps|];
      }
    }
  }

  lemma JoinResults(plan: seq<Step>, world: World, seen: seq<Seen>, done: seq<StepResult>, steps: seq<StepResult>)
    requires |done| <= |seen| <= |done| + 1 && done <= steps && |steps| <= |plan|
    requires forall k :: 0 <= k < |done| ==> Reached(world, k) && Tells(plan[k], k, world, seen[k], done[k])
    requires forall k :: |done| <= k < |steps| ==> steps[k] == StepResult(plan[k].id, Skipped, Skipped)
    requires forall k :: 0 <= k < |seen| ==> SeenAt(plan, world, seen, steps, k)
    ensures ResultsTold(plan, world, seen, steps)
  {
    assert ResultsTell(plan, world, seen, steps, |done|);
  }

  lemma CutTells(p: Progress, stop: Stop, plan: seq<Step>, i: nat, world: World)
    requires Cut(p, stop, plan, i, world)
    ensures |p.steps| <= |plan| && |p.steps| <= |p.seen| <= |p.steps| + 1 && (stop.FailFrom? ==> stop.k == |p.steps|)
    ensures forall k :: 0 <= k < |p.steps| ==> Reached(world, k) && Tells(plan[k], k, world, p.seen[k], p.steps[k])
  {
    forall k | 0 <= k < |p.steps|
      ensures Reached(world, k) && Tells(plan[k], k, world, p.seen[k], p.steps[k])
    {
      if k < i { assert DoneAt(plan, world, p.seen, p.steps, k); }
    }
  }

  lemma CutSeen(p: Progress, stop: Stop, plan: seq<Step>, i: nat, world: World, steps: seq<StepResult>)
    requires Cut(p, stop, plan, i, world) && p.steps <= steps
    ensures forall k :: 0 <= k < |p.seen| ==> SeenAt(plan, world, p.seen, steps, k)
  {
    forall k | 0 <= k < |p.seen|
      ensures SeenAt(plan, world, p.seen, steps, k)
    {
      if k < i { assert DoneAt(plan, world, p.seen, p.steps, k); }
      SeenLonger(plan, world, p.seen, p.seen, p.steps, steps, k);
    }
  }

  /** For every plan and world: each result up to where the run stopped tells what
      the world did to that step; the job succeeds exactly when every step was
      reached and went on, that is, none was cut short, could not be started, or
      broke without continue-on-error; and it is cancelled exactly when a step was
      reached by cancellation. */
  lemma RunTells(env: map<string, string>, plan: seq<Step>, world: World)
    ensures var m := Loop(Started(env), plan, 0, world);
            var r := ResultOf(plan, m);
            && ResultsTold(plan, world, m.p.seen, r.steps)
            && (r.success <==> AllProceed(plan, world, m.p.seen))
            && (r.cancelled <==> exists k: nat :: CancelledAt(plan, world, m.p.seen, k))
  {
    StartTold(env, plan, world);
    LoopTold(Started(env), plan, 0, world);
    var m := Loop(Started(env), plan, 0, world);
    match m
    case Onward(q) => EndTells(q, plan, world);
    case Halt(q, stop) =>
      var i: nat :| Cut(q, stop, plan, i, world);
      CutStops(q, stop, plan, i, world);
      CutResults(q, stop, plan, i, world);
  }

  lemma EndTells(q: Progress, plan: seq<Step>, world: World)
    requires Traced(q, plan, |plan|, world)
    ensures ResultsTold(plan, world, q.seen, q.steps) && AllProceed(plan, world, q.seen)
    ensures !exists k: nat :: CancelledAt(plan, world, q.seen, k)
  {
    DoneProceeds(plan, world, q.seen, q.steps, |plan|);
    forall k | 0 <= k < |plan|
      ensures Reached(world, k) && Tells(plan[k], k, world, q.seen[k], q.steps[k]) && SeenAt(plan, world, q.seen, q.steps, k)
    {
      assert DoneAt(plan, world, q.seen, q.steps, k);
    }
    assert ResultsTell(plan, world, q.seen, q.steps, |plan|);
  }
}
