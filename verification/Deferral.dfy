/** Deferred job conditions: which queued jobs one pass of the server closes,
    and the state repeated passes settle in (internal/server/server.go). */
module Deferral {
  import opened Prelude
  import opened RunModel
  import opened StoreSpec
  import opened StoreInvariants
  import Txt = Text

  /** The condition evaluator: the event of the run, the job, all job records of
      the run; no value stands for an evaluation error. */
  type Verdict = (Event, JobRecord, seq<JobRecord>) -> Option<bool>

  predicate IsDeferred(cond: string) {
    var lower := Txt.Lower(cond);
    || Txt.Contains(lower, "needs.")
    || Txt.Contains(lower, "success(") || Txt.Contains(lower, "failure(")
    || Txt.Contains(lower, "cancelled(") || Txt.Contains(lower, "always(")
  }

  /** Every listed attempt of a needed key has ended. */
  predicate NeedsEnded(needs: seq<string>, all: seq<JobRecord>) {
    forall i :: 0 <= i < |all| && all[i].intent.jobKey in needs ==> all[i].status.IsTerminal()
  }

  /** The phase the server projects for a queued job, if any. */
  function Judge(event: Event, j: JobRecord, all: seq<JobRecord>, verdict: Verdict): Option<Phase> {
    if j.intent.condition == "" || !IsDeferred(j.intent.condition) || !NeedsEnded(j.intent.dependsOn, all) then None
    else
      match verdict(event, j, all)
      case None => Some(PhaseFailed)
      case Some(true) => None
      case Some(false) => Some(PhaseSkipped)
  }

  function Records(jobs: Jobs, ids: seq<JobRunID>): (r: seq<JobRecord>)
    requires forall i :: 0 <= i < |ids| ==> ids[i] in jobs
    ensures |r| == |ids| && forall i :: 0 <= i < |ids| ==> r[i] == jobs[ids[i]]
  {
    seq(|ids|, i requires 0 <= i < |ids| => jobs[ids[i]])
  }

  /** The records of a run's listed jobs. */
  function Siblings(s: Store, r: RunID): seq<JobRecord> {
    if ListedExist(s.runJobs, s.jobs.Keys, r) then Records(s.jobs, Listed(s.runJobs, r)) else []
  }

  function DecisionOf(s: Store, id: JobRunID, verdict: Verdict): Option<Phase> {
    if id !in s.jobs || !s.jobs[id].status.JobQueued? || s.jobs[id].runId !in s.runs then None
    else
      var r := s.jobs[id].runId;
      Judge(s.runs[r].event, s.jobs[id], Siblings(s, r), verdict)
  }

  function Decided(s: Store, verdict: Verdict): set<JobRunID> {
    set id | id in s.jobs && DecisionOf(s, id, verdict).Some?
  }

  // ---------------------------------------------------------------- one pass, whatever its order

  function ClosedJob(j: JobRecord, phase: Phase, now: Time): JobRecord {
    match JobStatusFromPhase(phase)
    case None => j
    case Some(target) => Observed(j, target, now)
  }

  /** A job once it has been closed, if it is among those closed. */
  function JobAfter(s: Store, done: set<JobRunID>, verdict: Verdict, now: Time, id: JobRunID): JobRecord
    requires id in s.jobs
  {
    if id in done && DecisionOf(s, id, verdict).Some? then ClosedJob(s.jobs[id], DecisionOf(s, id, verdict).value, now)
    else s.jobs[id]
  }

  /** The job records once the jobs in `done` have been closed as decided in s. */
  function JobsAfter(s: Store, done: set<JobRunID>, verdict: Verdict, now: Time): Jobs {
    map id | id in s.jobs :: JobAfter(s, done, verdict, now, id)
  }

  /** A run moved to the aggregate of its jobs, forward only. */
  function Forward(run: RunRecord, sts: seq<JobStatus>, now: Time): RunRecord {
    var next := Aggregate(sts);
    if run.status.IsTerminal() || !CanAdvanceRun(run.status, next) || next == run.status then run
    else run.(status := next, finishedAt := if next.IsTerminal() then Some(now) else run.finishedAt)
  }

  predicate Touches(jobs: Jobs, done: set<JobRunID>, r: RunID) {
    exists id :: id in done && id in jobs && jobs[id].runId == r
  }

  function StatusesOf(lists: Lists, jobs: Jobs, r: RunID): seq<JobStatus> {
    if ListedExist(lists, jobs.Keys, r) then Statuses(jobs, Listed(lists, r)) else []
  }

  /** The store once the jobs in `done` have been closed: it depends on the set,
      not on the order. */
  function After(s: Store, done: set<JobRunID>, verdict: Verdict, now: Time): Store {
    var jobs := JobsAfter(s, done, verdict, now);
    s.(jobs := jobs,
       runs := map r | r in s.runs ::
         if Touches(s.jobs, done, r) then Forward(s.runs[r], StatusesOf(s.runJobs, jobs, r), now) else s.runs[r])
  }

  lemma AfterNone(s: Store, verdict: Verdict, now: Time)
    ensures After(s, {}, verdict, now) == s
  {
    assert JobsAfter(s, {}, verdict, now) == s.jobs;
  }

  lemma RefreshIsForward(s: Store, r: RunID, now: Time)
    requires r in s.runs && ListedExist(s.runJobs, s.jobs.Keys, r)
    ensures Refresh(s, r, now) == s.(runs := s.runs[r := Forward(s.runs[r], Statuses(s.jobs, Listed(s.runJobs, r)), now)])
  {
    assert s.runs == s.runs[r := s.runs[r]];
  }

  /** While a queued job is left, refreshing now or only after it is closed is the same. */
  lemma ForwardTwice(run: RunRecord, a: seq<JobStatus>, b: seq<JobStatus>, i: nat, now: Time)
    requires i < |a| == |b| && a[i].JobQueued? && b[i].IsTerminal()
    requires forall k :: 0 <= k < |a| && k != i ==> a[k] == b[k]
    ensures Forward(Forward(run, a, now), b, now) == Forward(run, b, now)
  {
    assert a[i] in a;
    if JobRunning in a {
      var k :| 0 <= k < |a| && a[k] == JobRunning;
      assert b[k] in b;
    } else if JobDispatched in a {
      var k :| 0 <= k < |a| && a[k] == JobDispatched;
      assert b[k] in b;
      if JobRunning in b {
        var n :| 0 <= n < |b| && b[n] == JobRunning;
        assert a[n] in a;
      }
    }
  }

  lemma DecidedMeaning(s: Store, id: JobRunID, verdict: Verdict)
    requires id in Decided(s, verdict)
    ensures id in s.jobs && s.jobs[id].status.JobQueued? && s.jobs[id].runId in s.runs
    ensures var p := DecisionOf(s, id, verdict); p == Some(PhaseFailed) || p == Some(PhaseSkipped)
  {}

  lemma ClosedJobMeaning(j: JobRecord, phase: Phase, now: Time)
    requires phase.PhaseFailed? || phase.PhaseSkipped?
    ensures ClosedJob(j, phase, now).status.IsTerminal() && ClosedJob(j, phase, now).runId == j.runId
  {}

  lemma JobsAfterStep(s: Store, done: set<JobRunID>, id: JobRunID, verdict: Verdict, now: Time)
    requires id in Decided(s, verdict) && id !in done
    ensures JobsAfter(s, done + {id}, verdict, now) ==
            JobsAfter(s, done, verdict, now)[id := ClosedJob(s.jobs[id], DecisionOf(s, id, verdict).value, now)]
  {}

  lemma StatusesElsewhere(s: Store, a: Jobs, b: Jobs, id: JobRunID, r: RunID)
    requires Shape(s) && r in s.runs && a.Keys == b.Keys == s.jobs.Keys
    requires id in s.jobs && s.jobs[id].runId != r && b == a[id := b[id]]
    ensures StatusesOf(s.runJobs, a, r) == StatusesOf(s.runJobs, b, r)
  {
    assert ListOk(s.runJobs, s.jobs, r);
  }

  lemma TouchesStep(jobs: Jobs, done: set<JobRunID>, id: JobRunID, r: RunID)
    requires id in jobs
    ensures Touches(jobs, done + {id}, r) <==> Touches(jobs, done, r) || jobs[id].runId == r
  {
    if Touches(jobs, done, r) {
      var j :| j in done && j in jobs && jobs[j].runId == r;
      assert j in done + {id};
    }
    if jobs[id].runId == r { assert id in done + {id}; }
  }

  /** The record of the closed job's own run. */
  lemma OwnRun(s: Store, done: set<JobRunID>, id: JobRunID, verdict: Verdict, now: Time)
    requires Shape(s) && done <= Decided(s, verdict) && id in Decided(s, verdict) && id !in done
    ensures s.jobs[id].runId in s.runs
    ensures var r := s.jobs[id].runId;
            var jobs := JobsAfter(s, done + {id}, verdict, now);
            Forward(After(s, done, verdict, now).runs[r], StatusesOf(s.runJobs, jobs, r), now) ==
            Forward(s.runs[r], StatusesOf(s.runJobs, jobs, r), now)
  {
    DecidedMeaning(s, id, verdict);
    var r := s.jobs[id].runId;
    if Touches(s.jobs, done, r) {
      assert JobOk(s.runs.Keys, s.runJobs, s.jobs, id) && ListOk(s.runJobs, s.jobs, r);
      var i :| 0 <= i < |s.runJobs[r]| && s.runJobs[r][i] == id;
      JobsAfterStep(s, done, id, verdict, now);
      var a := StatusesOf(s.runJobs, JobsAfter(s, done, verdict, now), r);
      var b := StatusesOf(s.runJobs, JobsAfter(s, done + {id}, verdict, now), r);
      ClosedJobMeaning(s.jobs[id], DecisionOf(s, id, verdict).value, now);
      ForwardTwice(s.runs[r], a, b, i, now);
    }
  }

  lemma OtherRuns(s: Store, done: set<JobRunID>, id: JobRunID, verdict: Verdict, now: Time, r: RunID)
    requires Shape(s) && done <= Decided(s, verdict) && id in Decided(s, verdict) && id !in done
    requires r in s.runs && r != s.jobs[id].runId
    ensures After(s, done + {id}, verdict, now).runs[r] == After(s, done, verdict, now).runs[r]
  {
    JobsAfterStep(s, done, id, verdict, now);
    TouchesStep(s.jobs, done, id, r);
    StatusesElsewhere(s, JobsAfter(s, done, verdict, now), JobsAfter(s, done + {id}, verdict, now), id, r);
  }

  lemma RunsAfterStep(s: Store, done: set<JobRunID>, id: JobRunID, verdict: Verdict, now: Time)
    requires Shape(s) && done <= Decided(s, verdict) && id in Decided(s, verdict) && id !in done
    requires s.jobs[id].runId in s.runs
    ensures var r := s.jobs[id].runId;
            var t, u := After(s, done, verdict, now), After(s, done + {id}, verdict, now);
            u.runs == t.runs[r := Forward(t.runs[r], StatusesOf(s.runJobs, u.jobs, r), now)]
  {
    var r := s.jobs[id].runId;
    OwnRun(s, done, id, verdict, now);
    TouchesStep(s.jobs, done, id, r);
    var t, u := After(s, done, verdict, now), After(s, done + {id}, verdict, now);
    forall q | q in s.runs && q != r
      ensures u.runs[q] == t.runs[q]
    {
      OtherRuns(s, done, id, verdict, now, q);
    }
  }

  /** Projecting the next decision adds it to the closed ones. */
  lemma AfterStep(s: Store, done: set<JobRunID>, id: JobRunID, verdict: Verdict, now: Time)
    requires Shape(s) && done <= Decided(s, verdict) && id in Decided(s, verdict) && id !in done
    requires id in s.jobs && ListedExist(s.runJobs, s.jobs.Keys, s.jobs[id].runId)
    ensures var t := After(s, done, verdict, now);
            && t.jobs.Keys == s.jobs.Keys && t.jobs[id] == s.jobs[id]
            && ApplyObserved(t, id, DecisionOf(s, id, verdict).value, now) == After(s, done + {id}, verdict, now)
  {
    DecidedMeaning(s, id, verdict);
    JobsAfterStep(s, done, id, verdict, now);
    RunsAfterStep(s, done, id, verdict, now);
    var t, u := After(s, done, verdict, now), After(s, done + {id}, verdict, now);
    var phase := DecisionOf(s, id, verdict).value;
    ProjectsTo(t, u, id, phase, now);
  }

  lemma ProjectsTo(t: Store, u: Store, id: JobRunID, phase: Phase, now: Time)
    requires id in t.jobs && t.jobs[id].status.JobQueued? && (phase.PhaseFailed? || phase.PhaseSkipped?)
    requires t.jobs[id].runId in t.runs && ListedExist(t.runJobs, t.jobs.Keys, t.jobs[id].runId)
    requires u.jobs == t.jobs[id := ClosedJob(t.jobs[id], phase, now)] && u == t.(jobs := u.jobs, runs := u.runs)
    requires var r := t.jobs[id].runId;
             u.runs == t.runs[r := Forward(t.runs[r], Statuses(u.jobs, Listed(t.runJobs, r)), now)]
    ensures ApplyObserved(t, id, phase, now) == u
  {
    RefreshIsForward(t.(jobs := u.jobs), t.jobs[id].runId, now);
  }

  lemma StepKeeps(s: Store, done: set<JobRunID>, id: JobRunID, verdict: Verdict, now: Time, t: Store, u: Store)
    requires Valid(s) && done <= Decided(s, verdict) && id in Decided(s, verdict) && id !in done
    requires t == After(s, done, verdict, now) && u == After(s, done + {id}, verdict, now) && Valid(t)
    ensures id in t.jobs ==> ListedExist(t.runJobs, t.jobs.Keys, t.jobs[id].runId)
    ensures ApplyObserved(t, id, DecisionOf(s, id, verdict).value, now) == u
    ensures Valid(u) && Grows(t, u)
  {
    ObserveKeeps(t, id, DecisionOf(s, id, verdict).value, now);
    AfterStep(s, done, id, verdict, now);
  }

  /** Closing decided jobs one by one, as decided in s, each at its own time. */
  ghost function CloseAll(s: Store, t: Store, order: seq<JobRunID>, verdict: Verdict, clock: Clock): Store
    requires Valid(s) && Valid(t)
    decreases |order|
  {
    if order == [] then t
    else
      var p := DecisionOf(s, order[0], verdict);
      ObserveKeeps(t, order[0], if p.Some? then p.value else PhasePending, clock(order[0]));
      CloseAll(s, if p.None? then t else ApplyObserved(t, order[0], p.value, clock(order[0])), order[1..], verdict, clock)
  }

  ghost predicate Enumerates(order: seq<JobRunID>, ids: set<JobRunID>) {
    && (forall id :: id in order <==> id in ids)
    && (forall i, j :: 0 <= i < j < |order| ==> order[i] != order[j])
  }

  /** The jobs in `done`, among `all` that are decided, have been closed. */
  ghost predicate Reached(s: Store, done: set<JobRunID>, all: set<JobRunID>, verdict: Verdict, now: Time, t: Store) {
    all == Decided(s, verdict) && done <= all && t == After(s, done, verdict, now) && Valid(t)
  }

  lemma {:induction false} CloseAllIsAfter(s: Store, done: set<JobRunID>, all: set<JobRunID>, t: Store, order: seq<JobRunID>,
                                           verdict: Verdict, clock: Clock, now: Time)
    requires Valid(s) && Valid(t) && Reached(s, done, all, verdict, now, t)
    requires Enumerates(order, all - done) && forall id :: clock(id) == now
    ensures Reached(s, all, all, verdict, now, CloseAll(s, t, order, verdict, clock))
    decreases |order|
  {
    if order == [] {
      NoneLeft(order, done, all);
    } else {
      EnumeratesTail(order, done, all);
      var u := CloseFirst(s, done, all, t, order, verdict, clock, now);
      CloseAllIsAfter(s, done + {order[0]}, all, u, order[1..], verdict, clock, now);
    }
  }

  lemma CloseFirst(s: Store, done: set<JobRunID>, all: set<JobRunID>, t: Store, order: seq<JobRunID>, verdict: Verdict,
                   clock: Clock, now: Time)
    returns (u: Store)
    requires Valid(s) && Valid(t) && Reached(s, done, all, verdict, now, t)
    requires order != [] && order[0] in all && order[0] !in done && clock(order[0]) == now
    ensures Valid(u) && Reached(s, done + {order[0]}, all, verdict, now, u)
    ensures CloseAll(s, t, order, verdict, clock) == CloseAll(s, u, order[1..], verdict, clock)
  {
    u := StepReached(s, done, all, order[0], t, verdict, now);
    CloseAllStep(s, t, u, order, verdict, clock);
  }

  lemma StepReached(s: Store, done: set<JobRunID>, all: set<JobRunID>, id: JobRunID, t: Store, verdict: Verdict, now: Time)
    returns (u: Store)
    requires Valid(s) && Reached(s, done, all, verdict, now, t) && id in all && id !in done
    ensures Valid(u) && Reached(s, done + {id}, all, verdict, now, u) && DecisionOf(s, id, verdict).Some?
    ensures id in t.jobs ==> ListedExist(t.runJobs, t.jobs.Keys, t.jobs[id].runId)
    ensures u == ApplyObserved(t, id, DecisionOf(s, id, verdict).value, now)
  {
    u := After(s, done + {id}, verdict, now);
    StepKeeps(s, done, id, verdict, now, t, u);
  }

  lemma CloseAllStep(s: Store, t: Store, u: Store, order: seq<JobRunID>, verdict: Verdict, clock: Clock)
    requires Valid(s) && Valid(t) && Valid(u) && order != [] && DecisionOf(s, order[0], verdict).Some?
    requires order[0] in t.jobs ==> ListedExist(t.runJobs, t.jobs.Keys, t.jobs[order[0]].runId)
    requires u == ApplyObserved(t, order[0], DecisionOf(s, order[0], verdict).value, clock(order[0]))
    ensures CloseAll(s, t, order, verdict, clock) == CloseAll(s, u, order[1..], verdict, clock)
  {}

  lemma NoneLeft(order: seq<JobRunID>, done: set<JobRunID>, all: set<JobRunID>)
    requires order == [] && done <= all && Enumerates(order, all - done)
    ensures done == all
  {
    forall id | id in all
      ensures id in done
    {
      assert id !in order;
    }
  }

  lemma EnumeratesTail(order: seq<JobRunID>, done: set<JobRunID>, all: set<JobRunID>)
    requires order != [] && Enumerates(order, all - done)
    ensures Enumerates(order[1..], all - (done + {order[0]})) && order[0] in all && order[0] !in done
  {
    assert order[0] in order;
    forall id
      ensures id in order[1..] <==> id in all - (done + {order[0]})
    {
      assert id in order <==> id == order[0] || id in order[1..];
      if id in order[1..] {
        var k :| 0 <= k < |order[1..]| && order[1..][k] == id;
        assert order[0] != order[k + 1];
      }
    }
  }

  /** What one pass makes of the store. */
  function Sweep(s: Store, verdict: Verdict, now: Time): Store {
    After(s, Decided(s, verdict), verdict, now)
  }

  /** With the clock standing still, a pass does not depend on the order in which it closes jobs. */
  lemma StillPass(s: Store, order: seq<JobRunID>, verdict: Verdict, clock: Clock, now: Time)
    requires Valid(s) && Enumerates(order, Decided(s, verdict)) && forall id :: clock(id) == now
    ensures CloseAll(s, s, order, verdict, clock) == Sweep(s, verdict, now)
  {
    var all := Decided(s, verdict);
    AfterNone(s, verdict, now);
    assert all - {} == all;
    CloseAllIsAfter(s, {}, all, s, order, verdict, clock, now);
  }

  lemma WithoutOne(done: set<JobRunID>, id: JobRunID) returns (rest: set<JobRunID>)
    requires id in done
    ensures rest <= done && id !in rest && rest + {id} == done && |rest| < |done|
  {
    rest := done - {id};
  }

  lemma NextKeeps(s: Store, done: set<JobRunID>, id: JobRunID, verdict: Verdict, now: Time)
    requires Valid(s) && done <= Decided(s, verdict) && id in Decided(s, verdict) && id !in done
    requires Valid(After(s, done, verdict, now)) && Grows(s, After(s, done, verdict, now))
    ensures Valid(After(s, done + {id}, verdict, now)) && Grows(s, After(s, done + {id}, verdict, now))
  {
    var t, u := After(s, done, verdict, now), After(s, done + {id}, verdict, now);
    StepKeeps(s, done, id, verdict, now, t, u);
    GrowsTransitive(s, t, u);
  }

  lemma {:induction false} AfterKeeps(s: Store, done: set<JobRunID>, verdict: Verdict, now: Time)
    requires Valid(s) && done <= Decided(s, verdict)
    ensures Valid(After(s, done, verdict, now)) && Grows(s, After(s, done, verdict, now))
    decreases |done|
  {
    if done == {} {
      AfterNone(s, verdict, now);
      GrowsReflexive(s);
    } else {
      var id :| id in done;
      var rest := WithoutOne(done, id);
      AfterKeeps(s, rest, verdict, now);
      NextKeeps(s, rest, id, verdict, now);
    }
  }

  // ---------------------------------------------------------------- passes until nothing changes

  function QueuedIds(jobs: Jobs): set<JobRunID> {
    set id | id in jobs && jobs[id].status.JobQueued?
  }

  lemma QueuedLeft(s: Store, done: set<JobRunID>, verdict: Verdict, now: Time)
    requires done <= Decided(s, verdict)
    ensures QueuedIds(JobsAfter(s, done, verdict, now)) == QueuedIds(s.jobs) - done
  {
    forall id | id in done
      ensures !JobsAfter(s, done, verdict, now)[id].status.JobQueued?
    {
      DecidedMeaning(s, id, verdict);
      ClosedJobMeaning(s.jobs[id], DecisionOf(s, id, verdict).value, now);
    }
  }

  lemma SweepShrinks(s: Store, verdict: Verdict, now: Time)
    requires Decided(s, verdict) != {}
    ensures |QueuedIds(Sweep(s, verdict, now).jobs)| < |QueuedIds(s.jobs)|
  {
    var all := Decided(s, verdict);
    var a, b := QueuedIds(Sweep(s, verdict, now).jobs), QueuedIds(s.jobs);
    QueuedLeft(s, all, verdict, now);
    var id :| id in all;
    DecidedMeaning(s, id, verdict);
    assert id in b && id !in a;
    Smaller(a, b);
  }

  lemma {:induction false} Smaller(a: set<JobRunID>, b: set<JobRunID>)
    requires a < b
    ensures |a| < |b|
  {
    if a != {} {
      var x :| x in a;
      Smaller(a - {x}, b - {x});
    }
  }

  /** The evaluator's answers may differ from pass to pass; a pass asks once per job. */
  type Verdicts = nat -> Verdict

  /** Passes until one finds nothing to decide. */
  ghost function Settle(s: Store, verdicts: Verdicts, p: nat, now: Time): (t: Store)
    requires Valid(s)
    ensures Valid(t) && SettledFor(t, verdicts)
    decreases |QueuedIds(s.jobs)|
  {
    if Decided(s, verdicts(p)) == {} then s
    else
      AfterKeeps(s, Decided(s, verdicts(p)), verdicts(p), now);
      SweepShrinks(s, verdicts(p), now);
      Settle(Sweep(s, verdicts(p), now), verdicts, p + 1, now)
  }

  /** The answers of some pass leave nothing to decide. */
  ghost predicate SettledFor(t: Store, verdicts: Verdicts) {
    exists p: nat :: Decided(t, verdicts(p)) == {}
  }

  lemma {:induction false} SettleGrows(s: Store, verdicts: Verdicts, p: nat, now: Time)
    requires Valid(s)
    ensures Grows(s, Settle(s, verdicts, p, now))
    decreases |QueuedIds(s.jobs)|
  {
    if Decided(s, verdicts(p)) == {} {
      GrowsReflexive(s);
    } else {
      var t := Sweep(s, verdicts(p), now);
      AfterKeeps(s, Decided(s, verdicts(p)), verdicts(p), now);
      SweepShrinks(s, verdicts(p), now);
      SettleGrows(t, verdicts, p + 1, now);
      GrowsTransitive(s, t, Settle(s, verdicts, p, now));
    }
  }

  // ---------------------------------------------------------------- evaluators that agree

  /** The two evaluators agree on everything this store can ask. */
  ghost predicate AgreeOn(s: Store, v: Verdict, w: Verdict) {
    forall id :: id in s.jobs && s.jobs[id].runId in s.runs ==> AgreeAt(s, id, v, w)
  }

  predicate AgreeAt(s: Store, id: JobRunID, v: Verdict, w: Verdict)
    requires id in s.jobs && s.jobs[id].runId in s.runs
  {
    var r := s.jobs[id].runId;
    v(s.runs[r].event, s.jobs[id], Siblings(s, r)) == w(s.runs[r].event, s.jobs[id], Siblings(s, r))
  }

  lemma AgreeDecisions(s: Store, v: Verdict, w: Verdict)
    requires AgreeOn(s, v, w)
    ensures forall id :: DecisionOf(s, id, v) == DecisionOf(s, id, w)
    ensures Decided(s, v) == Decided(s, w)
  {
    forall id
      ensures DecisionOf(s, id, v) == DecisionOf(s, id, w)
    {
      if id in s.jobs && s.jobs[id].runId in s.runs { assert AgreeAt(s, id, v, w); }
    }
  }

  lemma AgreeSweeps(s: Store, v: Verdict, w: Verdict, now: Time)
    requires AgreeOn(s, v, w)
    ensures Sweep(s, v, now) == Sweep(s, w, now)
  {
    AgreeDecisions(s, v, w);
    var d := Decided(s, v);
    assert JobsAfter(s, d, v, now) == JobsAfter(s, d, w, now);
  }

  /** What is still queued under a deferred condition waits for a need or may run. */
  lemma SettledMeaning(t: Store, id: JobRunID, verdict: Verdict)
    requires Decided(t, verdict) == {}
    requires id in t.jobs && t.jobs[id].status.JobQueued? && t.jobs[id].runId in t.runs
    requires t.jobs[id].intent.condition != "" && IsDeferred(t.jobs[id].intent.condition)
    ensures var r := t.jobs[id].runId;
            || !NeedsEnded(t.jobs[id].intent.dependsOn, Siblings(t, r))
            || verdict(t.runs[r].event, t.jobs[id], Siblings(t, r)) == Some(true)
  {
    assert id !in Decided(t, verdict);
  }
}
