/** Stores up to the times at which jobs and runs started and finished. Closing
    jobs at whatever times, in whatever order, gives one store up to these. */
module Undated {
  import opened Prelude
  import opened RunModel
  import opened StoreSpec
  import opened StoreInvariants
  import opened Deferral

  function Undate(o: Option<Time>): Option<Time> {
    if o.Some? then Some(0) else None
  }

  function UndatedJob(j: JobRecord): JobRecord {
    j.(startedAt := Undate(j.startedAt), finishedAt := Undate(j.finishedAt))
  }

  function UndatedRun(run: RunRecord): RunRecord {
    run.(finishedAt := Undate(run.finishedAt))
  }

  function UndatedJobs(jobs: Jobs): Jobs {
    map id | id in jobs :: UndatedJob(jobs[id])
  }

  function UndatedRuns(runs: Runs): Runs {
    map r | r in runs :: UndatedRun(runs[r])
  }

  function UndatedStore(s: Store): Store {
    s.(jobs := UndatedJobs(s.jobs), runs := UndatedRuns(s.runs))
  }

  function UndatedAll(all: seq<JobRecord>): (r: seq<JobRecord>)
    ensures |r| == |all| && forall i :: 0 <= i < |all| ==> r[i] == UndatedJob(all[i])
  {
    seq(|all|, i requires 0 <= i < |all| => UndatedJob(all[i]))
  }

  /** The evaluator reads no start or finish time. */
  ghost predicate Timeless(verdict: Verdict) {
    forall ev, j, all {:trigger verdict(ev, j, all)} :: verdict(ev, UndatedJob(j), UndatedAll(all)) == verdict(ev, j, all)
  }

  // ---------------------------------------------------------------- operations

  lemma UndatedStatuses(jobs: Jobs, ids: seq<JobRunID>)
    requires forall i :: 0 <= i < |ids| ==> ids[i] in jobs
    ensures Statuses(UndatedJobs(jobs), ids) == Statuses(jobs, ids)
  {}

  lemma UndatedRefresh(s: Store, r: RunID, now: Time)
    requires ListedExist(s.runJobs, s.jobs.Keys, r)
    ensures UndatedStore(Refresh(s, r, now)) == Refresh(UndatedStore(s), r, 0)
  {
    UndatedStatuses(s.jobs, Listed(s.runJobs, r));
    var t, u := Refresh(s, r, now), Refresh(UndatedStore(s), r, 0);
    assert UndatedRuns(t.runs) == u.runs;
  }

  lemma UndatedTouch(s: Store, id: JobRunID, target: JobStatus, now: Time)
    requires id in s.jobs
    ensures UndatedStore(s.(jobs := s.jobs[id := Observed(s.jobs[id], target, now)])) ==
            UndatedStore(s).(jobs := UndatedStore(s).jobs[id := Observed(UndatedStore(s).jobs[id], target, 0)])
  {
    assert UndatedJob(Observed(s.jobs[id], target, now)) == Observed(UndatedJob(s.jobs[id]), target, 0);
  }

  /** Observing at any time is, up to times, observing. */
  lemma UndatedApply(s: Store, id: JobRunID, phase: Phase, now: Time)
    requires id in s.jobs ==> ListedExist(s.runJobs, s.jobs.Keys, s.jobs[id].runId)
    ensures UndatedStore(ApplyObserved(s, id, phase, now)) == ApplyObserved(UndatedStore(s), id, phase, 0)
  {
    if id in s.jobs && !s.jobs[id].status.IsTerminal() {
      match JobStatusFromPhase(phase)
      case None => UndatedRefresh(s, s.jobs[id].runId, now);
      case Some(target) =>
        if CanAdvanceJob(s.jobs[id].status, target) {
          UndatedTouch(s, id, target, now);
          UndatedRefresh(s.(jobs := s.jobs[id := Observed(s.jobs[id], target, now)]), s.jobs[id].runId, now);
        }
    }
  }

  lemma UndatedSameShape(s: Store)
    ensures var t := UndatedStore(s);
            && t.deliveries == s.deliveries && t.runJobs == s.runJobs && t.byJobKey == s.byJobKey
            && t.runs.Keys == s.runs.Keys && t.jobs.Keys == s.jobs.Keys && RunsGrow(s.runs, t.runs)
  {}

  lemma UndatedShape(s: Store)
    requires Shape(s)
    ensures Shape(UndatedStore(s))
  {
    var t := UndatedStore(s);
    forall r | r in t.runJobs
      ensures ListOk(t.runJobs, t.jobs, r)
    {
      assert ListOk(s.runJobs, s.jobs, r);
    }
    forall id | id in t.jobs
      ensures JobOk(t.runs.Keys, t.runJobs, t.jobs, id)
    {
      assert JobOk(s.runs.Keys, s.runJobs, s.jobs, id);
    }
    forall r | r in t.runs
      ensures RunOk(t.runs, t.runJobs, r)
    {
      assert RunOk(s.runs, s.runJobs, r);
    }
  }

  lemma UndatedIndex(jobs: Jobs, keys: Keys)
    requires Index(jobs, keys)
    ensures Index(UndatedJobs(jobs), keys)
  {
    var b := UndatedJobs(jobs);
    forall r, k | HasKey(keys, r, k)
      ensures Ladder(b, r, k, keys[r][k])
    {
      UndatedLadder(jobs, r, k, keys[r][k]);
    }
    forall id | id in b
      ensures Keyed(b, keys, id)
    {
      assert Keyed(jobs, keys, id);
    }
  }

  lemma UndatedLadder(a: Jobs, r: RunID, k: string, top: JobRunID)
    requires Ladder(a, r, k, top)
    ensures Ladder(UndatedJobs(a), r, k, top)
  {
    var b := UndatedJobs(a);
    forall n: nat | 1 <= n <= b[top].attempt
      ensures HasAttempt(b, r, k, n)
    {
      assert HasAttempt(a, r, k, n);
      var id :| IsAttempt(a, r, k, n, id);
      assert IsAttempt(b, r, k, n, id);
    }
    forall x, y | x in b && b[x].runId == r && b[x].intent.jobKey == k
      && y in b && b[y].runId == r && b[y].intent.jobKey == k && b[x].attempt == b[y].attempt
      ensures x == y
    {
      assert a[x].attempt == a[y].attempt;
    }
    forall id | id in b && b[id].runId == r && b[id].intent.jobKey == k
      ensures b[id].attempt <= b[top].attempt
    {
      assert a[id].attempt <= a[top].attempt;
    }
  }

  lemma UndatedClosed(s: Store)
    requires Closed(s)
    ensures Closed(UndatedStore(s))
  {
    var t := UndatedStore(s);
    forall id | id in t.jobs
      ensures JobClosed(t.jobs[id])
    {
      assert JobClosed(s.jobs[id]);
    }
    forall r | r in t.runs
      ensures RunStatusOk(t.runs, t.runJobs, t.jobs, r)
    {
      assert RunStatusOk(s.runs, s.runJobs, s.jobs, r);
      UndatedStatuses(s.jobs, s.runJobs[r]);
    }
  }

  lemma UndatedValid(s: Store)
    requires Valid(s)
    ensures Valid(UndatedStore(s))
  {
    UndatedShape(s);
    UndatedIndex(s.jobs, s.byJobKey);
    UndatedClosed(s);
    UndatedSameShape(s);
    BoundKept(s.deliveries, s.runs, UndatedRuns(s.runs));
  }

  // ---------------------------------------------------------------- decisions

  lemma UndatedSiblings(s: Store, r: RunID)
    ensures Siblings(UndatedStore(s), r) == UndatedAll(Siblings(s, r))
  {}

  lemma UndatedJudge(ev: Event, j: JobRecord, all: seq<JobRecord>, verdict: Verdict)
    requires Timeless(verdict)
    ensures Judge(ev, UndatedJob(j), UndatedAll(all), verdict) == Judge(ev, j, all, verdict)
  {
    assert verdict(ev, UndatedJob(j), UndatedAll(all)) == verdict(ev, j, all);
    var u := UndatedAll(all);
    assert NeedsEnded(j.intent.dependsOn, u) <==> NeedsEnded(j.intent.dependsOn, all);
  }

  lemma UndatedDecision(s: Store, id: JobRunID, verdict: Verdict)
    requires Timeless(verdict)
    ensures DecisionOf(UndatedStore(s), id, verdict) == DecisionOf(s, id, verdict)
  {
    if id in s.jobs && s.jobs[id].status.JobQueued? && s.jobs[id].runId in s.runs {
      var r := s.jobs[id].runId;
      UndatedSiblings(s, r);
      UndatedJudge(s.runs[r].event, s.jobs[id], Siblings(s, r), verdict);
      DecisionIs(s, id, verdict);
      DecisionIs(UndatedStore(s), id, verdict);
    }
  }

  lemma DecisionIs(s: Store, id: JobRunID, verdict: Verdict)
    requires id in s.jobs && s.jobs[id].status.JobQueued? && s.jobs[id].runId in s.runs
    ensures var r := s.jobs[id].runId;
            DecisionOf(s, id, verdict) == Judge(s.runs[r].event, s.jobs[id], Siblings(s, r), verdict)
  {}

  lemma UndatedDecided(s: Store, verdict: Verdict)
    requires Timeless(verdict)
    ensures Decided(UndatedStore(s), verdict) == Decided(s, verdict)
  {
    forall id
      ensures DecisionOf(UndatedStore(s), id, verdict) == DecisionOf(s, id, verdict)
    {
      UndatedDecision(s, id, verdict);
    }
  }

  // ---------------------------------------------------------------- a pass

  lemma {:induction false} UndatedCloses(s: Store, t: Store, order: seq<JobRunID>, verdict: Verdict, clock: Clock, still: Clock)
    requires Valid(s) && Valid(t) && Timeless(verdict) && (forall id :: still(id) == 0)
    requires Valid(UndatedStore(s)) && Valid(UndatedStore(t))
    ensures UndatedStore(CloseAll(s, t, order, verdict, clock)) ==
            CloseAll(UndatedStore(s), UndatedStore(t), order, verdict, still)
    decreases |order|
  {
    if order != [] {
      var id := order[0];
      var p := DecisionOf(s, id, verdict);
      UndatedDecision(s, id, verdict);
      if p.Some? {
        ObserveKeeps(t, id, p.value, clock(id));
        UndatedApply(t, id, p.value, clock(id));
        var u := ApplyObserved(t, id, p.value, clock(id));
        UndatedValid(u);
        UndatedCloses(s, u, order[1..], verdict, clock, still);
        CloseAllStep(s, t, u, order, verdict, clock);
        UndatedStep(s, t, u, order, verdict, still);
      } else {
        UndatedCloses(s, t, order[1..], verdict, clock, still);
      }
    }
  }

  lemma UndatedStep(s: Store, t: Store, u: Store, order: seq<JobRunID>, verdict: Verdict, still: Clock)
    requires Valid(UndatedStore(s)) && Valid(UndatedStore(t)) && Valid(UndatedStore(u)) && order != [] && still(order[0]) == 0
    requires DecisionOf(UndatedStore(s), order[0], verdict).Some?
    requires order[0] in t.jobs ==> ListedExist(t.runJobs, t.jobs.Keys, t.jobs[order[0]].runId)
    requires UndatedStore(u) == ApplyObserved(UndatedStore(t), order[0], DecisionOf(UndatedStore(s), order[0], verdict).value, 0)
    ensures CloseAll(UndatedStore(s), UndatedStore(t), order, verdict, still) ==
            CloseAll(UndatedStore(s), UndatedStore(u), order[1..], verdict, still)
  {
    CloseAllStep(UndatedStore(s), UndatedStore(t), UndatedStore(u), order, verdict, still);
  }

  /** Up to times, a pass depends neither on the order in which it closes jobs nor
      on what the clock shows at each. */
  lemma PassOrderFree(s: Store, order: seq<JobRunID>, clock: Clock, verdict: Verdict)
    requires Valid(s) && Timeless(verdict) && Enumerates(order, Decided(s, verdict))
    ensures UndatedStore(CloseAll(s, s, order, verdict, clock)) == Sweep(UndatedStore(s), verdict, 0)
  {
    var still: Clock := (id: JobRunID) => 0;
    UndatedValid(s);
    UndatedCloses(s, s, order, verdict, clock, still);
    UndatedDecided(s, verdict);
    StillPass(UndatedStore(s), order, verdict, still, 0);
  }
}
