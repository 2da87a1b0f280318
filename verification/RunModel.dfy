/** The durable run state machine: statuses, ranks, legal moves, the run
    aggregate, and the record types (internal/run/model). */
module RunModel {
  import opened Prelude

  type RunID = string
  type JobRunID = string
  type Time = int

  /** What the clock shows when a job is closed. */
  type Clock = JobRunID -> Time

  datatype RunStatus = RunQueued | RunRunning | RunSucceeded | RunFailed | RunCancelled {
    predicate IsTerminal() { RunSucceeded? || RunFailed? || RunCancelled? }
    function Rank(): nat {
      match this
      case RunQueued => 0
      case RunRunning => 1
      case _ => 2
    }
  }

  datatype JobStatus =
    | JobQueued | JobDispatched | JobRunning
    | JobSucceeded | JobFailed | JobCancelled | JobSkipped
  {
    predicate IsTerminal() { JobSucceeded? || JobFailed? || JobCancelled? || JobSkipped? }
    function Rank(): nat {
      match this
      case JobQueued => 0
      case JobDispatched => 1
      case JobRunning => 2
      case _ => 3
    }
  }

  predicate CanTransitionJob(from: JobStatus, to: JobStatus) {
    && !from.IsTerminal()
    && match to
       case JobCancelled => true
       case JobSkipped => true
       case JobDispatched => from.JobQueued?
       case JobRunning => from.JobDispatched? || from.JobRunning?
       case JobSucceeded => from.JobDispatched? || from.JobRunning?
       case JobFailed => from.JobDispatched? || from.JobRunning?
       case JobQueued => false
  }

  predicate CanAdvanceJob(from: JobStatus, to: JobStatus) {
    !to.JobCancelled? && (from == to || to.Rank() > from.Rank())
  }

  predicate CanAdvanceRun(from: RunStatus, to: RunStatus) {
    || from == to
    || (!from.IsTerminal() && (to.IsTerminal() || to.Rank() > from.Rank()))
  }

  /** The run status its job statuses stand for, told by which statuses occur:
      any open job keeps the run open, closed jobs aggregate worst first. */
  function Aggregate(jobs: seq<JobStatus>): (r: RunStatus) {
    if jobs == [] then RunQueued
    else if JobRunning in jobs then RunRunning
    else if JobDispatched in jobs then RunRunning
    else if JobQueued in jobs then RunQueued
    else if JobFailed in jobs then RunFailed
    else if JobCancelled in jobs then RunCancelled
    else RunSucceeded
  }

  predicate AllTerminal(jobs: seq<JobStatus>) {
    forall i :: 0 <= i < |jobs| ==> jobs[i].IsTerminal()
  }

  /** A non-empty set of jobs closes its run exactly when every job is closed. */
  lemma AggregateTerminal(jobs: seq<JobStatus>)
    ensures Aggregate(jobs).IsTerminal() <==> jobs != [] && AllTerminal(jobs)
  {
    if jobs != [] && !AllTerminal(jobs) {
      var i :| 0 <= i < |jobs| && !jobs[i].IsTerminal();
      assert jobs[i] in jobs;
    }
  }

  predicate SucceededOrSkipped(jobs: seq<JobStatus>) {
    forall i :: 0 <= i < |jobs| ==> jobs[i].JobSucceeded? || jobs[i].JobSkipped?
  }

  /** What a run status says about the jobs it was computed from: closed jobs
      decide worst first, skipped ones do not fail the run, and an open run is
      running exactly when some job is running or dispatched. */
  ghost predicate Verdict(r: RunStatus, jobs: seq<JobStatus>) {
    if jobs != [] && AllTerminal(jobs) then
      && (r.RunFailed? <==> JobFailed in jobs)
      && (r.RunCancelled? <==> JobFailed !in jobs && JobCancelled in jobs)
      && (r.RunSucceeded? <==> SucceededOrSkipped(jobs))
    else
      && !r.IsTerminal()
      && (r.RunRunning? <==> exists i :: 0 <= i < |jobs| && (jobs[i].JobRunning? || jobs[i].JobDispatched?))
  }

  lemma AggregateVerdict(jobs: seq<JobStatus>)
    ensures Verdict(Aggregate(jobs), jobs)
  {
    AggregateTerminal(jobs);
    if i :| 0 <= i < |jobs| && !(jobs[i].JobSucceeded? || jobs[i].JobSkipped?) { assert jobs[i] in jobs; }
    assert forall i :: 0 <= i < |jobs| ==> jobs[i] in jobs;
  }

  /** Jobs leave no choice: there is one such status. */
  lemma VerdictUnique(a: RunStatus, b: RunStatus, jobs: seq<JobStatus>)
    requires Verdict(a, jobs) && Verdict(b, jobs)
    ensures a == b
  {}

  /** The flag-collecting loop of the source computes Aggregate. */
  method AggregateRunStatus(jobs: seq<JobStatus>) returns (r: RunStatus)
    ensures r == Aggregate(jobs) && Verdict(r, jobs)
  {
    AggregateVerdict(jobs);
    var running, started, allTerminal := false, false, true;
    var anyFailed, anyCancelled, anySucceeded, anySkipped := false, false, false, false;
    for i := 0 to |jobs|
      invariant running <==> JobRunning in jobs[..i]
      invariant started <==> JobRunning in jobs[..i] || JobDispatched in jobs[..i]
      invariant !allTerminal <==> JobRunning in jobs[..i] || JobDispatched in jobs[..i] || JobQueued in jobs[..i]
      invariant anyFailed <==> JobFailed in jobs[..i]
      invariant anyCancelled <==> JobCancelled in jobs[..i]
      invariant anySkipped <==> JobSkipped in jobs[..i]
      invariant anySucceeded <==> JobSucceeded in jobs[..i]
    {
      assert jobs[..i + 1] == jobs[..i] + [jobs[i]];
      match jobs[i] {
        case JobRunning => running, started, allTerminal := true, true, false;
        case JobDispatched => started, allTerminal := true, false;
        case JobQueued => allTerminal := false;
        case JobFailed => anyFailed := true;
        case JobCancelled => anyCancelled := true;
        case JobSkipped => anySkipped := true;
        case JobSucceeded => anySucceeded := true;
      }
    }
    assert jobs[..|jobs|] == jobs;
    assert jobs == [] || (jobs[0] in jobs && (jobs[0].IsTerminal() || jobs[0] in [JobRunning, JobDispatched, JobQueued]));
    if |jobs| == 0 {
      r := RunQueued;
    } else if running {
      r := RunRunning;
    } else if !allTerminal {
      r := if started then RunRunning else RunQueued;
    } else if anyFailed {
      r := RunFailed;
    } else if anyCancelled {
      r := RunCancelled;
    } else if anySucceeded || anySkipped {
      r := RunSucceeded;
    } else {
      r := RunQueued;
    }
  }

  datatype Event = Event(
    provider: string, name: string, deliveryId: string, owner: string, repo: string,
    ref: string, sha: string, actor: string)

  datatype DeliveryKey = DeliveryKey(provider: string, deliveryId: string)

  datatype Delivery = Delivery(key: DeliveryKey, event: Event, payload: string)

  /** The durable receipt; `runId` is None until a run has been created. */
  datatype DeliveryRecord = DeliveryRecord(
    key: DeliveryKey, event: Event, payload: string, receivedAt: Time, runId: Option<RunID>)

  datatype JobIntent = JobIntent(
    jobKey: string, runnerClass: string, dependsOn: seq<string>,
    matrix: map<string, string>, planDigest: string, condition: string)

  datatype RunSeed = RunSeed(delivery: DeliveryKey, event: Event, jobs: seq<JobIntent>)

  datatype RunRecord = RunRecord(
    id: RunID, event: Event, delivery: DeliveryKey, status: RunStatus,
    createdAt: Time, finishedAt: Option<Time>)

  /** A job attempt. The fields copied from the compiled job are kept together
      in `intent`; they never change after creation. */
  datatype JobRecord = JobRecord(
    id: JobRunID, runId: RunID, intent: JobIntent, attempt: nat, createdAt: Time,
    status: JobStatus, activeName: string, activeUid: string,
    dispatchedAt: Option<Time>, startedAt: Option<Time>, finishedAt: Option<Time>,
    collectedAt: Option<Time>)

  function NewJob(id: JobRunID, runId: RunID, intent: JobIntent, attempt: nat, now: Time): JobRecord {
    JobRecord(id, runId, intent, attempt, now, JobQueued, "", "", None, None, None, None)
  }

  datatype Phase = PhasePending | PhaseRunning | PhaseSucceeded | PhaseFailed | PhaseSkipped | PhaseUnknown

  /** Pending and unknown phases imply no durable change. */
  function JobStatusFromPhase(p: Phase): Option<JobStatus> {
    match p
    case PhaseRunning => Some(JobRunning)
    case PhaseSucceeded => Some(JobSucceeded)
    case PhaseFailed => Some(JobFailed)
    case PhaseSkipped => Some(JobSkipped)
    case _ => None
  }
}
