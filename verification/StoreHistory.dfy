/** Whole call sequences on the durable store: every operation in any order,
    any number of times, with any arguments. */
module StoreHistory {
  import opened Prelude
  import Text
  import opened RunModel
  import opened StoreSpec
  import opened StoreInvariants
  import opened StoreGrowth

  /** A claim reads the clock anew for every job it skips. */
  datatype Op =
    | OpRecord(delivery: Delivery, now: Time)
    | OpCreate(seed: RunSeed, now: Time, run: RunID, ids: seq<JobRunID>)
    | OpClaim(queue: seq<JobRunID>, clock: Clock)
    | OpRelease(id: JobRunID)
    | OpAck(id: JobRunID, obj: ActiveObject, now: Time)
    | OpObserve(id: JobRunID, phase: Phase, now: Time)
    | OpCancel(run: RunID, now: Time)
    | OpRerequest(id: JobRunID, now: Time, newId: JobRunID)
    | OpMark(id: JobRunID, now: Time)

  /** Minted ids are fresh, and a claim walks the store's own queue. */
  ghost predicate Legal(s: Store, op: Op) {
    match op
    case OpCreate(seed, now, run, ids) => FreshIds(s, seed, run, ids)
    case OpClaim(queue, clock) => IsQueue(s.jobs, Candidates(s), queue)
    case OpRerequest(id, now, newId) => newId !in s.jobs
    case _ => true
  }

  lemma BeforeIrreflexive(jobs: Jobs, a: JobRunID)
    requires a in jobs
    ensures !Before(jobs, a, a)
  {
    if Before(jobs, a, a) { Text.LexLessAsymmetric(a, a); }
  }

  lemma QueueIsQueued(s: Store, q: seq<JobRunID>)
    requires IsQueue(s.jobs, Candidates(s), q)
    ensures Queued(s.jobs, q) && forall i :: 0 <= i < |q| ==> Claimable(s, q[i])
  {
    forall i | 0 <= i < |q|
      ensures Claimable(s, q[i])
    {
      assert q[i] in q;
    }
    forall i, j | 0 <= i < j < |q|
      ensures q[i] != q[j]
    {
      BeforeIrreflexive(s.jobs, q[i]);
    }
  }

  /** One operation. Every operation keeps the invariant and loses nothing. */
  ghost function Step(s: Store, op: Op): (t: Store)
    requires Valid(s) && Legal(s, op)
    ensures Valid(t) && Grows(s, t)
  {
    match op
    case OpRecord(d, now) => RecordKeeps(s, d, now); RecordDelivery(s, d, now)
    case OpCreate(seed, now, run, ids) => CreateKeeps(s, seed, now, run, ids); CreateRun(s, seed, now, run, ids)
    case OpClaim(q, clock) => QueueIsQueued(s, q); ClaimKeeps(s, q, clock); ClaimFrom(s, q, clock).0
    case OpRelease(id) => ReleaseKeeps(s, id); ReleaseClaim(s, id)
    case OpAck(id, obj, now) => AckKeeps(s, id, obj, now); AckDispatched(s, id, obj, now)
    case OpObserve(id, phase, now) => ObserveKeeps(s, id, phase, now); ApplyObserved(s, id, phase, now)
    case OpCancel(run, now) => CancelKeeps(s, run, now); CancelRun(s, run, now)
    case OpRerequest(id, now, newId) => RerequestKeeps(s, id, now, newId); RerequestJob(s, id, now, newId)
    case OpMark(id, now) => MarkKeeps(s, id, now); MarkCollected(s, id, now)
  }

  /** The operations lead from s to t. */
  ghost predicate Leads(s: Store, ops: seq<Op>, t: Store)
    requires Valid(s)
    decreases |ops|
  {
    if ops == [] then s == t else Legal(s, ops[0]) && Leads(Step(s, ops[0]), ops[1..], t)
  }

  lemma EmptyValid()
    ensures Valid(Empty)
  {}

  /** Safety over every history: the invariant holds at the end, and nothing
      that was recorded on the way is lost or rewritten. */
  lemma {:induction false} HistoryKeeps(s: Store, ops: seq<Op>, t: Store)
    requires Valid(s) && Leads(s, ops, t)
    ensures Valid(t) && Grows(s, t)
    decreases |ops|
  {
    if ops == [] {
      GrowsReflexive(s);
    } else {
      var u := Step(s, ops[0]);
      HistoryKeeps(u, ops[1..], t);
      GrowsTransitive(s, u, t);
    }
  }

  /** What a run's record says about its attempts. */
  ghost predicate RunTells(run: RunRecord, sts: seq<JobStatus>) {
    && (run.status.IsTerminal() <==> AllTerminal(sts))
    && (run.finishedAt.Some? <==> run.status.IsTerminal())
    && (run.status.RunSucceeded? <==> SucceededOrSkipped(sts))
    && (run.status.RunFailed? ==> JobFailed in sts)
    && (run.status.RunCancelled? ==> JobCancelled in sts)
    && (JobCancelled !in sts && AllTerminal(sts) ==> (run.status.RunFailed? <==> JobFailed in sts))
    && (JobFailed !in sts && AllTerminal(sts) ==> (run.status.RunCancelled? <==> JobCancelled in sts))
    && (JobRunning in sts ==> run.status.RunRunning?)
    && ((forall i :: 0 <= i < |sts| ==> sts[i].JobQueued?) ==> run.status.RunQueued?)
  }

  lemma ClosedTells(run: RunRecord, sts: seq<JobStatus>)
    requires RunClosed(run, sts) && sts != []
    ensures RunTells(run, sts)
  {
    assert sts[0] in sts;
    assert SucceededOrSkipped(sts) ==> AllTerminal(sts);
    if JobCancelled in sts { var i :| 0 <= i < |sts| && sts[i] == JobCancelled; }
    if JobFailed in sts { var i :| 0 <= i < |sts| && sts[i] == JobFailed; }
    if AllTerminal(sts) && !SucceededOrSkipped(sts) {
      var i :| 0 <= i < |sts| && !(sts[i].JobSucceeded? || sts[i].JobSkipped?);
      assert sts[i] in sts;
    }
  }

  /** After every history: a run is closed exactly when all its attempts are; it
      succeeded exactly when every attempt succeeded or was skipped; a failed one
      has a failed attempt and a cancelled one a cancelled attempt, and which of
      the two it is follows from the attempts unless both occur; it is running
      when an attempt is and queued when all are. Times are set exactly on what is
      closed, and on what is dispatched or running. */
  lemma ClosedAfterHistory(ops: seq<Op>, t: Store)
    requires Valid(Empty) && Leads(Empty, ops, t)
    ensures forall id :: id in t.jobs ==> (t.jobs[id].finishedAt.Some? <==> t.jobs[id].status.IsTerminal())
    ensures forall id :: id in t.jobs ==>
              && (t.jobs[id].status.JobDispatched? ==> t.jobs[id].dispatchedAt.Some?)
              && (t.jobs[id].status.JobRunning? ==> t.jobs[id].startedAt.Some?)
    ensures forall r :: r in t.runs ==>
              && r in t.runJobs && t.runJobs[r] != [] && ListedExist(t.runJobs, t.jobs.Keys, r)
              && RunTells(t.runs[r], Statuses(t.jobs, Listed(t.runJobs, r)))
  {
    HistoryKeeps(Empty, ops, t);
    forall id | id in t.jobs
      ensures JobClosed(t.jobs[id])
    {
    }
    forall r | r in t.runs
      ensures r in t.runJobs && t.runJobs[r] != [] && ListedExist(t.runJobs, t.jobs.Keys, r)
      ensures RunTells(t.runs[r], Statuses(t.jobs, Listed(t.runJobs, r)))
    {
      assert RunStatusOk(t.runs, t.runJobs, t.jobs, r) && RunOk(t.runs, t.runJobs, r);
      ClosedTells(t.runs[r], Statuses(t.jobs, Listed(t.runJobs, r)));
    }
  }

  /** Every attempt counts: once an attempt of a run has failed or was cancelled,
      the run does not succeed in any later state, whatever is rerequested. */
  lemma NeverGreenAgain(s: Store, ops: seq<Op>, t: Store, id: JobRunID)
    requires Valid(s) && Leads(s, ops, t) && id in s.jobs && (s.jobs[id].status.JobFailed? || s.jobs[id].status.JobCancelled?)
    requires s.jobs[id].runId in s.runs
    ensures s.jobs[id].runId in t.runs && !t.runs[s.jobs[id].runId].status.RunSucceeded?
  {
    HistoryKeeps(s, ops, t);
    assert JobGrows(s.jobs[id], t.jobs[id]) && RunGrows(s.runs[s.jobs[id].runId], t.runs[s.jobs[id].runId]);
    BadAttemptCounts(t, id);
  }

  lemma BadAttemptCounts(t: Store, id: JobRunID)
    requires Valid(t) && id in t.jobs && (t.jobs[id].status.JobFailed? || t.jobs[id].status.JobCancelled?)
    requires t.jobs[id].runId in t.runs
    ensures !t.runs[t.jobs[id].runId].status.RunSucceeded?
  {
    var r := t.jobs[id].runId;
    assert JobOk(t.runs.Keys, t.runJobs, t.jobs, id) && RunStatusOk(t.runs, t.runJobs, t.jobs, r);
    var i :| 0 <= i < |t.runJobs[r]| && t.runJobs[r][i] == id;
    assert Statuses(t.jobs, t.runJobs[r])[i] == t.jobs[id].status;
  }

  /** Along every history ranks do not fall and closed jobs keep their status,
      even where a rerequest reopens the run. */
  lemma RanksAlongHistory(s: Store, ops: seq<Op>, t: Store, id: JobRunID)
    requires Valid(s) && Leads(s, ops, t) && id in s.jobs
    ensures id in t.jobs && s.jobs[id].status.Rank() <= t.jobs[id].status.Rank()
    ensures s.jobs[id].status.IsTerminal() ==> t.jobs[id].status == s.jobs[id].status
  {
    HistoryKeeps(s, ops, t);
    assert JobGrows(s.jobs[id], t.jobs[id]);
  }

  /** After every history the index of a run points at the newest attempt of a
      key, and the attempts are numbered from one without gap or repetition. */
  lemma AttemptsAfterHistory(ops: seq<Op>, t: Store, r: RunID, k: string)
    requires Valid(Empty) && Leads(Empty, ops, t) && HasKey(t.byJobKey, r, k)
    ensures var top := t.byJobKey[r][k];
            && IsAttempt(t.jobs, r, k, if top in t.jobs then t.jobs[top].attempt else 0, top)
            && (forall n: nat :: 1 <= n <= t.jobs[top].attempt <==> HasAttempt(t.jobs, r, k, n))
            && (forall a, b, n: nat :: IsAttempt(t.jobs, r, k, n, a) && IsAttempt(t.jobs, r, k, n, b) ==> a == b)
  {
    HistoryKeeps(Empty, ops, t);
    var top := t.byJobKey[r][k];
    assert Ladder(t.jobs, r, k, top);
    forall n: nat | HasAttempt(t.jobs, r, k, n)
      ensures 1 <= n <= t.jobs[top].attempt
    {
      var id :| IsAttempt(t.jobs, r, k, n, id);
      assert JobOk(t.runs.Keys, t.runJobs, t.jobs, id);
    }
  }
}
