/** What no later operation changes: which runs exist beside the newly created
    ones, and which job keys a run has. */
module StoreLater {
  import opened Prelude
  import opened RunModel
  import opened StoreSpec
  import opened StoreInvariants
  import opened StoreGrowth
  import opened StoreHistory

  /** No run appears or disappears and no key index changes. */
  predicate SameRuns(s: Store, t: Store) {
    t.runs.Keys == s.runs.Keys && t.byJobKey == s.byJobKey
  }

  lemma {:induction false} WalkRuns(s: Store, q: seq<JobRunID>, clock: Clock)
    requires Walkable(s, q)
    ensures SameRuns(s, ClaimFrom(s, q, clock).0)
    decreases |q|
  {
    if q != [] {
      if DependencyState(s, q[0]).DepsBlocked? {
        WalkRuns(s, q[1..], clock);
      } else if DependencyState(s, q[0]).DepsFailed? && s.jobs[q[0]].intent.condition == "" {
        WalkRuns(Skip(s, q[0], clock(q[0])), q[1..], clock);
      }
    }
  }

  lemma ClaimRuns(s: Store, q: seq<JobRunID>, clock: Clock)
    requires Valid(s) && IsQueue(s.jobs, Candidates(s), q)
    ensures Walkable(s, q) && SameRuns(s, ClaimFrom(s, q, clock).0)
  {
    QueueIsQueued(s, q);
    WalkAllowed(s, q);
    WalkRuns(s, q, clock);
  }

  lemma ObserveRuns(s: Store, id: JobRunID, phase: Phase, now: Time)
    requires Valid(s)
    ensures id in s.jobs ==> ListedExist(s.runJobs, s.jobs.Keys, s.jobs[id].runId)
    ensures SameRuns(s, ApplyObserved(s, id, phase, now))
  {
    ObserveKeeps(s, id, phase, now);
  }

  /** The runs and key sets a store step may change. */
  predicate RunsStep(s: Store, t: Store, op: Op) {
    && s.runs.Keys <= t.runs.Keys
    && (forall r :: r in t.runs && r !in s.runs ==> op.OpCreate? && r == op.run)
    && (forall r :: r in s.byJobKey ==> r in t.byJobKey && t.byJobKey[r].Keys == s.byJobKey[r].Keys)
  }

  lemma SameRunsStep(s: Store, t: Store, op: Op)
    requires SameRuns(s, t)
    ensures RunsStep(s, t, op)
  {}

  lemma CreateRuns(s: Store, seed: RunSeed, now: Time, run: RunID, ids: seq<JobRunID>)
    requires Valid(s) && FreshIds(s, seed, run, ids)
    ensures RunsStep(s, CreateRun(s, seed, now, run, ids), OpCreate(seed, now, run, ids))
  {}

  lemma RerequestRuns(s: Store, id: JobRunID, now: Time, newId: JobRunID)
    requires Valid(s)
    ensures RunsStep(s, RerequestJob(s, id, now, newId), OpRerequest(id, now, newId))
  {
    if id in s.jobs { assert Keyed(s.jobs, s.byJobKey, id); }
  }

  lemma AckRuns(s: Store, id: JobRunID, obj: ActiveObject, now: Time)
    ensures SameRuns(s, AckDispatched(s, id, obj, now))
  {}

  lemma CancelRuns(s: Store, run: RunID, now: Time)
    requires Valid(s)
    ensures SameRuns(s, CancelRun(s, run, now))
  {}

  lemma MarkRuns(s: Store, id: JobRunID, now: Time)
    ensures SameRuns(s, MarkCollected(s, id, now))
  {}

  lemma ClaimStep(s: Store, op: Op, t: Store)
    requires Valid(s) && op.OpClaim? && Legal(s, op) && t == Step(s, op)
    ensures SameRuns(s, t)
  {
    ClaimRuns(s, op.queue, op.clock);
  }

  lemma ObserveStep(s: Store, op: Op, t: Store)
    requires Valid(s) && op.OpObserve? && t == Step(s, op)
    ensures SameRuns(s, t)
  {
    ObserveRuns(s, op.id, op.phase, op.now);
  }

  lemma JobStep(s: Store, op: Op, t: Store)
    requires Valid(s) && (op.OpAck? || op.OpMark? || op.OpRelease?) && t == Step(s, op)
    ensures SameRuns(s, t)
  {
    if op.OpAck? { AckRuns(s, op.id, op.obj, op.now); } else if op.OpMark? { MarkRuns(s, op.id, op.now); }
  }

  lemma CancelStep(s: Store, op: Op, t: Store)
    requires Valid(s) && op.OpCancel? && t == Step(s, op)
    ensures SameRuns(s, t)
  {
    CancelRuns(s, op.run, op.now);
    assert t == CancelRun(s, op.run, op.now);
  }

  lemma RecordStep(s: Store, op: Op, t: Store)
    requires Valid(s) && op.OpRecord? && t == Step(s, op)
    ensures SameRuns(s, t)
  {
    assert t == RecordDelivery(s, op.delivery, op.now);
  }

  lemma AttemptStep(s: Store, op: Op, t: Store)
    requires Valid(s) && (op.OpCreate? || op.OpRerequest?) && Legal(s, op) && t == Step(s, op)
    ensures RunsStep(s, t, op)
  {
    if op.OpCreate? {
      CreateRuns(s, op.seed, op.now, op.run, op.ids);
    } else {
      RerequestRuns(s, op.id, op.now, op.newId);
    }
  }

  lemma StepRuns(s: Store, op: Op, t: Store)
    requires Valid(s) && Legal(s, op) && t == Step(s, op)
    ensures RunsStep(s, t, op)
  {
    if op.OpCreate? || op.OpRerequest? {
      AttemptStep(s, op, t);
    } else {
      if op.OpClaim? { ClaimStep(s, op, t); }
      else if op.OpObserve? { ObserveStep(s, op, t); }
      else if op.OpCancel? { CancelStep(s, op, t); }
      else if op.OpRecord? { RecordStep(s, op, t); }
      else { JobStep(s, op, t); }
      SameRunsStep(s, t, op);
    }
  }

  /** The job's run was never committed. */
  predicate Uncommitted(s: Store, id: JobRunID) {
    id in s.jobs && s.jobs[id].runId !in s.runs
  }

  lemma StepUncommitted(s: Store, op: Op, id: JobRunID)
    requires Valid(s) && Legal(s, op) && Uncommitted(s, id)
    ensures Uncommitted(Step(s, op), id) && Step(s, op).jobs[id].runId == s.jobs[id].runId
  {
    var t := Step(s, op);
    StepRuns(s, op, t);
    assert JobGrows(s.jobs[id], t.jobs[id]);
  }

  /** A run that does not exist beside its jobs never will. */
  lemma {:induction false} NeverCommitted(s: Store, ops: seq<Op>, t: Store, id: JobRunID)
    requires Valid(s) && Leads(s, ops, t) && Uncommitted(s, id)
    ensures Uncommitted(t, id) && t.jobs[id].runId == s.jobs[id].runId
    decreases |ops|
  {
    if ops != [] {
      StepUncommitted(s, ops[0], id);
      NeverCommitted(Step(s, ops[0]), ops[1..], t, id);
    }
  }

  /** The job keys of a run are fixed when it is created. */
  lemma {:induction false} KeysFixed(s: Store, ops: seq<Op>, t: Store, r: RunID)
    requires Valid(s) && Leads(s, ops, t) && r in s.byJobKey
    ensures r in t.byJobKey && t.byJobKey[r].Keys == s.byJobKey[r].Keys
    decreases |ops|
  {
    if ops != [] {
      StepRuns(s, ops[0], Step(s, ops[0]));
      KeysFixed(Step(s, ops[0]), ops[1..], t, r);
    }
  }
}
