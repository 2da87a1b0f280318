/** What each operation makes of the records it touches, field by field, and what
    it leaves alone; then what a history leaves of its first receipts. */
module StoreEffects {
  import opened Prelude
  import opened RunModel
  import opened StoreSpec
  import opened StoreInvariants
  import opened StoreGrowth
  import opened StoreHistory
  import Text

  /** Nothing but this job and the record of its run may differ. */
  ghost predicate OnlyThisJob(s: Store, t: Store, id: JobRunID) {
    && id in s.jobs && t.jobs.Keys == s.jobs.Keys && t.runs.Keys == s.runs.Keys
    && (forall j :: j in s.jobs && j != id ==> t.jobs[j] == s.jobs[j])
    && (forall r :: r in s.runs && r != s.jobs[id].runId ==> t.runs[r] == s.runs[r])
    && t.deliveries == s.deliveries && t.runJobs == s.runJobs && t.byJobKey == s.byJobKey
  }

  /** Only status and times of the job differ. */
  predicate SameWork(a: JobRecord, b: JobRecord) {
    b == a.(status := b.status, startedAt := b.startedAt, finishedAt := b.finishedAt)
  }

  // ---------------------------------------------------------------- observations

  /** An observation of an open job as running makes it running, one of an end
      gives it that end; what does not tell of progress, and everything about a
      closed job, changes nothing. */
  ghost predicate ObservedAs(a: JobRecord, phase: Phase, now: Time, b: JobRecord) {
    if a.status.JobSucceeded? || a.status.JobFailed? || a.status.JobCancelled? || a.status.JobSkipped? then b == a
    else
      match phase
      case PhasePending => b == a
      case PhaseUnknown => b == a
      case PhaseRunning => SameWork(a, b) && b.status == JobRunning && b.startedAt == Some(now) && b.finishedAt == a.finishedAt
      case PhaseSucceeded => SameWork(a, b) && b.status == JobSucceeded && EndedAt(a, b, now)
      case PhaseFailed => SameWork(a, b) && b.status == JobFailed && EndedAt(a, b, now)
      case PhaseSkipped => SameWork(a, b) && b.status == JobSkipped && EndedAt(a, b, now)
  }

  /** An end is also a start where none was recorded. */
  predicate EndedAt(a: JobRecord, b: JobRecord, now: Time) {
    b.finishedAt == Some(now) && b.startedAt == if a.startedAt.None? then Some(now) else a.startedAt
  }

  /** The record an observation leaves. */
  function RecordAfter(a: JobRecord, phase: Phase, now: Time): JobRecord {
    if a.status.IsTerminal() then a
    else
      match JobStatusFromPhase(phase)
      case None => a
      case Some(target) => if CanAdvanceJob(a.status, target) then Observed(a, target, now) else a
  }

  lemma RecordObserved(a: JobRecord, phase: Phase, now: Time)
    ensures ObservedAs(a, phase, now, RecordAfter(a, phase, now))
  {}

  lemma ObserveTouches(s: Store, id: JobRunID, phase: Phase, now: Time)
    requires id in s.jobs && ListedExist(s.runJobs, s.jobs.Keys, s.jobs[id].runId)
    ensures var t := ApplyObserved(s, id, phase, now);
            && t.jobs == s.jobs[id := RecordAfter(s.jobs[id], phase, now)] && t == s.(jobs := t.jobs, runs := t.runs)
            && t.runs.Keys == s.runs.Keys && forall r :: r in s.runs && r != s.jobs[id].runId ==> t.runs[r] == s.runs[r]
  {
    var u := s.(jobs := s.jobs[id := RecordAfter(s.jobs[id], phase, now)]);
    assert s.jobs == s.jobs[id := s.jobs[id]];
    RefreshFrame(u, s.jobs[id].runId, now);
  }

  lemma ObserveEffect(s: Store, id: JobRunID, phase: Phase, now: Time)
    requires Valid(s) && id in s.jobs
    ensures ListedExist(s.runJobs, s.jobs.Keys, s.jobs[id].runId)
    ensures var t := ApplyObserved(s, id, phase, now);
            OnlyThisJob(s, t, id) && ObservedAs(s.jobs[id], phase, now, t.jobs[id]) && t.claimed == s.claimed
  {
    RefreshKeeps(s, s.jobs[id].runId, now);
    ObserveTouches(s, id, phase, now);
    TouchedOnly(s, ApplyObserved(s, id, phase, now), id, RecordAfter(s.jobs[id], phase, now));
    RecordObserved(s.jobs[id], phase, now);
  }

  lemma TouchedOnly(s: Store, t: Store, id: JobRunID, j: JobRecord)
    requires id in s.jobs && t.jobs == s.jobs[id := j] && t == s.(jobs := t.jobs, runs := t.runs)
    requires t.runs.Keys == s.runs.Keys && forall r :: r in s.runs && r != s.jobs[id].runId ==> t.runs[r] == s.runs[r]
    ensures OnlyThisJob(s, t, id) && t.jobs[id] == j && t.claimed == s.claimed
  {}

  // ---------------------------------------------------------------- dispatch

  /** A queued job, or a dispatched one under the same name, takes the object. */
  predicate TakesObject(j: JobRecord, obj: ActiveObject) {
    j.status.JobQueued? || (j.status.JobDispatched? && (j.activeName == "" || j.activeName == obj.name))
  }

  lemma AckEffect(s: Store, id: JobRunID, obj: ActiveObject, now: Time)
    ensures var t := AckDispatched(s, id, obj, now);
            if id in s.jobs && TakesObject(s.jobs[id], obj) then
              && AckOutcomeOf(s, id, obj) == Acked && OnlyThisJob(s, t, id) && t.runs == s.runs && t.claimed == s.claimed - {id}
              && t.jobs[id].status == JobDispatched && t.jobs[id].activeName == obj.name && t.jobs[id].activeUid == obj.uid
              && t.jobs[id].dispatchedAt == Some(now)
              && s.jobs[id] == t.jobs[id].(status := s.jobs[id].status, activeName := s.jobs[id].activeName,
                                           activeUid := s.jobs[id].activeUid, dispatchedAt := s.jobs[id].dispatchedAt)
            else
              && t == s
              && AckOutcomeOf(s, id, obj) == (if id !in s.jobs then AckUnknownJob
                                              else if s.jobs[id].status.JobDispatched? then AckOtherName else AckNotDispatchable)
  {}

  /** A claim given back makes a queued job claimable again; nothing else changes. */
  lemma ReleaseEffect(s: Store, id: JobRunID)
    ensures var t := ReleaseClaim(s, id);
            && t == s.(claimed := t.claimed) && id !in t.claimed && (forall j :: j != id ==> (j in t.claimed <==> j in s.claimed))
            && (id in s.jobs && s.jobs[id].status == JobQueued ==> Claimable(t, id))
  {}

  /** The first mark stays; nothing else changes. */
  lemma MarkEffect(s: Store, id: JobRunID, now: Time)
    requires id in s.jobs
    ensures var t := MarkCollected(s, id, now);
            && OnlyThisJob(s, t, id) && t.runs == s.runs && t.claimed == s.claimed
            && t.jobs[id] == s.jobs[id].(collectedAt := if s.jobs[id].collectedAt.Some? then s.jobs[id].collectedAt else Some(now))
  {}

  /** Two jobs have objects of one name exactly when their ids differ in case only. */
  lemma NamesMeetIff(a: JobRunID, b: JobRunID)
    ensures CRName(a) == CRName(b) <==> Text.Lower(a) == Text.Lower(b)
  {
    var p := "jobrun-";
    assert CRName(a)[|p|..] == Text.Lower(a) && CRName(b)[|p|..] == Text.Lower(b);
  }

  // ---------------------------------------------------------------- which moves are made

  /** The documented table of legal moves. */
  predicate Legally(before: JobStatus, after: JobStatus) {
    || ((before == JobQueued || before == JobDispatched || before == JobRunning) && (after == JobCancelled || after == JobSkipped))
    || (before == JobQueued && after == JobDispatched)
    || ((before == JobDispatched || before == JobRunning) && (after == JobRunning || after == JobSucceeded || after == JobFailed))
  }

  lemma TransitionTable(before: JobStatus, after: JobStatus)
    ensures CanTransitionJob(before, after) <==> Legally(before, after)
  {}

  /** Which jobs an observation moves against the table. */
  predicate Jumps(before: JobStatus, phase: Phase, after: JobStatus) {
    before == JobQueued && ((phase == PhaseRunning && after == JobRunning) || (phase == PhaseSucceeded && after == JobSucceeded)
                            || (phase == PhaseFailed && after == JobFailed))
  }

  /** An observation keeps to the table exactly unless it starts or ends a job that
      was never acknowledged as dispatched. */
  lemma ObservationMoves(s: Store, id: JobRunID, phase: Phase, now: Time)
    requires Valid(s) && id in s.jobs
    ensures ListedExist(s.runJobs, s.jobs.Keys, s.jobs[id].runId)
    ensures var before, after := s.jobs[id].status, ApplyObserved(s, id, phase, now).jobs[id].status;
            before != after ==> (Legally(before, after) <==> !Jumps(before, phase, after))
    ensures s.jobs[id].status == JobQueued && (phase == PhaseRunning || phase == PhaseSucceeded || phase == PhaseFailed) ==>
              Jumps(JobQueued, phase, ApplyObserved(s, id, phase, now).jobs[id].status)
  {
    ObserveEffect(s, id, phase, now);
  }

  // ---------------------------------------------------------------- cancel

  /** Cancelling closes exactly the open jobs of an open run, with the run. */
  lemma CancelEffect(s: Store, r: RunID, now: Time)
    requires Valid(s)
    ensures var t := CancelRun(s, r, now);
            if r in s.runs && (s.runs[r].status.RunQueued? || s.runs[r].status.RunRunning?) then
              && t.jobs.Keys == s.jobs.Keys
              && (forall id :: id in s.jobs && s.jobs[id].runId == r && !s.jobs[id].status.IsTerminal() ==>
                    t.jobs[id] == s.jobs[id].(status := JobCancelled, finishedAt := Some(now)) && id !in t.claimed)
              && (forall id :: id in s.jobs && (s.jobs[id].runId != r || s.jobs[id].status.IsTerminal()) ==> t.jobs[id] == s.jobs[id])
              && t.runs == s.runs[r := s.runs[r].(status := RunCancelled, finishedAt := Some(now))]
              && CancelOutcomeOf(s, r) == CancelDone
            else
              t == s && CancelOutcomeOf(s, r) == (if r !in s.runs then CancelUnknownRun
                                                  else if s.runs[r].status.RunCancelled? then CancelDone else CancelAlreadyTerminal)
  {
    if r in s.runs && !s.runs[r].status.IsTerminal() {
      assert ListOk(s.runJobs, s.jobs, r);
      forall id | id in s.jobs
        ensures id in Listed(s.runJobs, r) <==> s.jobs[id].runId == r
      {
        assert JobOk(s.runs.Keys, s.runJobs, s.jobs, id);
      }
    }
  }

  // ---------------------------------------------------------------- a further attempt

  /** A queued copy of the attempt before it, numbered one higher, created now. */
  predicate FollowsAs(orig: JobRecord, next: JobRecord, id: JobRunID, now: Time) {
    && next.id == id && next.runId == orig.runId && next.intent == orig.intent && next.attempt == orig.attempt + 1
    && next.createdAt == now && next.status == JobQueued && next.activeName == "" && next.activeUid == ""
    && next.dispatchedAt.None? && next.startedAt.None? && next.finishedAt.None? && next.collectedAt.None?
  }

  /** No later attempt of the key exists in the run. */
  ghost predicate IsNewest(s: Store, id: JobRunID) {
    id in s.jobs && forall j :: j in s.jobs && s.jobs[j].runId == s.jobs[id].runId && s.jobs[j].intent.jobKey == s.jobs[id].intent.jobKey ==>
      s.jobs[j].attempt <= s.jobs[id].attempt
  }

  /** Rerequesting a newest attempt of a committed run adds one queued attempt
      behind the others and queues the run again if it was closed. */
  ghost predicate AttemptMade(s: Store, t: Store, id: JobRunID, now: Time, newId: JobRunID)
    requires id in s.jobs
  {
    var r, k := s.jobs[id].runId, s.jobs[id].intent.jobKey;
    && newId in t.jobs && t.jobs == s.jobs[newId := t.jobs[newId]] && FollowsAs(s.jobs[id], t.jobs[newId], newId, now)
    && r in s.runJobs && t.runJobs == s.runJobs[r := s.runJobs[r] + [newId]]
    && HasKey(t.byJobKey, r, k) && t.byJobKey[r][k] == newId
    && (forall q, x :: (q != r || x != k) && HasKey(s.byJobKey, q, x) ==> HasKey(t.byJobKey, q, x) && t.byJobKey[q][x] == s.byJobKey[q][x])
    && r in s.runs && r in t.runs && t.runs == s.runs[r := t.runs[r]]
    && (if s.runs[r].status.IsTerminal() then t.runs[r] == s.runs[r].(status := RunQueued, finishedAt := None) else t.runs[r] == s.runs[r])
    && t.deliveries == s.deliveries && t.claimed == s.claimed
  }

  lemma RerequestEffect(s: Store, id: JobRunID, now: Time, newId: JobRunID)
    requires Valid(s) && id in s.jobs && s.jobs[id].runId in s.runs && newId !in s.jobs
    ensures var t := RerequestJob(s, id, now, newId);
            if IsNewest(s, id) then AttemptMade(s, t, id, now, newId) && RerequestOutcomeOf(s, id, newId) == Attempt(newId)
            else t == s && exists j :: IsAttempt(s.jobs, s.jobs[id].runId, s.jobs[id].intent.jobKey, s.jobs[id].attempt + 1, j)
                                       && RerequestOutcomeOf(s, id, newId) == Attempt(j)
  {
    NextIffOlder(s, id);
    if IsNewest(s, id) {
      MakesAttempt(s, id, now, newId);
    } else {
      var j := NextAttempt(s, s.jobs[id], Listed(s.runJobs, s.jobs[id].runId)).value;
      assert RerequestOutcomeOf(s, id, newId) == Attempt(j);
    }
  }

  /** The search finds a next attempt exactly of an attempt that is not the newest. */
  lemma NextIffOlder(s: Store, id: JobRunID)
    requires Valid(s) && id in s.jobs && s.jobs[id].runId in s.runs
    ensures var j, next := s.jobs[id], NextAttempt(s, s.jobs[id], Listed(s.runJobs, s.jobs[id].runId));
            && (IsNewest(s, id) <==> next.None?)
            && (next.Some? ==> IsAttempt(s.jobs, j.runId, j.intent.jobKey, j.attempt + 1, next.value) && s.jobs[next.value].id == next.value)
  {
    var orig := s.jobs[id];
    var next := NextAttempt(s, orig, Listed(s.runJobs, orig.runId));
    assert RunOk(s.runs, s.runJobs, orig.runId) && ListOk(s.runJobs, s.jobs, orig.runId);
    if next.None? {
      NewestWithoutNext(s, id);
      assert Ladder(s.jobs, orig.runId, orig.intent.jobKey, id);
    } else {
      assert JobOk(s.runs.Keys, s.runJobs, s.jobs, next.value);
    }
  }

  lemma MakesAttempt(s: Store, id: JobRunID, now: Time, newId: JobRunID)
    requires Shape(s) && id in s.jobs && s.jobs[id].runId in s.runs && newId !in s.jobs
    requires NextAttempt(s, s.jobs[id], Listed(s.runJobs, s.jobs[id].runId)).None?
    ensures AttemptMade(s, RerequestJob(s, id, now, newId), id, now, newId) && RerequestOutcomeOf(s, id, newId) == Attempt(newId)
  {
    assert RunOk(s.runs, s.runJobs, s.jobs[id].runId);
  }

  /** The new attempt queues behind every claimable job that is older than it. */
  lemma AttemptQueuesLast(s: Store, id: JobRunID, now: Time, newId: JobRunID, q: seq<JobRunID>, i: nat, k: nat)
    requires Valid(s) && IsNewest(s, id) && s.jobs[id].runId in s.runs && newId !in s.jobs
    requires var t := RerequestJob(s, id, now, newId); IsQueue(t.jobs, Candidates(t), q)
    requires i < |q| && k < |q| && q[i] == newId && q[k] in s.jobs && s.jobs[q[k]].createdAt < now
    ensures k < i
  {
    RerequestEffect(s, id, now, newId);
    var t := RerequestJob(s, id, now, newId);
    QueueOrder(t.jobs, Candidates(t), q, i, k);
  }

  lemma QueueOrder(jobs: Jobs, ids: set<JobRunID>, q: seq<JobRunID>, i: nat, k: nat)
    requires IsQueue(jobs, ids, q) && i < |q| && k < |q|
    ensures q[i] in jobs && q[k] in jobs && (i < k ==> jobs[q[i]].createdAt <= jobs[q[k]].createdAt)
  {}

  // ---------------------------------------------------------------- creation

  /** A queued first attempt of this job, created now. */
  predicate FirstOf(j: JobRecord, id: JobRunID, r: RunID, intent: JobIntent, now: Time) {
    && j.id == id && j.runId == r && j.intent == intent && j.attempt == 1 && j.createdAt == now && j.status == JobQueued
    && j.activeName == "" && j.activeUid == ""
    && j.dispatchedAt.None? && j.startedAt.None? && j.finishedAt.None? && j.collectedAt.None?
  }

  /** A queued run of the delivery, with the event it was seeded with. */
  predicate FreshlyMade(run: RunRecord, seed: RunSeed, now: Time, r: RunID) {
    && run.id == r && run.event == seed.event && run.delivery == seed.delivery
    && run.status == RunQueued && run.createdAt == now && run.finishedAt.None?
  }

  /** One first attempt per job, listed in order and indexed by key. */
  ghost predicate JobsListed(t: Store, seed: RunSeed, now: Time, r: RunID, ids: seq<JobRunID>) {
    && |ids| == |seed.jobs| && r in t.runJobs && t.runJobs[r] == ids
    && (forall i :: 0 <= i < |ids| ==> ids[i] in t.jobs && FirstOf(t.jobs[ids[i]], ids[i], r, seed.jobs[i], now))
    && (forall i :: 0 <= i < |ids| ==> HasKey(t.byJobKey, r, seed.jobs[i].jobKey) && t.byJobKey[r][seed.jobs[i].jobKey] == ids[i])
  }

  /** Every other job and run is as it was. */
  ghost predicate OthersKept(s: Store, t: Store, r: RunID, ids: seq<JobRunID>) {
    && (forall id :: id in t.jobs <==> id in s.jobs || id in ids)
    && (forall id :: id in s.jobs ==> t.jobs[id] == s.jobs[id])
    && t.runs.Keys == s.runs.Keys + {r} && (forall q :: q in s.runs && q != r ==> t.runs[q] == s.runs[q]) && t.claimed == s.claimed
  }

  /** The run of the delivery exists, with its jobs. */
  ghost predicate RunMade(s: Store, t: Store, seed: RunSeed, now: Time, r: RunID, ids: seq<JobRunID>) {
    && r in t.runs && FreshlyMade(t.runs[r], seed, now, r)
    && JobsListed(t, seed, now, r, ids) && OthersKept(s, t, r, ids)
    && seed.delivery in t.deliveries && t.deliveries[seed.delivery].runId == Some(r)
  }

  lemma JobsMade(s: Store, seed: RunSeed, now: Time, r: RunID, ids: seq<JobRunID>)
    requires FreshIds(s, seed, r, ids)
    ensures var jobs := AddJobs(s.jobs, seed.jobs, ids, r, now, |seed.jobs|);
            && (forall i :: 0 <= i < |ids| ==> ids[i] in jobs && FirstOf(jobs[ids[i]], ids[i], r, seed.jobs[i], now))
            && (forall id :: id in jobs <==> id in s.jobs || id in ids)
            && (forall id :: id in s.jobs ==> jobs[id] == s.jobs[id])
  {
    AddJobsMeaning(s.jobs, seed.jobs, ids, r, now, |seed.jobs|);
    assert ids[..|ids|] == ids;
  }

  lemma MakesRun(s: Store, seed: RunSeed, now: Time, r: RunID, ids: seq<JobRunID>)
    requires FreshIds(s, seed, r, ids) && Writes(s, seed) && DistinctKeys(seed.jobs)
    ensures RunMade(s, CreateRun(s, seed, now, r, ids), seed, now, r, ids)
  {
    DistinctPrefixMeaning(seed.jobs, |seed.jobs|);
    JobsMade(s, seed, now, r, ids);
    var u := s.(jobs := AddJobs(s.jobs, seed.jobs, ids, r, now, |seed.jobs|));
    CommitIs(s, u, seed, now, r, ids);
    CommitMakes(s, u, seed, now, r, ids);
  }

  lemma CommitMakes(s: Store, u: Store, seed: RunSeed, now: Time, r: RunID, ids: seq<JobRunID>)
    requires |ids| == |seed.jobs| && u == s.(jobs := u.jobs) && seed.delivery in s.deliveries && DistinctKeys(seed.jobs) && r !in s.runs
    requires forall i :: 0 <= i < |ids| ==> ids[i] in u.jobs && FirstOf(u.jobs[ids[i]], ids[i], r, seed.jobs[i], now)
    requires forall id :: id in u.jobs <==> id in s.jobs || id in ids
    requires forall id :: id in s.jobs ==> u.jobs[id] == s.jobs[id]
    ensures RunMade(s, Committed(u, seed, now, r, ids), seed, now, r, ids)
  {
    CommitLists(u, seed, now, r, ids);
  }

  lemma CommitLists(u: Store, seed: RunSeed, now: Time, r: RunID, ids: seq<JobRunID>)
    requires |ids| == |seed.jobs| && seed.delivery in u.deliveries && DistinctKeys(seed.jobs)
    requires forall i :: 0 <= i < |ids| ==> ids[i] in u.jobs && FirstOf(u.jobs[ids[i]], ids[i], r, seed.jobs[i], now)
    ensures JobsListed(Committed(u, seed, now, r, ids), seed, now, r, ids)
  {
    KeyIndexMeaning(seed.jobs, ids, |ids|);
  }

  /** A run is created exactly for a recorded delivery without one and a non-empty
      list of jobs with distinct keys. */
  lemma CreateMakesRunIff(s: Store, seed: RunSeed, now: Time, r: RunID, ids: seq<JobRunID>)
    requires FreshIds(s, seed, r, ids)
    ensures var t, out := CreateRun(s, seed, now, r, ids), CreateOutcomeOf(s, seed, now, r);
            if seed.delivery in s.deliveries && s.deliveries[seed.delivery].runId.None? && seed.jobs != [] && DistinctKeys(seed.jobs) then
              RunMade(s, t, seed, now, r, ids) && out == Created(t.runs[r])
            else t.runs == s.runs && t.deliveries == s.deliveries && !out.Created?
  {
    DistinctPrefixMeaning(seed.jobs, |seed.jobs|);
    if Writes(s, seed) && DistinctKeys(seed.jobs) { MakesRun(s, seed, now, r, ids); }
  }

  /** Every refusal has its one reason. */
  lemma CreateRefusals(s: Store, seed: RunSeed, now: Time, r: RunID)
    requires Valid(s)
    ensures var out := CreateOutcomeOf(s, seed, now, r);
            && (out.NotRecorded? <==> seed.delivery !in s.deliveries)
            && (out.Existing? <==> seed.delivery in s.deliveries && s.deliveries[seed.delivery].runId.Some?)
            && (out.Existing? ==> s.deliveries[seed.delivery].runId == Some(out.run.id))
            && !out.RunMissing?
            && (out.DuplicateKey? ==> exists i, j :: 0 <= i < j < |seed.jobs| && seed.jobs[i].jobKey == seed.jobs[j].jobKey == out.key
                                                     && forall a, b :: 0 <= a < b < j ==> seed.jobs[a].jobKey != seed.jobs[b].jobKey)
            && (out.NoJobs? ==> seed.jobs == [])
  {
    DistinctPrefixMeaning(seed.jobs, |seed.jobs|);
    if seed.delivery in s.deliveries && s.deliveries[seed.delivery].runId.Some? {
      assert RunOk(s.runs, s.runJobs, s.deliveries[seed.delivery].runId.value);
    }
  }

  // ---------------------------------------------------------------- receipts over histories

  predicate Receives(op: Op, k: DeliveryKey) {
    op.OpRecord? && op.delivery.key == k
  }

  /** Position i is the first receipt of the key. */
  predicate FirstReceipt(ops: seq<Op>, k: DeliveryKey, i: nat) {
    i < |ops| && Receives(ops[i], k) && forall j :: 0 <= j < i ==> !Receives(ops[j], k)
  }

  lemma OnlyRecordAdds(s: Store, op: Op, k: DeliveryKey)
    requires Valid(s) && Legal(s, op) && k !in s.deliveries && !Receives(op, k)
    ensures k !in Step(s, op).deliveries
  {
    match op
    case OpClaim(q, clock) =>
      QueueIsQueued(s, q);
      ClaimDeliveries(s, q, clock);
    case OpCreate(seed, now, run, ids) =>
    case OpObserve(id, phase, now) => ObserveDeliveries(s, id, phase, now);
    case _ =>
  }

  lemma ObserveDeliveries(s: Store, id: JobRunID, phase: Phase, now: Time)
    requires Valid(s)
    ensures id in s.jobs ==> ListedExist(s.runJobs, s.jobs.Keys, s.jobs[id].runId)
    ensures ApplyObserved(s, id, phase, now).deliveries == s.deliveries
  {
    ObserveKeeps(s, id, phase, now);
  }

  lemma {:induction false} ClaimDeliveries(s: Store, q: seq<JobRunID>, clock: Clock)
    requires Valid(s) && Queued(s.jobs, q)
    ensures Walkable(s, q) && ClaimFrom(s, q, clock).0.deliveries == s.deliveries
    decreases |q|
  {
    WalkAllowed(s, q);
    if q != [] {
      if DependencyState(s, q[0]).DepsBlocked? {
        ClaimDeliveries(s, q[1..], clock);
      } else if DependencyState(s, q[0]).DepsFailed? && s.jobs[q[0]].intent.condition == "" {
        SkipKeeps(s, q[0], clock(q[0]));
        SkipLeavesRest(s, q, clock(q[0]));
        ClaimDeliveries(Skip(s, q[0], clock(q[0])), q[1..], clock);
      }
    }
  }

  /** Whatever comes between and after, a delivery keeps the event, the payload and
      the time of its first receipt. */
  lemma {:induction false} FirstReceiptKept(s: Store, ops: seq<Op>, t: Store, k: DeliveryKey, i: nat)
    requires Valid(s) && Leads(s, ops, t) && k !in s.deliveries && FirstReceipt(ops, k, i)
    ensures k in t.deliveries && t.deliveries[k].key == k
    ensures t.deliveries[k].event == ops[i].delivery.event && t.deliveries[k].payload == ops[i].delivery.payload
    ensures t.deliveries[k].receivedAt == ops[i].now
    decreases |ops|
  {
    var u := Step(s, ops[0]);
    if i == 0 {
      HistoryKeeps(u, ops[1..], t);
      assert DeliveryGrows(u.deliveries[k], t.deliveries[k]);
    } else {
      OnlyRecordAdds(s, ops[0], k);
      assert forall j :: 0 <= j < |ops| - 1 ==> ops[1..][j] == ops[j + 1];
      FirstReceiptKept(u, ops[1..], t, k, i - 1);
    }
  }
}
