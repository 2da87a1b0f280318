/** What every store operation keeps, for every call sequence. */
module StoreInvariants {
  import opened Prelude
  import opened RunModel
  import opened StoreSpec

  type Runs = map<RunID, RunRecord>
  type Keys = map<RunID, map<string, JobRunID>>
  type Deliveries = map<DeliveryKey, DeliveryRecord>

  // ---------------------------------------------------------------- the invariant

  /** The list of a run names distinct jobs of that run. */
  predicate ListOk(lists: Lists, jobs: Jobs, r: RunID) {
    && r in lists
    && (forall i :: 0 <= i < |lists[r]| ==> lists[r][i] in jobs && jobs[lists[r][i]].runId == r)
    && (forall i, j :: 0 <= i < j < |lists[r]| ==> lists[r][i] != lists[r][j])
  }

  /** A job of a committed run is listed there. */
  predicate JobOk(runs: set<RunID>, lists: Lists, jobs: Jobs, id: JobRunID) {
    && id in jobs && jobs[id].id == id && jobs[id].attempt >= 1
    && (jobs[id].runId in runs ==> id in Listed(lists, jobs[id].runId))
  }

  predicate RunOk(runs: Runs, lists: Lists, r: RunID) {
    r in runs && runs[r].id == r && Listed(lists, r) != []
  }

  /** Runs, their job lists and their key indexes agree; jobs know their run. */
  ghost predicate Shape(s: Store) {
    && s.byJobKey.Keys == s.runs.Keys
    && s.runs.Keys <= s.runJobs.Keys
    && (forall r {:trigger ListOk(s.runJobs, s.jobs, r)} :: r in s.runJobs ==> ListOk(s.runJobs, s.jobs, r))
    && (forall id {:trigger JobOk(s.runs.Keys, s.runJobs, s.jobs, id)} ::
          id in s.jobs ==> JobOk(s.runs.Keys, s.runJobs, s.jobs, id))
    && (forall r {:trigger RunOk(s.runs, s.runJobs, r)} :: r in s.runs ==> RunOk(s.runs, s.runJobs, r))
  }

  /** id is attempt n of key k in run r. */
  predicate IsAttempt(jobs: Jobs, r: RunID, k: string, n: nat, id: JobRunID) {
    id in jobs && jobs[id].runId == r && jobs[id].intent.jobKey == k && jobs[id].attempt == n
  }

  ghost predicate HasAttempt(jobs: Jobs, r: RunID, k: string, n: nat) {
    exists id :: IsAttempt(jobs, r, k, n, id)
  }

  /** The attempts of key k in run r are exactly 1..n, each once; top is attempt n. */
  ghost predicate Ladder(jobs: Jobs, r: RunID, k: string, top: JobRunID) {
    && top in jobs && jobs[top].runId == r && jobs[top].intent.jobKey == k
    && (forall n: nat {:trigger HasAttempt(jobs, r, k, n)} :: 1 <= n <= jobs[top].attempt ==> HasAttempt(jobs, r, k, n))
    && (forall id {:trigger jobs[id].attempt} ::
          id in jobs && jobs[id].runId == r && jobs[id].intent.jobKey == k ==> jobs[id].attempt <= jobs[top].attempt)
    && (forall a, b {:trigger jobs[a].attempt, jobs[b].attempt} ::
          (a in jobs && jobs[a].runId == r && jobs[a].intent.jobKey == k
           && b in jobs && jobs[b].runId == r && jobs[b].intent.jobKey == k
           && jobs[a].attempt == jobs[b].attempt) ==> a == b)
  }

  predicate Keyed(jobs: Jobs, keys: Keys, id: JobRunID) {
    id in jobs && (jobs[id].runId in keys ==> jobs[id].intent.jobKey in keys[jobs[id].runId])
  }

  predicate HasKey(keys: Keys, r: RunID, k: string) {
    r in keys && k in keys[r]
  }

  /** The key index of every run points at the newest of an unbroken ladder of attempts. */
  ghost predicate Index(jobs: Jobs, keys: Keys) {
    && (forall r, k {:trigger HasKey(keys, r, k)} :: HasKey(keys, r, k) ==> Ladder(jobs, r, k, keys[r][k]))
    && (forall id {:trigger Keyed(jobs, keys, id)} :: id in jobs ==> Keyed(jobs, keys, id))
  }

  predicate JobClosed(j: JobRecord) {
    && (j.finishedAt.Some? <==> j.status.IsTerminal())
    && (j.status.JobDispatched? ==> j.dispatchedAt.Some?)
    && (j.status.JobRunning? ==> j.startedAt.Some?)
  }

  /** A run is closed exactly when all its attempts are, and then some attempt
      bears its verdict out; it is running when an attempt is, and only after one
      has started. */
  predicate RunClosed(run: RunRecord, sts: seq<JobStatus>) {
    && (run.status.IsTerminal() <==> AllTerminal(sts))
    && (run.finishedAt.Some? <==> run.status.IsTerminal())
    && (run.status.RunSucceeded? ==> SucceededOrSkipped(sts))
    && (run.status.RunFailed? ==> JobFailed in sts)
    && (run.status.RunCancelled? ==> JobCancelled in sts)
    && (run.status.RunRunning? ==> Started(sts))
    && (JobRunning in sts ==> run.status.RunRunning?)
  }

  predicate Started(sts: seq<JobStatus>) {
    exists i :: 0 <= i < |sts| && !sts[i].JobQueued?
  }

  predicate RunStatusOk(runs: Runs, lists: Lists, jobs: Jobs, r: RunID) {
    r in runs && ListOk(lists, jobs, r) && RunClosed(runs[r], Statuses(jobs, lists[r]))
  }

  ghost predicate Closed(s: Store) {
    && (forall id {:trigger JobClosed(s.jobs[id])} :: id in s.jobs ==> JobClosed(s.jobs[id]))
    && (forall r {:trigger RunStatusOk(s.runs, s.runJobs, s.jobs, r)} ::
          r in s.runs ==> RunStatusOk(s.runs, s.runJobs, s.jobs, r))
  }

  /** Deliveries and runs are bound one to one. */
  ghost predicate Bound(ds: Deliveries, runs: Runs) {
    && (forall k :: k in ds ==> ds[k].key == k)
    && (forall k :: k in ds && ds[k].runId.Some? ==> ds[k].runId.value in runs && runs[ds[k].runId.value].delivery == k)
    && (forall r :: r in runs ==> runs[r].delivery in ds && ds[runs[r].delivery].runId == Some(r))
  }

  ghost predicate Valid(s: Store) {
    && Shape(s) && Index(s.jobs, s.byJobKey) && Closed(s) && Bound(s.deliveries, s.runs)
    && s.claimed <= s.jobs.Keys
  }

  // ---------------------------------------------------------------- growth

  predicate JobGrows(a: JobRecord, b: JobRecord) {
    && a.id == b.id && a.runId == b.runId && a.intent == b.intent && a.attempt == b.attempt && a.createdAt == b.createdAt
    && a.status.Rank() <= b.status.Rank()
    && (a.status.IsTerminal() ==> b.status == a.status && b.finishedAt == a.finishedAt)
    && (a.collectedAt.Some? ==> b.collectedAt == a.collectedAt)
  }

  predicate DeliveryGrows(a: DeliveryRecord, b: DeliveryRecord) {
    && a.key == b.key && a.event == b.event && a.payload == b.payload && a.receivedAt == b.receivedAt
    && (a.runId.Some? ==> b.runId == a.runId)
  }

  predicate RunGrows(a: RunRecord, b: RunRecord) {
    a.id == b.id && a.event == b.event && a.delivery == b.delivery && a.createdAt == b.createdAt
  }

  ghost predicate JobsGrow(a: Jobs, b: Jobs) {
    forall id :: id in a ==> id in b && JobGrows(a[id], b[id])
  }

  ghost predicate RunsGrow(a: Runs, b: Runs) {
    forall r :: r in a ==> r in b && RunGrows(a[r], b[r])
  }

  ghost predicate DeliveriesGrow(a: Deliveries, b: Deliveries) {
    forall k :: k in a ==> k in b && DeliveryGrows(a[k], b[k])
  }

  ghost predicate ListsGrow(a: Lists, b: Lists) {
    forall r :: r in a ==> r in b && a[r] <= b[r]
  }

  /** Nothing is forgotten or rewritten: receipts, bindings and job identities
      persist, ranks never fall, terminal jobs are frozen. */
  ghost predicate Grows(s: Store, t: Store) {
    && DeliveriesGrow(s.deliveries, t.deliveries)
    && RunsGrow(s.runs, t.runs)
    && JobsGrow(s.jobs, t.jobs)
    && ListsGrow(s.runJobs, t.runJobs)
  }

  lemma GrowsReflexive(s: Store)
    ensures Grows(s, s)
  {
    assert forall r :: r in s.runJobs ==> s.runJobs[r] <= s.runJobs[r];
  }

  lemma GrowsTransitive(s: Store, t: Store, u: Store)
    requires Grows(s, t) && Grows(t, u)
    ensures Grows(s, u)
  {
    forall r | r in s.runJobs
      ensures r in u.runJobs && s.runJobs[r] <= u.runJobs[r]
    {
      assert s.runJobs[r] <= t.runJobs[r] <= u.runJobs[r];
    }
  }

  // ---------------------------------------------------------------- updates that keep the shape

  /** t differs from s only in job progress fields and run statuses. */
  ghost predicate SameShape(s: Store, t: Store) {
    && t.deliveries == s.deliveries && t.runJobs == s.runJobs && t.byJobKey == s.byJobKey
    && t.runs.Keys == s.runs.Keys && t.jobs.Keys == s.jobs.Keys
    && RunsGrow(s.runs, t.runs)
    && JobsGrow(s.jobs, t.jobs)
  }

  lemma LadderKept(a: Jobs, b: Jobs, r: RunID, k: string, top: JobRunID)
    requires Ladder(a, r, k, top) && a.Keys == b.Keys && JobsGrow(a, b)
    ensures Ladder(b, r, k, top)
  {
    forall n: nat | 1 <= n <= b[top].attempt
      ensures HasAttempt(b, r, k, n)
    {
      assert HasAttempt(a, r, k, n);
      var id :| IsAttempt(a, r, k, n, id);
      assert IsAttempt(b, r, k, n, id);
    }
    forall x, y | x in b && b[x].runId == r && b[x].intent.jobKey == k
      && y in b && b[y].runId == r && b[y].intent.jobKey == k && b[x].attempt == b[y].attempt
      ensures x == y
    {
      assert a[x].attempt == a[y].attempt;
    }
    forall id | id in b && b[id].runId == r && b[id].intent.jobKey == k
      ensures b[id].attempt <= b[top].attempt
    {
      assert a[id].attempt <= a[top].attempt;
    }
  }

  lemma IndexKept(a: Jobs, b: Jobs, keys: Keys)
    requires Index(a, keys) && a.Keys == b.Keys && JobsGrow(a, b)
    ensures Index(b, keys)
  {
    forall r, k | HasKey(keys, r, k)
      ensures Ladder(b, r, k, keys[r][k])
    {
      LadderKept(a, b, r, k, keys[r][k]);
    }
    forall id | id in b
      ensures Keyed(b, keys, id)
    {
      assert Keyed(a, keys, id);
    }
  }

  lemma ShapeKept(s: Store, t: Store)
    requires Shape(s) && SameShape(s, t)
    ensures Shape(t)
  {
    forall r | r in t.runJobs
      ensures ListOk(t.runJobs, t.jobs, r)
    {
      assert ListOk(s.runJobs, s.jobs, r);
    }
    forall id | id in t.jobs
      ensures JobOk(t.runs.Keys, t.runJobs, t.jobs, id)
    {
      assert JobOk(s.runs.Keys, s.runJobs, s.jobs, id);
    }
    forall r | r in t.runs
      ensures RunOk(t.runs, t.runJobs, r)
    {
      assert RunOk(s.runs, s.runJobs, r);
    }
  }

  lemma BoundKept(ds: Deliveries, a: Runs, b: Runs)
    requires Bound(ds, a) && a.Keys == b.Keys && RunsGrow(a, b)
    ensures Bound(ds, b)
  {}

  lemma SameShapeKeeps(s: Store, t: Store)
    requires Shape(s) && Index(s.jobs, s.byJobKey) && Bound(s.deliveries, s.runs) && SameShape(s, t)
    ensures Shape(t) && Index(t.jobs, t.byJobKey) && Bound(t.deliveries, t.runs) && Grows(s, t)
  {
    ShapeKept(s, t);
    IndexKept(s.jobs, t.jobs, s.byJobKey);
    BoundKept(s.deliveries, s.runs, t.runs);
  }

  function Touch(s: Store, id: JobRunID, j: JobRecord): Store {
    s.(jobs := s.jobs[id := j])
  }

  /** A run with an open job is open. */
  lemma OpenJobOpenRun(s: Store, id: JobRunID)
    requires Shape(s) && Closed(s)
    requires id in s.jobs && !s.jobs[id].status.IsTerminal() && s.jobs[id].runId in s.runs
    ensures !s.runs[s.jobs[id].runId].status.IsTerminal()
    ensures s.runs[s.jobs[id].runId].finishedAt.None?
  {
    var r := s.jobs[id].runId;
    assert JobOk(s.runs.Keys, s.runJobs, s.jobs, id);
    assert RunStatusOk(s.runs, s.runJobs, s.jobs, r);
    var ids := s.runJobs[r];
    var i :| 0 <= i < |ids| && ids[i] == id;
    assert !Statuses(s.jobs, ids)[i].IsTerminal();
  }

  /** Changing one job leaves the verdict of the other runs alone. */
  lemma OtherRun(s: Store, t: Store, id: JobRunID, r: RunID)
    requires id in s.jobs && s.jobs[id].runId != r && t.jobs.Keys == s.jobs.Keys
    requires forall q :: q in s.jobs && q != id ==> t.jobs[q] == s.jobs[q]
    requires RunStatusOk(s.runs, s.runJobs, s.jobs, r)
    requires r in t.runs && t.runs[r] == s.runs[r] && t.runJobs == s.runJobs
    ensures RunStatusOk(t.runs, t.runJobs, t.jobs, r)
  {
    var ids := s.runJobs[r];
    assert forall i :: 0 <= i < |ids| ==> ids[i] in s.jobs && s.jobs[ids[i]].runId == r && t.jobs[ids[i]] == s.jobs[ids[i]];
    assert Statuses(t.jobs, ids) == Statuses(s.jobs, ids);
  }

  /** Refreshing an open run closes it exactly when its last job is closed. */
  lemma RefreshCloses(s: Store, r: RunID, now: Time)
    requires r in s.runs && ListOk(s.runJobs, s.jobs, r) && s.runJobs[r] != []
    requires !s.runs[r].status.IsTerminal() && s.runs[r].finishedAt.None?
    requires s.runs[r].status.RunRunning? ==> Started(Statuses(s.jobs, s.runJobs[r]))
    ensures RunStatusOk(Refresh(s, r, now).runs, s.runJobs, s.jobs, r)
  {
    var sts := Statuses(s.jobs, s.runJobs[r]);
    AggregateTerminal(sts);
    AggregateVerdict(sts);
  }

  /** What a refresh can touch: the status and finish time of its own run. */
  lemma RefreshFrame(s: Store, r: RunID, now: Time)
    requires ListedExist(s.runJobs, s.jobs.Keys, r)
    ensures var t := Refresh(s, r, now);
            && t == s.(runs := t.runs) && t.runs.Keys == s.runs.Keys && RunsGrow(s.runs, t.runs)
            && (forall q :: q in s.runs && q != r ==> t.runs[q] == s.runs[q])
            && (r in s.runs && s.runs[r].status.IsTerminal() ==> t.runs == s.runs)
  {}

  lemma JobsClosed(s: Store, t: Store, id: JobRunID)
    requires Closed(s) && t.jobs.Keys == s.jobs.Keys && id in t.jobs && JobClosed(t.jobs[id])
    requires forall q :: q in s.jobs && q != id ==> t.jobs[q] == s.jobs[q]
    ensures forall q :: q in t.jobs ==> JobClosed(t.jobs[q])
  {
    forall q | q in t.jobs
      ensures JobClosed(t.jobs[q])
    {
      assert JobClosed(s.jobs[q]);
    }
  }

  /** A status of one job and the record of its run changed, and the run is right again. */
  lemma OneRunMoved(s: Store, t: Store, id: JobRunID)
    requires Valid(s) && SameShape(s, t) && id in s.jobs && JobClosed(t.jobs[id])
    requires forall q :: q in s.jobs && q != id ==> t.jobs[q] == s.jobs[q]
    requires forall q :: q in s.runs && q != s.jobs[id].runId ==> t.runs[q] == s.runs[q]
    requires s.jobs[id].runId in s.runs ==> RunStatusOk(t.runs, t.runJobs, t.jobs, s.jobs[id].runId)
    requires t.claimed <= s.claimed
    ensures Valid(t) && Grows(s, t)
  {
    SameShapeKeeps(s, t);
    JobsClosed(s, t, id);
    forall q | q in t.runs && q != s.jobs[id].runId
      ensures RunStatusOk(t.runs, t.runJobs, t.jobs, q)
    {
      assert RunStatusOk(s.runs, s.runJobs, s.jobs, q);
      OtherRun(s, t, id, q);
    }
  }

  lemma StartedStays(s: Store, u: Store, r: RunID)
    requires r in s.runs && RunStatusOk(s.runs, s.runJobs, s.jobs, r) && ListOk(u.runJobs, u.jobs, r)
    requires u.runJobs == s.runJobs && JobsGrow(s.jobs, u.jobs)
    ensures s.runs[r].status.RunRunning? ==> Started(Statuses(u.jobs, u.runJobs[r]))
  {
    var ids := s.runJobs[r];
    if s.runs[r].status.RunRunning? {
      var i :| 0 <= i < |ids| && !Statuses(s.jobs, ids)[i].JobQueued?;
      assert JobGrows(s.jobs[ids[i]], u.jobs[ids[i]]);
      assert !Statuses(u.jobs, ids)[i].JobQueued?;
    }
  }

  /** Moving one open job forward and refreshing its run. */
  lemma TouchRefresh(s: Store, id: JobRunID, j: JobRecord, now: Time)
    requires Valid(s) && id in s.jobs && !s.jobs[id].status.IsTerminal()
    requires JobGrows(s.jobs[id], j) && JobClosed(j)
    ensures ListedExist(s.runJobs, Touch(s, id, j).jobs.Keys, s.jobs[id].runId)
    ensures var t := Refresh(Touch(s, id, j), s.jobs[id].runId, now);
            Valid(t) && SameShape(s, t) && Grows(s, t)
  {
    var u := Touch(s, id, j);
    var r := s.jobs[id].runId;
    ShapeKept(s, u);
    assert r in u.runJobs ==> ListOk(u.runJobs, u.jobs, r);
    RefreshFrame(u, r, now);
    var t := Refresh(u, r, now);
    if r in s.runs {
      OpenJobOpenRun(s, id);
      assert RunOk(u.runs, u.runJobs, r);
      StartedStays(s, u, r);
      RefreshCloses(u, r, now);
    }
    OneRunMoved(s, t, id);
  }

  /** Moving one open job to another open status, or a job without a status
      change, without a refresh. */
  lemma TouchOpen(s: Store, id: JobRunID, j: JobRecord)
    requires Valid(s) && id in s.jobs && JobGrows(s.jobs[id], j) && JobClosed(j)
    requires j.status.IsTerminal() || j.status.JobRunning? ==> j.status == s.jobs[id].status
    ensures Valid(Touch(s, id, j)) && Grows(s, Touch(s, id, j))
  {
    var t := Touch(s, id, j);
    ShapeKept(s, t);
    if s.jobs[id].runId in s.runs { TouchedRun(s, id, j); }
    OneRunMoved(s, t, id);
  }

  lemma TouchedRun(s: Store, id: JobRunID, j: JobRecord)
    requires Valid(s) && id in s.jobs && s.jobs[id].runId in s.runs && JobGrows(s.jobs[id], j)
    requires j.status.IsTerminal() || j.status.JobRunning? ==> j.status == s.jobs[id].status
    ensures RunStatusOk(s.runs, s.runJobs, Touch(s, id, j).jobs, s.jobs[id].runId)
  {
    var jobs, r := Touch(s, id, j).jobs, s.jobs[id].runId;
    assert RunStatusOk(s.runs, s.runJobs, s.jobs, r) && ListOk(s.runJobs, s.jobs, r);
    var ids := s.runJobs[r];
    if s.jobs[id].status.IsTerminal() {
      assert Statuses(jobs, ids) == Statuses(s.jobs, ids);
    } else {
      OpenJobOpenRun(s, id);
      assert JobOk(s.runs.Keys, s.runJobs, s.jobs, id);
      var i :| 0 <= i < |ids| && ids[i] == id;
      assert !Statuses(jobs, ids)[i].IsTerminal();
      StartedStays(s, Touch(s, id, j), r);
      StillRunning(s.jobs, jobs, ids);
    }
  }

  /** No attempt began to run, so the run need not have. */
  lemma StillRunning(a: Jobs, b: Jobs, ids: seq<JobRunID>)
    requires forall i :: 0 <= i < |ids| ==> ids[i] in a && ids[i] in b && (b[ids[i]].status.JobRunning? ==> a[ids[i]].status.JobRunning?)
    ensures JobRunning in Statuses(b, ids) ==> JobRunning in Statuses(a, ids)
  {
    if JobRunning in Statuses(b, ids) {
      var i :| 0 <= i < |ids| && Statuses(b, ids)[i] == JobRunning;
      assert Statuses(a, ids)[i] == JobRunning;
    }
  }

  // ---------------------------------------------------------------- one lemma per operation

  lemma RecordKeeps(s: Store, d: Delivery, now: Time)
    requires Valid(s)
    ensures Valid(RecordDelivery(s, d, now)) && Grows(s, RecordDelivery(s, d, now))
  {
    var t := RecordDelivery(s, d, now);
    assert Bound(t.deliveries, t.runs) && DeliveriesGrow(s.deliveries, t.deliveries);
    assert t == s.(deliveries := t.deliveries);
    OnlyDeliveries(s, t.deliveries);
  }

  lemma OnlyDeliveries(s: Store, ds: Deliveries)
    requires Valid(s) && Bound(ds, s.runs) && DeliveriesGrow(s.deliveries, ds)
    ensures Valid(s.(deliveries := ds)) && Grows(s, s.(deliveries := ds))
  {}

  lemma ReleaseKeeps(s: Store, id: JobRunID)
    requires Valid(s)
    ensures Valid(ReleaseClaim(s, id)) && Grows(s, ReleaseClaim(s, id))
  {}

  lemma AckKeeps(s: Store, id: JobRunID, obj: ActiveObject, now: Time)
    requires Valid(s)
    ensures Valid(AckDispatched(s, id, obj, now)) && Grows(s, AckDispatched(s, id, obj, now))
  {
    if AckOutcomeOf(s, id, obj).Acked? {
      assert JobClosed(s.jobs[id]);
      TouchOpen(s, id, s.jobs[id].(status := JobDispatched, activeName := obj.name,
                                   activeUid := obj.uid, dispatchedAt := Some(now)));
    }
  }

  lemma MarkKeeps(s: Store, id: JobRunID, now: Time)
    requires Valid(s)
    ensures Valid(MarkCollected(s, id, now)) && Grows(s, MarkCollected(s, id, now))
  {
    if id in s.jobs && s.jobs[id].collectedAt.None? {
      assert JobClosed(s.jobs[id]);
      TouchOpen(s, id, s.jobs[id].(collectedAt := Some(now)));
    }
  }

  lemma RefreshKeeps(s: Store, r: RunID, now: Time)
    requires Valid(s)
    ensures ListedExist(s.runJobs, s.jobs.Keys, r)
    ensures Valid(Refresh(s, r, now)) && SameShape(s, Refresh(s, r, now)) && Grows(s, Refresh(s, r, now))
  {
    assert r in s.runJobs ==> ListOk(s.runJobs, s.jobs, r);
    RefreshFrame(s, r, now);
    var t := Refresh(s, r, now);
    SameShapeKeeps(s, t);
    if r in s.runs {
      assert RunStatusOk(s.runs, s.runJobs, s.jobs, r);
      assert RunOk(s.runs, s.runJobs, r);
      if !s.runs[r].status.IsTerminal() { RefreshCloses(s, r, now); }
      assert RunStatusOk(t.runs, t.runJobs, t.jobs, r);
    }
    ClosedFramed(s, t, r);
  }

  lemma ClosedFramed(s: Store, t: Store, r: RunID)
    requires Closed(s) && t == s.(runs := t.runs) && t.runs.Keys == s.runs.Keys
    requires forall q :: q in s.runs && q != r ==> t.runs[q] == s.runs[q]
    requires r in t.runs ==> RunStatusOk(t.runs, t.runJobs, t.jobs, r)
    ensures Closed(t)
  {
    forall q | q in t.runs
      ensures RunStatusOk(t.runs, t.runJobs, t.jobs, q)
    {
      assert RunStatusOk(s.runs, s.runJobs, s.jobs, q);
    }
  }

  lemma ObserveKeeps(s: Store, id: JobRunID, phase: Phase, now: Time)
    requires Valid(s)
    ensures id in s.jobs ==> ListedExist(s.runJobs, s.jobs.Keys, s.jobs[id].runId)
    ensures Valid(ApplyObserved(s, id, phase, now)) && SameShape(s, ApplyObserved(s, id, phase, now))
    ensures Grows(s, ApplyObserved(s, id, phase, now))
  {
    if id in s.jobs {
      RefreshKeeps(s, s.jobs[id].runId, now);
      if Accepts(s.jobs[id], phase) {
        ObserveMoves(s, id, phase, now);
      } else {
        GrowsReflexive(s);
      }
    } else {
      GrowsReflexive(s);
    }
  }

  /** The observation moves the job. */
  predicate Accepts(j: JobRecord, phase: Phase) {
    && !j.status.IsTerminal() && JobStatusFromPhase(phase).Some?
    && CanAdvanceJob(j.status, JobStatusFromPhase(phase).value)
  }

  lemma ObserveMoves(s: Store, id: JobRunID, phase: Phase, now: Time)
    requires Valid(s) && id in s.jobs && ListedExist(s.runJobs, s.jobs.Keys, s.jobs[id].runId) && Accepts(s.jobs[id], phase)
    ensures var t := ApplyObserved(s, id, phase, now); Valid(t) && SameShape(s, t) && Grows(s, t)
  {
    ObservedGrows(s, id, phase, now);
    TouchRefresh(s, id, Observed(s.jobs[id], JobStatusFromPhase(phase).value, now), now);
  }

  lemma ObservedGrows(s: Store, id: JobRunID, phase: Phase, now: Time)
    requires Valid(s) && id in s.jobs && !s.jobs[id].status.IsTerminal() && JobStatusFromPhase(phase).Some?
    requires CanAdvanceJob(s.jobs[id].status, JobStatusFromPhase(phase).value)
    ensures var j := Observed(s.jobs[id], JobStatusFromPhase(phase).value, now); JobGrows(s.jobs[id], j) && JobClosed(j)
  {
    assert JobClosed(s.jobs[id]);
  }

  lemma SkipKeeps(s: Store, id: JobRunID, now: Time)
    requires Valid(s) && id in s.jobs && s.jobs[id].status.JobQueued?
    ensures ListedExist(s.runJobs, s.jobs.Keys, s.jobs[id].runId)
    ensures Valid(Skip(s, id, now)) && SameShape(s, Skip(s, id, now)) && Grows(s, Skip(s, id, now))
  {
    RefreshKeeps(s, s.jobs[id].runId, now);
    TouchRefresh(s, id, s.jobs[id].(status := JobSkipped, finishedAt := Some(now)), now);
  }

  lemma CancelKeeps(s: Store, run: RunID, now: Time)
    requires Valid(s)
    ensures Valid(CancelRun(s, run, now)) && Grows(s, CancelRun(s, run, now))
  {
    if run in s.runs && !s.runs[run].status.IsTerminal() {
      var t := CancelRun(s, run, now);
      assert RunStatusOk(s.runs, s.runJobs, s.jobs, run);
      CancelJobsClosed(s, t, now, run);
      SameShapeKeeps(s, t);
      CancelClosed(s, t, run, now);
    }
  }

  lemma CancelClosed(s: Store, t: Store, run: RunID, now: Time)
    requires Closed(s) && RunStatusOk(s.runs, s.runJobs, s.jobs, run) && !s.runs[run].status.IsTerminal()
    requires t == CancelRun(s, run, now)
    requires forall id {:trigger JobClosed(t.jobs[id])} :: id in t.jobs ==> JobClosed(t.jobs[id])
    ensures Closed(t)
  {
    CancelOwnRun(s, run, now);
    forall q | q in t.runs && q != run
      ensures RunStatusOk(t.runs, t.runJobs, t.jobs, q)
    {
      assert RunStatusOk(s.runs, s.runJobs, s.jobs, q);
      CancelOtherRun(s.runJobs, s.jobs, run, q, now);
    }
  }

  lemma CancelJobsClosed(s: Store, t: Store, now: Time, run: RunID)
    requires Closed(s) && t.jobs == CancelJobs(s.jobs, Listed(s.runJobs, run), now)
    ensures forall id {:trigger JobClosed(t.jobs[id])} :: id in t.jobs ==> JobClosed(t.jobs[id])
    ensures JobsGrow(s.jobs, t.jobs) && s.jobs.Keys == t.jobs.Keys
  {
    forall id | id in s.jobs
      ensures JobClosed(t.jobs[id]) && JobGrows(s.jobs[id], t.jobs[id])
    {
      assert JobClosed(s.jobs[id]);
    }
  }

  lemma CancelOwnRun(s: Store, run: RunID, now: Time)
    requires RunStatusOk(s.runs, s.runJobs, s.jobs, run) && !s.runs[run].status.IsTerminal()
    ensures var t := CancelRun(s, run, now); RunStatusOk(t.runs, t.runJobs, t.jobs, run)
  {
    var ids := s.runJobs[run];
    CancelledStatuses(s.jobs, ids, now);
    var i :| 0 <= i < |ids| && !Statuses(s.jobs, ids)[i].IsTerminal();
    assert Statuses(CancelJobs(s.jobs, ids, now), ids)[i] == JobCancelled;
  }

  lemma CancelledStatuses(jobs: Jobs, ids: seq<JobRunID>, now: Time)
    requires forall i :: 0 <= i < |ids| ==> ids[i] in jobs
    ensures forall i :: 0 <= i < |ids| ==> ids[i] in CancelJobs(jobs, ids, now)
    ensures forall i :: 0 <= i < |ids| ==>
              Statuses(CancelJobs(jobs, ids, now), ids)[i] == if jobs[ids[i]].status.IsTerminal() then jobs[ids[i]].status else JobCancelled
  {}

  lemma CancelOtherRun(lists: Lists, jobs: Jobs, run: RunID, q: RunID, now: Time)
    requires q != run && ListOk(lists, jobs, run) && ListOk(lists, jobs, q)
    ensures ListOk(lists, CancelJobs(jobs, lists[run], now), q)
    ensures Statuses(CancelJobs(jobs, lists[run], now), lists[q]) == Statuses(jobs, lists[q])
  {
    forall i | 0 <= i < |lists[q]|
      ensures lists[q][i] !in lists[run]
    {
      assert jobs[lists[q][i]].runId == q;
    }
  }
}
