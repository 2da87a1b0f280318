/** The durable store as a value, with one function per operation of
    internal/storage/memory/store.go. The class in DurableStores.dfy is proved
    to compute these functions; the invariants are proved about them. */
module StoreSpec {
  import opened Prelude
  import opened RunModel
  import Text

  type Jobs = map<JobRunID, JobRecord>
  type Lists = map<RunID, seq<JobRunID>>

  datatype Store = Store(
    deliveries: map<DeliveryKey, DeliveryRecord>,
    runs: map<RunID, RunRecord>,
    jobs: Jobs,
    runJobs: Lists,
    byJobKey: map<RunID, map<string, JobRunID>>,
    claimed: set<JobRunID>)

  const Empty := Store(map[], map[], map[], map[], map[], {})

  /** The deterministic Kubernetes name of a job attempt. */
  function CRName(id: JobRunID): string {
    "jobrun-" + Text.Lower(id)
  }

  // ---------------------------------------------------------------- deliveries

  function Receipt(d: Delivery, now: Time): DeliveryRecord {
    DeliveryRecord(d.key, d.event, d.payload, now, None)
  }

  /** First write wins: a known key is never overwritten. */
  function RecordDelivery(s: Store, d: Delivery, now: Time): Store {
    if d.key in s.deliveries then s else s.(deliveries := s.deliveries[d.key := Receipt(d, now)])
  }

  // ---------------------------------------------------------------- run creation

  /** The number of leading intents, among the first n, before a key repeats. */
  function DistinctPrefix(intents: seq<JobIntent>, n: nat): (k: nat)
    requires n <= |intents|
    ensures k <= n
  {
    if n == 0 then 0 else
      var k := DistinctPrefix(intents, n - 1);
      if k == n - 1 && forall i :: 0 <= i < k ==> intents[i].jobKey != intents[k].jobKey then n else k
  }

  lemma {:induction false} DistinctPrefixMeaning(intents: seq<JobIntent>, n: nat)
    requires n <= |intents|
    ensures var k := DistinctPrefix(intents, n);
            && k <= n
            && (forall i, j :: 0 <= i < j < k ==> intents[i].jobKey != intents[j].jobKey)
            && (k < n ==> exists i :: 0 <= i < k && intents[i].jobKey == intents[k].jobKey)
  {
    if n > 0 { DistinctPrefixMeaning(intents, n - 1); }
  }

  /** `jobs` with the first n intents written under the given fresh ids. */
  function AddJobs(jobs: Jobs, intents: seq<JobIntent>, ids: seq<JobRunID>, run: RunID, now: Time, n: nat): Jobs
    requires n <= |intents| && n <= |ids|
  {
    if n == 0 then jobs
    else AddJobs(jobs, intents, ids, run, now, n - 1)[ids[n - 1] := NewJob(ids[n - 1], run, intents[n - 1], 1, now)]
  }

  lemma {:induction false} AddJobsMeaning(jobs: Jobs, intents: seq<JobIntent>, ids: seq<JobRunID>, run: RunID, now: Time, n: nat)
    requires n <= |intents| && n <= |ids|
    requires forall i, j :: 0 <= i < j < |ids| ==> ids[i] != ids[j]
    ensures var r := AddJobs(jobs, intents, ids, run, now, n);
            && (forall id :: id in r <==> id in jobs || id in ids[..n])
            && (forall i :: 0 <= i < n ==> ids[i] in r && r[ids[i]] == NewJob(ids[i], run, intents[i], 1, now))
            && (forall id :: id in jobs && id !in ids[..n] ==> r[id] == jobs[id])
  {
    if n > 0 {
      AddJobsMeaning(jobs, intents, ids, run, now, n - 1);
      assert ids[..n] == ids[..n - 1] + [ids[n - 1]];
    }
  }

  /** The key index of the first n intents. */
  function KeyIndex(intents: seq<JobIntent>, ids: seq<JobRunID>, n: nat): map<string, JobRunID>
    requires n <= |intents| && n <= |ids|
  {
    if n == 0 then map[] else KeyIndex(intents, ids, n - 1)[intents[n - 1].jobKey := ids[n - 1]]
  }

  lemma {:induction false} KeyIndexMeaning(intents: seq<JobIntent>, ids: seq<JobRunID>, n: nat)
    requires n <= |intents| && n <= |ids|
    requires forall i, j :: 0 <= i < j < n ==> intents[i].jobKey != intents[j].jobKey
    ensures var r := KeyIndex(intents, ids, n);
            && (forall k :: k in r <==> exists i :: 0 <= i < n && intents[i].jobKey == k)
            && (forall i :: 0 <= i < n ==> intents[i].jobKey in r && r[intents[i].jobKey] == ids[i])
  {
    if n > 0 { KeyIndexMeaning(intents, ids, n - 1); }
  }

  datatype CreateOutcome =
    | Created(run: RunRecord)
    | Existing(run: RunRecord)
    | RunMissing
    | NotRecorded
    | NoJobs
    | DuplicateKey(key: string)

  function FreshRun(seed: RunSeed, run: RunID, now: Time): RunRecord {
    RunRecord(run, seed.event, seed.delivery, RunQueued, now, None)
  }

  /** Reaches the job-writing loop: the delivery is known, unbound, and there are jobs. */
  predicate Writes(s: Store, seed: RunSeed) {
    seed.delivery in s.deliveries && s.deliveries[seed.delivery].runId.None? && seed.jobs != []
  }

  predicate DistinctKeys(intents: seq<JobIntent>) {
    forall i, j :: 0 <= i < j < |intents| ==> intents[i].jobKey != intents[j].jobKey
  }

  function CreateOutcomeOf(s: Store, seed: RunSeed, now: Time, run: RunID): CreateOutcome {
    if seed.delivery !in s.deliveries then NotRecorded
    else if s.deliveries[seed.delivery].runId.Some? then
      var r := s.deliveries[seed.delivery].runId.value;
      if r in s.runs then Existing(s.runs[r]) else RunMissing
    else if seed.jobs == [] then NoJobs
    else
      var k := DistinctPrefix(seed.jobs, |seed.jobs|);
      if k < |seed.jobs| then DuplicateKey(seed.jobs[k].jobKey) else Created(FreshRun(seed, run, now))
  }

  /** The store mints one id per job; ids are never reused. */
  ghost predicate FreshIds(s: Store, seed: RunSeed, run: RunID, ids: seq<JobRunID>) {
    && |ids| == |seed.jobs|
    && (forall i, j :: 0 <= i < j < |ids| ==> ids[i] != ids[j])
    && (forall i :: 0 <= i < |ids| ==> ids[i] !in s.jobs)
    && run !in s.runs && run !in s.runJobs
    && (forall id :: id in s.jobs ==> s.jobs[id].runId != run)
  }

  /** The store after the commit at the end of a successful creation. */
  function Committed(u: Store, seed: RunSeed, now: Time, run: RunID, ids: seq<JobRunID>): Store
    requires |ids| == |seed.jobs| && seed.delivery in u.deliveries
  {
    u.(runs := u.runs[run := FreshRun(seed, run, now)],
       runJobs := u.runJobs[run := ids],
       byJobKey := u.byJobKey[run := KeyIndex(seed.jobs, ids, |ids|)],
       deliveries := u.deliveries[seed.delivery := u.deliveries[seed.delivery].(runId := Some(run))])
  }

  /** A repeated key is detected only after the jobs before it have been written. */
  ghost function CreateRun(s: Store, seed: RunSeed, now: Time, run: RunID, ids: seq<JobRunID>): Store
    requires FreshIds(s, seed, run, ids)
  {
    if !Writes(s, seed) then s else
      var k := DistinctPrefix(seed.jobs, |seed.jobs|);
      var written := s.(jobs := AddJobs(s.jobs, seed.jobs, ids, run, now, k));
      if k < |seed.jobs| then written else Committed(written, seed, now, run, ids)
  }

  // ---------------------------------------------------------------- run refresh

  function Statuses(jobs: Jobs, ids: seq<JobRunID>): (r: seq<JobStatus>)
    requires forall i :: 0 <= i < |ids| ==> ids[i] in jobs
    ensures |r| == |ids| && forall i :: 0 <= i < |ids| ==> r[i] == jobs[ids[i]].status
  {
    seq(|ids|, i requires 0 <= i < |ids| => jobs[ids[i]].status)
  }

  function Listed(lists: Lists, run: RunID): seq<JobRunID> {
    if run in lists then lists[run] else []
  }

  /** The jobs listed for a run exist; true of every run of a reachable store. */
  predicate ListedExist(lists: Lists, known: set<JobRunID>, run: RunID) {
    forall i :: 0 <= i < |Listed(lists, run)| ==> Listed(lists, run)[i] in known
  }

  /** Recomputes the aggregate; moves the run forward only. */
  function Refresh(s: Store, run: RunID, now: Time): Store
    requires ListedExist(s.runJobs, s.jobs.Keys, run)
  {
    if run !in s.runs || s.runs[run].status.IsTerminal() then s else
      var next := Aggregate(Statuses(s.jobs, Listed(s.runJobs, run)));
      if !CanAdvanceRun(s.runs[run].status, next) || next == s.runs[run].status then s else
        s.(runs := s.runs[run := s.runs[run].(
          status := next,
          finishedAt := if next.IsTerminal() then Some(now) else s.runs[run].finishedAt)])
  }

  // ---------------------------------------------------------------- claiming

  datatype DepState = DepsReady | DepsBlocked | DepsFailed

  /** The classifier's walk over the dependency keys, early exits included. */
  function ScanDeps(s: Store, run: RunID, deps: seq<string>): DepState {
    if deps == [] then DepsReady
    else if run !in s.byJobKey || deps[0] !in s.byJobKey[run] then DepsBlocked
    else
      var dep := s.byJobKey[run][deps[0]];
      if dep in s.jobs && s.jobs[dep].status.JobSucceeded? then ScanDeps(s, run, deps[1..])
      else if dep in s.jobs && s.jobs[dep].status.IsTerminal() then DepsFailed
      else if ScanDeps(s, run, deps[1..]).DepsFailed? then DepsFailed else DepsBlocked
  }

  function DependencyState(s: Store, id: JobRunID): DepState {
    if id !in s.jobs then DepsReady else ScanDeps(s, s.jobs[id].runId, s.jobs[id].intent.dependsOn)
  }

  predicate Claimable(s: Store, id: JobRunID) {
    id in s.jobs && s.jobs[id].status.JobQueued? && id !in s.claimed
  }

  /** Oldest first, ties by id. */
  predicate Before(jobs: Jobs, a: JobRunID, b: JobRunID)
    requires a in jobs && b in jobs
  {
    jobs[a].createdAt < jobs[b].createdAt || (jobs[a].createdAt == jobs[b].createdAt && Text.LexLess(a, b))
  }

  /** q lists exactly `ids`, in queue order. */
  ghost predicate IsQueue(jobs: Jobs, ids: set<JobRunID>, q: seq<JobRunID>) {
    && (forall id :: id in q <==> id in ids)
    && (forall i :: 0 <= i < |q| ==> q[i] in jobs)
    && (forall i, j :: 0 <= i < j < |q| ==> Before(jobs, q[i], q[j]))
  }

  function Candidates(s: Store): set<JobRunID> {
    set id | id in s.jobs && Claimable(s, id)
  }

  /** Marks a queued job skipped and refreshes its run. */
  function Skip(s: Store, id: JobRunID, now: Time): (t: Store)
    requires id in s.jobs && ListedExist(s.runJobs, s.jobs.Keys, s.jobs[id].runId)
    ensures t.runJobs == s.runJobs && t.jobs.Keys == s.jobs.Keys
    ensures forall j :: j in s.jobs ==> t.jobs[j].runId == s.jobs[j].runId
  {
    Refresh(s.(jobs := s.jobs[id := s.jobs[id].(status := JobSkipped, finishedAt := Some(now))]), s.jobs[id].runId, now)
  }

  predicate Walkable(s: Store, q: seq<JobRunID>) {
    forall i :: 0 <= i < |q| ==> q[i] in s.jobs && ListedExist(s.runJobs, s.jobs.Keys, s.jobs[q[i]].runId)
  }

  /** Examines the queue in order: blocked jobs are passed over, jobs whose
      dependencies failed are skipped unless a condition still has to decide,
      the first other job is claimed. */
  function ClaimFrom(s: Store, q: seq<JobRunID>, clock: Clock): (r: (Store, Option<JobRunID>))
    requires Walkable(s, q)
    decreases |q|
  {
    if q == [] then (s, None)
    else match DependencyState(s, q[0])
      case DepsBlocked => ClaimFrom(s, q[1..], clock)
      case DepsFailed =>
        if s.jobs[q[0]].intent.condition != "" then (s.(claimed := s.claimed + {q[0]}), Some(q[0]))
        else ClaimFrom(Skip(s, q[0], clock(q[0])), q[1..], clock)
      case DepsReady => (s.(claimed := s.claimed + {q[0]}), Some(q[0]))
  }

  function ReleaseClaim(s: Store, id: JobRunID): Store {
    s.(claimed := s.claimed - {id})
  }

  // ---------------------------------------------------------------- dispatch

  datatype ActiveObject = ActiveObject(name: string, uid: string)

  /** Name and uid are functions of the job id alone, so a deleted and recreated
      object is the same object. */
  function ObjectOf(id: JobRunID): ActiveObject {
    ActiveObject(CRName(id), "uid-" + CRName(id))
  }

  datatype AckOutcome = Acked | AckUnknownJob | AckOtherName | AckNotDispatchable

  function AckOutcomeOf(s: Store, id: JobRunID, obj: ActiveObject): AckOutcome {
    if id !in s.jobs then AckUnknownJob
    else match s.jobs[id].status
      case JobDispatched => if s.jobs[id].activeName != "" && s.jobs[id].activeName != obj.name then AckOtherName else Acked
      case JobQueued => Acked
      case _ => AckNotDispatchable
  }

  function AckDispatched(s: Store, id: JobRunID, obj: ActiveObject, now: Time): Store {
    if !AckOutcomeOf(s, id, obj).Acked? then s else
      s.(jobs := s.jobs[id := s.jobs[id].(status := JobDispatched, activeName := obj.name,
                                          activeUid := obj.uid, dispatchedAt := Some(now))],
         claimed := s.claimed - {id})
  }

  // ---------------------------------------------------------------- projection

  /** The job after an accepted observation of `target`. */
  function Observed(j: JobRecord, target: JobStatus, now: Time): JobRecord {
    var j' := j.(status := target);
    match target
    case JobRunning => j'.(startedAt := Some(now))
    case JobSucceeded => j'.(startedAt := if j.startedAt.Some? then j.startedAt else Some(now), finishedAt := Some(now))
    case JobFailed => j'.(startedAt := if j.startedAt.Some? then j.startedAt else Some(now), finishedAt := Some(now))
    case JobSkipped => j'.(startedAt := if j.startedAt.Some? then j.startedAt else Some(now), finishedAt := Some(now))
    case _ => j'
  }

  /** Terminal jobs and stale phases are left alone; otherwise the job moves
      forward and its run is refreshed. */
  function ApplyObserved(s: Store, id: JobRunID, phase: Phase, now: Time): Store
    requires id in s.jobs ==> ListedExist(s.runJobs, s.jobs.Keys, s.jobs[id].runId)
  {
    if id !in s.jobs || s.jobs[id].status.IsTerminal() then s
    else match JobStatusFromPhase(phase)
      case None => Refresh(s, s.jobs[id].runId, now)
      case Some(target) =>
        if !CanAdvanceJob(s.jobs[id].status, target) then s
        else Refresh(s.(jobs := s.jobs[id := Observed(s.jobs[id], target, now)]), s.jobs[id].runId, now)
  }

  // ---------------------------------------------------------------- cancel

  datatype CancelOutcome = CancelDone | CancelUnknownRun | CancelAlreadyTerminal

  function CancelOutcomeOf(s: Store, run: RunID): CancelOutcome {
    if run !in s.runs then CancelUnknownRun
    else if s.runs[run].status.IsTerminal() && !s.runs[run].status.RunCancelled? then CancelAlreadyTerminal
    else CancelDone
  }

  function CancelledJob(j: JobRecord, now: Time): JobRecord {
    if j.status.IsTerminal() then j else j.(status := JobCancelled, finishedAt := Some(now))
  }

  function CancelJobs(jobs: Jobs, ids: seq<JobRunID>, now: Time): Jobs {
    map id | id in jobs :: if id in ids then CancelledJob(jobs[id], now) else jobs[id]
  }

  function CancelRun(s: Store, run: RunID, now: Time): Store {
    if run !in s.runs || s.runs[run].status.IsTerminal() then s else
      var ids := Listed(s.runJobs, run);
      s.(jobs := CancelJobs(s.jobs, ids, now),
         claimed := s.claimed - (set id | id in ids),
         runs := s.runs[run := s.runs[run].(status := RunCancelled, finishedAt := Some(now))])
  }

  // ---------------------------------------------------------------- rerequest

  datatype RerequestOutcome =
    | Attempt(id: JobRunID)
    | RerequestUnknownJob
    /** The write into the missing key index of a job whose run was never committed. */
    | NilMapPanic

  predicate IsNextAttempt(s: Store, orig: JobRecord, id: JobRunID) {
    id in s.jobs && s.jobs[id].intent.jobKey == orig.intent.jobKey && s.jobs[id].attempt == orig.attempt + 1
  }

  /** The first listed attempt that follows `orig`, if any. */
  function NextAttempt(s: Store, orig: JobRecord, ids: seq<JobRunID>): (r: Option<JobRunID>)
    ensures r.Some? ==> r.value in ids && IsNextAttempt(s, orig, r.value)
    ensures r.None? ==> forall i :: 0 <= i < |ids| ==> !IsNextAttempt(s, orig, ids[i])
  {
    if ids == [] then None
    else if IsNextAttempt(s, orig, ids[0]) then Some(ids[0])
    else NextAttempt(s, orig, ids[1..])
  }

  function RerequestOutcomeOf(s: Store, id: JobRunID, newId: JobRunID): RerequestOutcome {
    if id !in s.jobs then RerequestUnknownJob
    else
      var orig := s.jobs[id];
      match NextAttempt(s, orig, Listed(s.runJobs, orig.runId))
      case Some(j) => Attempt(s.jobs[j].id)
      case None => if orig.runId in s.byJobKey then Attempt(newId) else NilMapPanic
  }

  /** Adds the next attempt unless it exists; reopens a terminal run. */
  function RerequestJob(s: Store, id: JobRunID, now: Time, newId: JobRunID): Store {
    if id !in s.jobs then s
    else
      var orig := s.jobs[id];
      if NextAttempt(s, orig, Listed(s.runJobs, orig.runId)).Some? then s else
        var written := s.(
          jobs := s.jobs[newId := NewJob(newId, orig.runId, orig.intent, orig.attempt + 1, now)],
          runJobs := s.runJobs[orig.runId := Listed(s.runJobs, orig.runId) + [newId]]);
        if orig.runId !in s.byJobKey then written
        else written.(
          byJobKey := s.byJobKey[orig.runId := s.byJobKey[orig.runId][orig.intent.jobKey := newId]],
          runs := if orig.runId in s.runs && s.runs[orig.runId].status.IsTerminal()
                  then s.runs[orig.runId := s.runs[orig.runId].(status := RunQueued, finishedAt := None)]
                  else s.runs)
  }

  // ---------------------------------------------------------------- collection

  function MarkCollected(s: Store, id: JobRunID, now: Time): Store {
    if id !in s.jobs || s.jobs[id].collectedAt.Some? then s
    else s.(jobs := s.jobs[id := s.jobs[id].(collectedAt := Some(now))])
  }

  /** Job and run both durably terminal, object not yet recorded as collected. */
  predicate GCReady(s: Store, id: JobRunID) {
    && id in s.jobs
    && s.jobs[id].status.IsTerminal() && s.jobs[id].collectedAt.None?
    && s.jobs[id].runId in s.runs && s.runs[s.jobs[id].runId].status.IsTerminal()
  }
}
