/** The operations that add records: run creation, a further attempt, and the
    queue walk; then the invariant over whole call sequences. */
module StoreGrowth {
  import opened Prelude
  import opened RunModel
  import opened StoreSpec
  import opened StoreInvariants

  /** b keeps every job of a; the new ones belong to `run`. */
  ghost predicate Adds(a: Jobs, b: Jobs, run: RunID) {
    && (forall id :: id in a ==> id in b && b[id] == a[id])
    && (forall id :: id in b && id !in a ==> b[id].runId == run)
  }

  lemma LadderAside(a: Jobs, b: Jobs, r: RunID, k: string, top: JobRunID)
    requires Ladder(a, r, k, top)
    requires forall id :: id in a ==> id in b && b[id] == a[id]
    requires forall id :: id in b && id !in a ==> b[id].runId != r || b[id].intent.jobKey != k
    ensures Ladder(b, r, k, top)
  {
    forall n: nat | 1 <= n <= b[top].attempt
      ensures HasAttempt(b, r, k, n)
    {
      assert HasAttempt(a, r, k, n);
      var id :| IsAttempt(a, r, k, n, id);
      assert IsAttempt(b, r, k, n, id);
    }
  }

  lemma LadderTopped(a: Jobs, r: RunID, k: string, top: JobRunID, newId: JobRunID, j: JobRecord)
    requires Ladder(a, r, k, top) && newId !in a
    requires j.runId == r && j.intent.jobKey == k && j.attempt == a[top].attempt + 1
    ensures Ladder(a[newId := j], r, k, newId)
  {
    var b := a[newId := j];
    forall n: nat | 1 <= n <= b[newId].attempt
      ensures HasAttempt(b, r, k, n)
    {
      if n == j.attempt {
        assert IsAttempt(b, r, k, n, newId);
      } else {
        assert HasAttempt(a, r, k, n);
        var id :| IsAttempt(a, r, k, n, id);
        assert IsAttempt(b, r, k, n, id);
      }
    }
    assert a[top].attempt < j.attempt;
  }

  /** Jobs added under a run id unknown to lists and indexes disturb nothing. */
  lemma OrphansKeep(s: Store, jobs: Jobs, run: RunID)
    requires Valid(s) && run !in s.runs && run !in s.byJobKey && run !in s.runJobs && Adds(s.jobs, jobs, run)
    requires forall id :: id in jobs && id !in s.jobs ==> jobs[id].id == id && jobs[id].attempt >= 1 && JobClosed(jobs[id])
    ensures Valid(s.(jobs := jobs)) && Grows(s, s.(jobs := jobs))
  {
    var t := s.(jobs := jobs);
    OrphanShape(s, jobs, run);
    OrphanIndex(s.jobs, jobs, s.byJobKey, run);
    OrphanClosed(s, jobs, run);
    assert ListsGrow(s.runJobs, t.runJobs);
  }

  lemma OrphanShape(s: Store, jobs: Jobs, run: RunID)
    requires Shape(s) && run !in s.runs && run !in s.runJobs && Adds(s.jobs, jobs, run)
    requires forall id :: id in jobs && id !in s.jobs ==> jobs[id].id == id && jobs[id].attempt >= 1
    ensures Shape(s.(jobs := jobs))
  {
    forall r | r in s.runJobs
      ensures ListOk(s.runJobs, jobs, r)
    {
      assert ListOk(s.runJobs, s.jobs, r);
    }
    forall id | id in jobs
      ensures JobOk(s.runs.Keys, s.runJobs, jobs, id)
    {
      assert id in s.jobs ==> JobOk(s.runs.Keys, s.runJobs, s.jobs, id);
    }
  }

  lemma OrphanIndex(a: Jobs, b: Jobs, keys: Keys, run: RunID)
    requires Index(a, keys) && Adds(a, b, run) && run !in keys
    ensures Index(b, keys)
  {
    forall r, k | HasKey(keys, r, k)
      ensures Ladder(b, r, k, keys[r][k])
    {
      LadderAside(a, b, r, k, keys[r][k]);
    }
    forall id | id in b
      ensures Keyed(b, keys, id)
    {
      assert id in a ==> Keyed(a, keys, id);
    }
  }

  lemma OrphanClosed(s: Store, jobs: Jobs, run: RunID)
    requires Shape(s) && Closed(s) && run !in s.runs && Adds(s.jobs, jobs, run)
    requires forall id :: id in jobs && id !in s.jobs ==> JobClosed(jobs[id])
    ensures Closed(s.(jobs := jobs))
  {
    var t := s.(jobs := jobs);
    forall id | id in jobs
      ensures JobClosed(jobs[id])
    {
      assert id in s.jobs ==> JobClosed(s.jobs[id]);
    }
    forall q | q in t.runs
      ensures RunStatusOk(t.runs, t.runJobs, t.jobs, q)
    {
      KeptRun(s.runs, s.runJobs, s.jobs, t.jobs, q);
    }
  }

  lemma KeptRun(runs: Runs, lists: Lists, a: Jobs, b: Jobs, q: RunID)
    requires RunStatusOk(runs, lists, a, q)
    requires forall id :: id in a ==> id in b && b[id] == a[id]
    ensures RunStatusOk(runs, lists, b, q)
  {
    assert Statuses(b, lists[q]) == Statuses(a, lists[q]);
  }

  // ---------------------------------------------------------------- run creation

  lemma CommitKeeps(s: Store, seed: RunSeed, now: Time, run: RunID, ids: seq<JobRunID>)
    requires Valid(s) && FreshIds(s, seed, run, ids) && Writes(s, seed)
    requires DistinctPrefix(seed.jobs, |seed.jobs|) == |seed.jobs|
    ensures Valid(CreateRun(s, seed, now, run, ids)) && Grows(s, CreateRun(s, seed, now, run, ids))
  {
    var u := WrittenFirst(s, seed, now, run, ids);
    CommitOver(u, seed, now, run, ids);
    CommitIs(s, u, seed, now, run, ids);
    GrowsTransitive(s, u, CreateRun(s, seed, now, run, ids));
  }

  /** The store between the writing loop and the commit. */
  lemma WrittenFirst(s: Store, seed: RunSeed, now: Time, run: RunID, ids: seq<JobRunID>) returns (u: Store)
    requires Valid(s) && FreshIds(s, seed, run, ids) && Writes(s, seed)
    requires DistinctPrefix(seed.jobs, |seed.jobs|) == |seed.jobs|
    ensures u == s.(jobs := AddJobs(s.jobs, seed.jobs, ids, run, now, |seed.jobs|))
    ensures Valid(u) && Grows(s, u) && DistinctKeys(seed.jobs) && FirstAttempts(u.jobs, run, seed, ids, now)
  {
    u := s.(jobs := AddJobs(s.jobs, seed.jobs, ids, run, now, |seed.jobs|));
    DistinctPrefixMeaning(seed.jobs, |seed.jobs|);
    WrittenJobs(s, seed, now, run, ids, |seed.jobs|);
    OrphansKeep(s, u.jobs, run);
    FirstAttemptsWritten(s, seed, now, run, ids);
  }

  lemma CommitIs(s: Store, u: Store, seed: RunSeed, now: Time, run: RunID, ids: seq<JobRunID>)
    requires FreshIds(s, seed, run, ids) && Writes(s, seed) && DistinctPrefix(seed.jobs, |seed.jobs|) == |seed.jobs|
    requires u == s.(jobs := AddJobs(s.jobs, seed.jobs, ids, run, now, |seed.jobs|))
    ensures CreateRun(s, seed, now, run, ids) == Committed(u, seed, now, run, ids)
  {}

  lemma FirstAttemptsWritten(s: Store, seed: RunSeed, now: Time, run: RunID, ids: seq<JobRunID>)
    requires FreshIds(s, seed, run, ids)
    ensures FirstAttempts(AddJobs(s.jobs, seed.jobs, ids, run, now, |seed.jobs|), run, seed, ids, now)
  {
    AddJobsMeaning(s.jobs, seed.jobs, ids, run, now, |seed.jobs|);
    assert ids[..|ids|] == ids;
  }

  lemma CommitOver(u: Store, seed: RunSeed, now: Time, run: RunID, ids: seq<JobRunID>)
    requires Valid(u) && Writes(u, seed) && DistinctKeys(seed.jobs)
    requires run !in u.runs && run !in u.runJobs
    requires FirstAttempts(u.jobs, run, seed, ids, now)
    requires forall i, j :: 0 <= i < j < |ids| ==> ids[i] != ids[j]
    ensures Valid(Committed(u, seed, now, run, ids)) && Grows(u, Committed(u, seed, now, run, ids))
  {
    var t := Committed(u, seed, now, run, ids);
    CommitShape(u, t, run, ids);
    CommitIndex(u.jobs, u.byJobKey, run, seed, ids, now);
    assert ListOk(t.runJobs, t.jobs, run);
    CommitClosed(u, t, run, ids);
    CommitBound(u.deliveries, u.runs, seed, run, now);
    CommitGrows(u, t, seed, run);
  }

  lemma CommitBound(ds: Deliveries, runs: Runs, seed: RunSeed, run: RunID, now: Time)
    requires Bound(ds, runs) && run !in runs && seed.delivery in ds && ds[seed.delivery].runId.None?
    ensures Bound(ds[seed.delivery := ds[seed.delivery].(runId := Some(run))], runs[run := FreshRun(seed, run, now)])
  {}

  lemma CommitGrows(s: Store, t: Store, seed: RunSeed, run: RunID)
    requires t.jobs == s.jobs
    requires run !in s.runJobs && (forall r :: r in s.runJobs ==> r in t.runJobs && t.runJobs[r] == s.runJobs[r])
    requires forall r :: r in s.runs ==> r in t.runs && t.runs[r] == s.runs[r]
    requires seed.delivery in s.deliveries && s.deliveries[seed.delivery].runId.None?
    requires t.deliveries == s.deliveries[seed.delivery := s.deliveries[seed.delivery].(runId := Some(run))]
    ensures Grows(s, t)
  {}

  /** The jobs written by the creation loop, before any commit. */
  lemma WrittenJobs(s: Store, seed: RunSeed, now: Time, run: RunID, ids: seq<JobRunID>, n: nat)
    requires FreshIds(s, seed, run, ids) && n <= |seed.jobs|
    ensures var jobs := AddJobs(s.jobs, seed.jobs, ids, run, now, n);
            && Adds(s.jobs, jobs, run)
            && (forall id :: id in jobs && id !in s.jobs ==>
                  jobs[id].id == id && jobs[id].attempt == 1 && jobs[id].status.JobQueued? && JobClosed(jobs[id]))
  {
    AddJobsMeaning(s.jobs, seed.jobs, ids, run, now, n);
  }

  lemma CommitShape(u: Store, t: Store, run: RunID, ids: seq<JobRunID>)
    requires Shape(u) && run !in u.runs && run !in u.runJobs && ids != []
    requires t.jobs == u.jobs && t.runJobs == u.runJobs[run := ids]
    requires t.runs.Keys == u.runs.Keys + {run} && (forall r :: r in u.runs ==> t.runs[r] == u.runs[r]) && t.runs[run].id == run
    requires t.byJobKey.Keys == u.byJobKey.Keys + {run}
    requires forall i :: 0 <= i < |ids| ==> ids[i] in u.jobs && u.jobs[ids[i]].runId == run
    requires forall i, j :: 0 <= i < j < |ids| ==> ids[i] != ids[j]
    requires forall id :: id in u.jobs && u.jobs[id].runId == run ==> id in ids
    ensures Shape(t)
  {
    forall r | r in t.runJobs
      ensures ListOk(t.runJobs, t.jobs, r)
    {
      assert r != run ==> ListOk(u.runJobs, u.jobs, r);
    }
    forall id | id in t.jobs
      ensures JobOk(t.runs.Keys, t.runJobs, t.jobs, id)
    {
      assert JobOk(u.runs.Keys, u.runJobs, u.jobs, id);
    }
    forall r | r in t.runs
      ensures RunOk(t.runs, t.runJobs, r)
    {
      assert r != run ==> RunOk(u.runs, u.runJobs, r);
    }
  }

  /** The jobs of run `run` are exactly the first attempts of the seed. */
  ghost predicate FirstAttempts(jobs: Jobs, run: RunID, seed: RunSeed, ids: seq<JobRunID>, now: Time) {
    && |ids| == |seed.jobs|
    && (forall i :: 0 <= i < |ids| ==> ids[i] in jobs && jobs[ids[i]] == NewJob(ids[i], run, seed.jobs[i], 1, now))
    && (forall id :: id in jobs && jobs[id].runId == run ==> id in ids)
  }

  lemma CommitIndex(jobs: Jobs, prior: Keys, run: RunID, seed: RunSeed, ids: seq<JobRunID>, now: Time)
    requires Index(jobs, prior) && run !in prior && DistinctKeys(seed.jobs)
    requires FirstAttempts(jobs, run, seed, ids, now)
    ensures Index(jobs, prior[run := KeyIndex(seed.jobs, ids, |ids|)])
  {
    var index := prior[run := KeyIndex(seed.jobs, ids, |ids|)];
    KeyIndexMeaning(seed.jobs, ids, |ids|);
    forall r, k | HasKey(index, r, k)
      ensures Ladder(jobs, r, k, index[r][k])
    {
      if r != run {
        assert HasKey(prior, r, k);
      } else {
        var i :| 0 <= i < |ids| && seed.jobs[i].jobKey == k;
        FirstAttempt(jobs, run, seed, ids, now, i);
      }
    }
    CommitKeyed(jobs, prior, run, seed, ids, now);
  }

  lemma CommitKeyed(jobs: Jobs, prior: Keys, run: RunID, seed: RunSeed, ids: seq<JobRunID>, now: Time)
    requires forall id {:trigger Keyed(jobs, prior, id)} :: id in jobs ==> Keyed(jobs, prior, id)
    requires DistinctKeys(seed.jobs) && FirstAttempts(jobs, run, seed, ids, now)
    ensures forall id :: id in jobs ==> Keyed(jobs, prior[run := KeyIndex(seed.jobs, ids, |ids|)], id)
  {
    KeyIndexMeaning(seed.jobs, ids, |ids|);
    forall id | id in jobs
      ensures Keyed(jobs, prior[run := KeyIndex(seed.jobs, ids, |ids|)], id)
    {
      assert Keyed(jobs, prior, id);
      if jobs[id].runId == run { var i :| 0 <= i < |ids| && ids[i] == id; }
    }
  }

  lemma FirstAttempt(jobs: Jobs, run: RunID, seed: RunSeed, ids: seq<JobRunID>, now: Time, i: nat)
    requires DistinctKeys(seed.jobs) && FirstAttempts(jobs, run, seed, ids, now) && i < |ids|
    ensures Ladder(jobs, run, seed.jobs[i].jobKey, ids[i])
  {
    var k := seed.jobs[i].jobKey;
    assert IsAttempt(jobs, run, k, 1, ids[i]);
    forall id | id in jobs && jobs[id].runId == run && jobs[id].intent.jobKey == k
      ensures id == ids[i]
    {
      var j :| 0 <= j < |ids| && ids[j] == id;
      assert seed.jobs[j].jobKey == seed.jobs[i].jobKey;
    }
  }

  lemma CommitClosed(u: Store, t: Store, run: RunID, ids: seq<JobRunID>)
    requires Closed(u) && t.jobs == u.jobs && t.runJobs == u.runJobs[run := ids] && run !in u.runs && ids != []
    requires t.runs.Keys == u.runs.Keys + {run} && (forall r :: r in u.runs ==> t.runs[r] == u.runs[r])
    requires t.runs[run].status.RunQueued? && t.runs[run].finishedAt.None?
    requires ListOk(t.runJobs, t.jobs, run) && forall i :: 0 <= i < |ids| ==> t.jobs[ids[i]].status.JobQueued?
    ensures Closed(t)
  {
    forall q | q in t.runs
      ensures RunStatusOk(t.runs, t.runJobs, t.jobs, q)
    {
      if q != run {
        assert RunStatusOk(u.runs, u.runJobs, u.jobs, q);
      } else {
        assert !Statuses(t.jobs, ids)[0].IsTerminal();
      }
    }
  }

  lemma CreateKeeps(s: Store, seed: RunSeed, now: Time, run: RunID, ids: seq<JobRunID>)
    requires Valid(s) && FreshIds(s, seed, run, ids)
    ensures Valid(CreateRun(s, seed, now, run, ids)) && Grows(s, CreateRun(s, seed, now, run, ids))
  {
    if Writes(s, seed) {
      var k := DistinctPrefix(seed.jobs, |seed.jobs|);
      DistinctPrefixMeaning(seed.jobs, |seed.jobs|);
      if k < |seed.jobs| {
        WrittenJobs(s, seed, now, run, ids, k);
        OrphansKeep(s, AddJobs(s.jobs, seed.jobs, ids, run, now, k), run);
      } else {
        CommitKeeps(s, seed, now, run, ids);
      }
    }
  }

  // ---------------------------------------------------------------- a further attempt

  /** Without a listed successor, a job of a committed run is the newest attempt of its key. */
  lemma NewestWithoutNext(s: Store, id: JobRunID)
    requires Valid(s) && id in s.jobs && s.jobs[id].runId in s.byJobKey
    requires NextAttempt(s, s.jobs[id], Listed(s.runJobs, s.jobs[id].runId)).None?
    ensures HasKey(s.byJobKey, s.jobs[id].runId, s.jobs[id].intent.jobKey)
    ensures s.byJobKey[s.jobs[id].runId][s.jobs[id].intent.jobKey] == id
  {
    var orig := s.jobs[id];
    var r, k := orig.runId, orig.intent.jobKey;
    assert Keyed(s.jobs, s.byJobKey, id);
    assert HasKey(s.byJobKey, r, k);
    var top := s.byJobKey[r][k];
    assert Ladder(s.jobs, r, k, top);
    if orig.attempt < s.jobs[top].attempt {
      assert HasAttempt(s.jobs, r, k, orig.attempt + 1);
      var j :| IsAttempt(s.jobs, r, k, orig.attempt + 1, j);
      assert JobOk(s.runs.Keys, s.runJobs, s.jobs, j);
      assert IsNextAttempt(s, orig, j);
    }
    assert s.jobs[id].attempt == s.jobs[top].attempt;
  }

  lemma RerequestShape(s: Store, t: Store, r: RunID, newId: JobRunID, j: JobRecord)
    requires Shape(s) && newId !in s.jobs && j.id == newId && j.runId == r && j.attempt >= 1
    requires t.jobs == s.jobs[newId := j] && t.runJobs == s.runJobs[r := Listed(s.runJobs, r) + [newId]]
    requires t.runs.Keys == s.runs.Keys && RunsGrow(s.runs, t.runs) && t.byJobKey.Keys == s.byJobKey.Keys
    ensures Shape(t)
  {
    forall q | q in t.runJobs
      ensures ListOk(t.runJobs, t.jobs, q)
    {
      assert q in s.runJobs ==> ListOk(s.runJobs, s.jobs, q);
    }
    forall id | id in t.jobs
      ensures JobOk(t.runs.Keys, t.runJobs, t.jobs, id)
    {
      assert id in s.jobs ==> JobOk(s.runs.Keys, s.runJobs, s.jobs, id);
    }
    forall q | q in t.runs
      ensures RunOk(t.runs, t.runJobs, q)
    {
      assert RunOk(s.runs, s.runJobs, q);
    }
  }

  lemma RerequestIndex(jobs: Jobs, keys: Keys, r: RunID, k: string, newId: JobRunID, j: JobRecord)
    requires Index(jobs, keys) && newId !in jobs && HasKey(keys, r, k)
    requires j.runId == r && j.intent.jobKey == k && keys[r][k] in jobs && j.attempt == jobs[keys[r][k]].attempt + 1
    ensures Index(jobs[newId := j], keys[r := keys[r][k := newId]])
  {
    var jobs', keys' := jobs[newId := j], keys[r := keys[r][k := newId]];
    forall q, x | HasKey(keys', q, x)
      ensures Ladder(jobs', q, x, keys'[q][x])
    {
      assert HasKey(keys, q, x);
      if q == r && x == k {
        LadderTopped(jobs, r, k, keys[r][k], newId, j);
      } else {
        LadderAside(jobs, jobs', q, x, keys[q][x]);
      }
    }
    forall id | id in jobs'
      ensures Keyed(jobs', keys', id)
    {
      assert id in jobs ==> Keyed(jobs, keys, id);
    }
  }

  /** An open run keeps its status, a closed one is queued again. */
  predicate Reopened(before: RunStatus, after: RunStatus) {
    after == if before.IsTerminal() then RunQueued else before
  }

  lemma ReopenedRun(s: Store, t: Store, r: RunID, newId: JobRunID)
    requires r in s.runs && r in t.runs && RunStatusOk(s.runs, s.runJobs, s.jobs, r) && ListOk(t.runJobs, t.jobs, r)
    requires newId !in s.jobs && newId in t.jobs && t.jobs == s.jobs[newId := t.jobs[newId]] && t.jobs[newId].status.JobQueued?
    requires t.runJobs == s.runJobs[r := Listed(s.runJobs, r) + [newId]]
    requires Reopened(s.runs[r].status, t.runs[r].status) && t.runs[r].finishedAt.None?
    ensures RunStatusOk(t.runs, t.runJobs, t.jobs, r)
  {
    var sts := Statuses(s.jobs, s.runJobs[r]);
    var now := Statuses(t.jobs, t.runJobs[r]);
    assert now == sts + [JobQueued];
    assert !now[|sts|].IsTerminal();
    if s.runs[r].status.RunRunning? {
      var i :| 0 <= i < |sts| && !sts[i].JobQueued?;
      assert !now[i].JobQueued?;
    }
  }

  lemma RerequestClosed(s: Store, t: Store, r: RunID, newId: JobRunID)
    requires Shape(s) && Shape(t) && Closed(s) && newId !in s.jobs && newId in t.jobs
    requires t.jobs == s.jobs[newId := t.jobs[newId]] && t.jobs[newId].status.JobQueued? && t.jobs[newId].finishedAt.None?
    requires t.runJobs == s.runJobs[r := Listed(s.runJobs, r) + [newId]]
    requires t.runs.Keys == s.runs.Keys && (forall q :: q in s.runs && q != r ==> t.runs[q] == s.runs[q])
    requires r in t.runs ==> !t.runs[r].status.IsTerminal() && t.runs[r].finishedAt.None? && Reopened(s.runs[r].status, t.runs[r].status)
    ensures Closed(t)
  {
    forall id | id in t.jobs
      ensures JobClosed(t.jobs[id])
    {
      assert id in s.jobs ==> JobClosed(s.jobs[id]);
    }
    forall q | q in t.runs
      ensures RunStatusOk(t.runs, t.runJobs, t.jobs, q)
    {
      assert RunStatusOk(s.runs, s.runJobs, s.jobs, q);
      assert ListOk(t.runJobs, t.jobs, q);
      if q == r {
        ReopenedRun(s, t, r, newId);
      } else {
        KeptRun(s.runs, s.runJobs, s.jobs, t.jobs, q);
      }
    }
  }

  lemma RerequestKeeps(s: Store, id: JobRunID, now: Time, newId: JobRunID)
    requires Valid(s) && newId !in s.jobs
    ensures Valid(RerequestJob(s, id, now, newId)) && Grows(s, RerequestJob(s, id, now, newId))
  {
    if id in s.jobs && NextAttempt(s, s.jobs[id], Listed(s.runJobs, s.jobs[id].runId)).None? {
      var t := RerequestJob(s, id, now, newId);
      var r := s.jobs[id].runId;
      if r in s.byJobKey {
        NewestWithoutNext(s, id);
        assert RunStatusOk(s.runs, s.runJobs, s.jobs, r);
        RerequestIndex(s.jobs, s.byJobKey, r, s.jobs[id].intent.jobKey, newId, t.jobs[newId]);
      } else {
        OrphanIndex(s.jobs, t.jobs, s.byJobKey, r);
      }
      AttemptAdded(s, t, r, newId);
    }
  }

  lemma AttemptAdded(s: Store, t: Store, r: RunID, newId: JobRunID)
    requires Valid(s) && newId !in s.jobs && newId in t.jobs
    requires t.jobs == s.jobs[newId := t.jobs[newId]] && t.jobs[newId].id == newId && t.jobs[newId].runId == r
    requires t.jobs[newId].status.JobQueued? && t.jobs[newId].finishedAt.None? && t.jobs[newId].attempt >= 1
    requires t.runJobs == s.runJobs[r := Listed(s.runJobs, r) + [newId]] && t.deliveries == s.deliveries && t.claimed == s.claimed
    requires t.runs.Keys == s.runs.Keys && (forall q :: q in s.runs && q != r ==> t.runs[q] == s.runs[q])
    requires r in t.runs ==> !t.runs[r].status.IsTerminal() && t.runs[r].finishedAt.None? && RunGrows(s.runs[r], t.runs[r])
    requires r in t.runs ==> Reopened(s.runs[r].status, t.runs[r].status)
    requires t.byJobKey.Keys == s.byJobKey.Keys && Index(t.jobs, t.byJobKey)
    ensures Valid(t) && Grows(s, t)
  {
    RerequestShape(s, t, r, newId, t.jobs[newId]);
    RerequestClosed(s, t, r, newId);
    BoundKept(s.deliveries, s.runs, t.runs);
  }

  /** Rerequesting a job of a committed run gives the same attempt in every later
      state, whatever id would be minted then. */
  lemma RerequestStable(s: Store, id: JobRunID, now: Time, newId: JobRunID, later: Store, otherId: JobRunID)
    requires Valid(s) && Valid(later) && id in s.jobs && s.jobs[id].runId in s.runs && newId !in s.jobs
    requires Grows(RerequestJob(s, id, now, newId), later)
    ensures RerequestOutcomeOf(s, id, newId).Attempt?
    ensures RerequestOutcomeOf(later, id, otherId) == RerequestOutcomeOf(s, id, newId)
    ensures RerequestJob(later, id, now, otherId) == later
  {
    var orig := s.jobs[id];
    var t := RerequestJob(s, id, now, newId);
    var found := NextAttempt(s, orig, Listed(s.runJobs, orig.runId));
    RerequestKeeps(s, id, now, newId);
    var x := if found.Some? then found.value else newId;
    assert found.Some? ==> JobOk(s.runs.Keys, s.runJobs, s.jobs, x) && ListOk(s.runJobs, s.jobs, orig.runId);
    assert x in t.jobs && IsNextAttempt(t, orig, x) && t.jobs[x].runId == orig.runId;
    assert JobGrows(t.jobs[x], later.jobs[x]) && JobGrows(t.jobs[id], later.jobs[id]);
    assert RunsGrow(s.runs, t.runs) && RunsGrow(t.runs, later.runs);
    AttemptFound(later, id, x);
  }

  lemma AttemptFound(s: Store, id: JobRunID, x: JobRunID)
    requires Valid(s) && id in s.jobs && s.jobs[id].runId in s.runs
    requires IsNextAttempt(s, s.jobs[id], x) && s.jobs[x].runId == s.jobs[id].runId
    ensures NextAttempt(s, s.jobs[id], Listed(s.runJobs, s.jobs[id].runId)) == Some(x) && s.jobs[x].id == x
  {
    var orig := s.jobs[id];
    var r := orig.runId;
    assert JobOk(s.runs.Keys, s.runJobs, s.jobs, x);
    assert ListOk(s.runJobs, s.jobs, r);
    assert Keyed(s.jobs, s.byJobKey, id);
    assert HasKey(s.byJobKey, r, orig.intent.jobKey);
    var found := NextAttempt(s, orig, Listed(s.runJobs, r));
    var i :| 0 <= i < |s.runJobs[r]| && s.runJobs[r][i] == x;
    assert found.Some?;
    assert s.jobs[found.value].attempt == s.jobs[x].attempt;
  }

  // ---------------------------------------------------------------- claiming

  /** Every queue element is a queued job of the store. */
  ghost predicate Queued(jobs: Jobs, q: seq<JobRunID>) {
    && (forall i :: 0 <= i < |q| ==> q[i] in jobs && jobs[q[i]].status.JobQueued?)
    && (forall i, j :: 0 <= i < j < |q| ==> q[i] != q[j])
  }

  /** The requirement of the walk, as a fact of valid stores. */
  lemma WalkAllowed(s: Store, q: seq<JobRunID>)
    requires Valid(s) && Queued(s.jobs, q)
    ensures Walkable(s, q)
  {
    forall i | 0 <= i < |q|
      ensures ListedExist(s.runJobs, s.jobs.Keys, s.jobs[q[i]].runId)
    {
      RefreshKeeps(s, s.jobs[q[i]].runId, 0);
    }
  }

  lemma SkipLeavesRest(s: Store, q: seq<JobRunID>, now: Time)
    requires q != [] && Queued(s.jobs, q) && ListedExist(s.runJobs, s.jobs.Keys, s.jobs[q[0]].runId)
    ensures Queued(Skip(s, q[0], now).jobs, q[1..])
  {}

  lemma {:induction false} ClaimKeeps(s: Store, q: seq<JobRunID>, clock: Clock)
    requires Valid(s) && Queued(s.jobs, q)
    ensures Walkable(s, q)
    ensures Valid(ClaimFrom(s, q, clock).0) && Grows(s, ClaimFrom(s, q, clock).0)
    decreases |q|
  {
    WalkAllowed(s, q);
    if q != [] {
      if DependencyState(s, q[0]).DepsBlocked? {
        ClaimKeeps(s, q[1..], clock);
      } else if DependencyState(s, q[0]).DepsReady? || s.jobs[q[0]].intent.condition != "" {
        OnlyClaimed(s, s.claimed + {q[0]});
      } else {
        var t := Skip(s, q[0], clock(q[0]));
        SkipKeeps(s, q[0], clock(q[0]));
        SkipLeavesRest(s, q, clock(q[0]));
        ClaimKeeps(t, q[1..], clock);
        GrowsTransitive(s, t, ClaimFrom(t, q[1..], clock).0);
      }
    }
  }

  lemma OnlyClaimed(s: Store, c: set<JobRunID>)
    requires Valid(s) && c <= s.jobs.Keys
    ensures Valid(s.(claimed := c)) && Grows(s, s.(claimed := c))
  {}
}
