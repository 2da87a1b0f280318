/** The in-memory durable store as the object it is: maps updated in place by
    methods, each proved to compute its StoreSpec function and to keep the
    invariant. The store lock makes every method one atomic step. */
module DurableStores {
  import opened Prelude
  import opened RunModel
  import S = StoreSpec
  import opened StoreInvariants
  import opened StoreGrowth
  import H = StoreHistory
  import C = StoreClaims
  import opened Sorting
  import Text

  /** Queue order, as a function on ids. */
  function QueueOrder(jobs: S.Jobs): ((JobRunID, JobRunID) -> bool) {
    (a: JobRunID, b: JobRunID) => a in jobs && b in jobs && S.Before(jobs, a, b)
  }

  lemma QueueOrderTotal(jobs: S.Jobs, xs: set<JobRunID>)
    requires xs <= jobs.Keys
    ensures TotalOn(QueueOrder(jobs), xs)
  {
    var less := QueueOrder(jobs);
    forall a, b | a in xs && b in xs && a != b
      ensures less(a, b) || less(b, a)
    {
      Text.LexLessTotal(a, b);
    }
    forall a, b, c | a in xs && b in xs && c in xs && less(a, b) && less(b, c)
      ensures less(a, c)
    {
      if jobs[a].createdAt == jobs[b].createdAt == jobs[c].createdAt { Text.LexLessTransitive(a, b, c); }
    }
  }

  /** There is one queue only, so a claim has one answer. */
  lemma QueueUnique(jobs: S.Jobs, ids: set<JobRunID>, p: seq<JobRunID>, q: seq<JobRunID>)
    requires S.IsQueue(jobs, ids, p) && S.IsQueue(jobs, ids, q)
    ensures p == q
  {
    var less := QueueOrder(jobs);
    forall x, y | x in p && y in p && less(x, y)
      ensures !less(y, x)
    {
      if jobs[x].createdAt == jobs[y].createdAt { Text.LexLessAsymmetric(x, y); }
    }
    SortedUnique(less, p, q);
  }

  lemma PrefixEnds(intents: seq<JobIntent>, i: nat)
    requires i <= |intents|
    requires forall a, b :: 0 <= a < b < i ==> intents[a].jobKey != intents[b].jobKey
    requires i < |intents| ==> exists a :: 0 <= a < i && intents[a].jobKey == intents[i].jobKey
    ensures S.DistinctPrefix(intents, |intents|) == i
  {
    S.DistinctPrefixMeaning(intents, |intents|);
  }

  lemma DistinctExtends(intents: seq<JobIntent>, ids: seq<JobRunID>, i: nat)
    requires i < |intents| && i < |ids|
    requires forall a, b :: 0 <= a < b < i ==> intents[a].jobKey != intents[b].jobKey
    requires intents[i].jobKey !in S.KeyIndex(intents, ids, i)
    ensures forall a, b :: 0 <= a < b < i + 1 ==> intents[a].jobKey != intents[b].jobKey
  {
    S.KeyIndexMeaning(intents, ids, i);
  }

  /** The claim loop in progress: from s, the rest of the queue still leads to `goal`. */
  ghost predicate Walking(s: S.Store, rest: seq<JobRunID>, clock: Clock, goal: (S.Store, Option<JobRunID>)) {
    Valid(s) && Queued(s.jobs, rest) && S.Walkable(s, rest) && S.ClaimFrom(s, rest, clock) == goal
  }

  lemma WalkingStart(s: S.Store, q: seq<JobRunID>, clock: Clock)
    requires Valid(s) && S.IsQueue(s.jobs, S.Candidates(s), q)
    ensures S.Walkable(s, q) && Walking(s, q, clock, S.ClaimFrom(s, q, clock))
  {
    H.QueueIsQueued(s, q);
    WalkAllowed(s, q);
  }

  lemma WalkingPast(s: S.Store, rest: seq<JobRunID>, clock: Clock, goal: (S.Store, Option<JobRunID>))
    requires rest != [] && Walking(s, rest, clock, goal) && S.DependencyState(s, rest[0]).DepsBlocked?
    ensures Walking(s, rest[1..], clock, goal)
  {
    WalkAllowed(s, rest[1..]);
  }

  lemma WalkingSkip(s: S.Store, rest: seq<JobRunID>, clock: Clock, goal: (S.Store, Option<JobRunID>))
    requires rest != [] && Walking(s, rest, clock, goal)
    requires S.DependencyState(s, rest[0]).DepsFailed? && s.jobs[rest[0]].intent.condition == ""
    ensures Walking(S.Skip(s, rest[0], clock(rest[0])), rest[1..], clock, goal)
  {
    SkipKeeps(s, rest[0], clock(rest[0]));
    SkipLeavesRest(s, rest, clock(rest[0]));
    WalkAllowed(S.Skip(s, rest[0], clock(rest[0])), rest[1..]);
  }

  lemma WalkingClaim(s: S.Store, rest: seq<JobRunID>, clock: Clock, goal: (S.Store, Option<JobRunID>))
    requires rest != [] && Walking(s, rest, clock, goal)
    requires !S.DependencyState(s, rest[0]).DepsBlocked?
    requires S.DependencyState(s, rest[0]).DepsFailed? ==> s.jobs[rest[0]].intent.condition != ""
    ensures goal == (s.(claimed := s.claimed + {rest[0]}), Some(rest[0]))
  {}

  /** The list holds a record of job id. */
  predicate Names(out: seq<JobRecord>, id: JobRunID) {
    exists i :: 0 <= i < |out| && out[i].id == id
  }

  lemma NamesConcat(a: seq<JobRecord>, b: seq<JobRecord>)
    ensures forall id :: Names(a + b, id) <==> Names(a, id) || Names(b, id)
  {
    forall id
      ensures Names(a + b, id) <==> Names(a, id) || Names(b, id)
    {
      if Names(a, id) {
        var i :| 0 <= i < |a| && a[i].id == id;
        assert (a + b)[i].id == id;
      }
      if Names(b, id) {
        var i :| 0 <= i < |b| && b[i].id == id;
        assert (a + b)[|a| + i].id == id;
      }
    }
  }

  ghost predicate ReadyOnly(s: S.Store, out: seq<JobRecord>) {
    forall i :: 0 <= i < |out| ==> S.GCReady(s, out[i].id) && out[i] == s.jobs[out[i].id]
  }

  /** Every collectable job of these runs is there. */
  ghost predicate ReadyAll(s: S.Store, out: seq<JobRecord>, rs: seq<RunID>) {
    forall id {:trigger S.GCReady(s, id)} :: S.GCReady(s, id) && s.jobs[id].runId in rs ==> Names(out, id)
  }

  lemma ReadyJoin(s: S.Store, out: seq<JobRecord>, more: seq<JobRecord>, rs: seq<RunID>, k: nat)
    requires k < |rs| && ReadyOnly(s, out) && ReadyOnly(s, more) && ReadyAll(s, out, rs[..k]) && ReadyAll(s, more, [rs[k]])
    ensures ReadyOnly(s, out + more) && ReadyAll(s, out + more, rs[..k + 1])
  {
    assert rs[..k + 1] == rs[..k] + [rs[k]];
    NamesConcat(out, more);
  }

  /** out holds the records of the queued jobs q, in queue order. */
  ghost predicate IsListing(jobs: S.Jobs, out: seq<JobRecord>, q: seq<JobRunID>) {
    && S.IsQueue(jobs, (set id | id in jobs && jobs[id].status.JobQueued?), q)
    && |out| == |q| && forall i :: 0 <= i < |q| ==> out[i] == jobs[q[i]]
  }

  predicate Once(out: seq<JobRecord>) {
    forall i, j :: 0 <= i < j < |out| ==> out[i].id != out[j].id
  }

  predicate FromRuns(out: seq<JobRecord>, rs: seq<RunID>) {
    forall i :: 0 <= i < |out| ==> out[i].runId in rs
  }

  /** Jobs of different runs are different jobs. */
  lemma OnceJoin(s: S.Store, out: seq<JobRecord>, more: seq<JobRecord>, rs: seq<RunID>, k: nat)
    requires k < |rs| && Sorted(Text.LexLess, rs) && ReadyOnly(s, out) && ReadyOnly(s, more)
    requires Once(out) && Once(more) && FromRuns(out, rs[..k]) && FromRuns(more, [rs[k]])
    ensures Once(out + more) && FromRuns(out + more, rs[..k + 1])
  {
    assert rs[..k + 1] == rs[..k] + [rs[k]];
    assert rs[k] !in rs[..k] by {
      forall i | 0 <= i < k
        ensures rs[..k][i] != rs[k]
      {
        Text.LexLessAsymmetric(rs[i], rs[k]);
      }
    }
    forall i, j | 0 <= i < |out| && 0 <= j < |more|
      ensures out[i].id != more[j].id
    {
      assert out[i].runId in rs[..k] && more[j].runId == rs[k];
    }
  }

  class DurableStore {
    var deliveries: Deliveries
    var runs: Runs
    var jobs: S.Jobs
    var runJobs: S.Lists
    var byJobKey: Keys
    var claimed: set<JobRunID>

    function View(): S.Store
      reads this
    {
      S.Store(deliveries, runs, jobs, runJobs, byJobKey, claimed)
    }

    constructor ()
      ensures View() == S.Empty && Valid(View())
    {
      deliveries, runs, jobs, runJobs, byJobKey, claimed := map[], map[], map[], map[], map[], {};
      new;
      H.EmptyValid();
    }

    method RecordDelivery(d: Delivery, now: Time) returns (rec: DeliveryRecord, created: bool)
      requires Valid(View())
      modifies this
      ensures Valid(View()) && View() == S.RecordDelivery(old(View()), d, now)
      ensures d.key in deliveries && rec == deliveries[d.key] && created == (d.key !in old(deliveries))
    {
      RecordKeeps(View(), d, now);
      if d.key in deliveries {
        return deliveries[d.key], false;
      }
      rec, created := S.Receipt(d, now), true;
      deliveries := deliveries[d.key := rec];
    }

    method CreateRun(seed: RunSeed, now: Time, runId: RunID, ids: seq<JobRunID>) returns (out: S.CreateOutcome)
      requires S.FreshIds(View(), seed, runId, ids)
      modifies this
      ensures View() == S.CreateRun(old(View()), seed, now, runId, ids)
      ensures out == S.CreateOutcomeOf(old(View()), seed, now, runId)
    {
      if seed.delivery in deliveries && deliveries[seed.delivery].runId.Some? {
        var r := deliveries[seed.delivery].runId.value;
        out := if r in runs then S.Existing(runs[r]) else S.RunMissing;
        return;
      }
      if seed.delivery !in deliveries {
        return S.NotRecorded;
      }
      if seed.jobs == [] {
        return S.NoJobs;
      }
      var keyIndex, dup := WriteJobs(seed, now, runId, ids);
      if dup.Some? {
        return S.DuplicateKey(dup.value);
      }
      out := S.Created(S.FreshRun(seed, runId, now));
      runs := runs[runId := out.run];
      runJobs := runJobs[runId := ids];
      byJobKey := byJobKey[runId := keyIndex];
      deliveries := deliveries[seed.delivery := deliveries[seed.delivery].(runId := Some(runId))];
    }

    /** The job-writing loop: records every job before it looks at the next key,
        stops at the first repeated key. */
    method WriteJobs(seed: RunSeed, now: Time, runId: RunID, ids: seq<JobRunID>)
      returns (keyIndex: map<string, JobRunID>, dup: Option<string>)
      requires S.FreshIds(View(), seed, runId, ids)
      modifies this`jobs
      ensures var k := S.DistinctPrefix(seed.jobs, |seed.jobs|);
              && jobs == S.AddJobs(old(jobs), seed.jobs, ids, runId, now, k)
              && keyIndex == S.KeyIndex(seed.jobs, ids, k)
              && dup == if k < |seed.jobs| then Some(seed.jobs[k].jobKey) else None
    {
      keyIndex := map[];
      for i := 0 to |seed.jobs|
        invariant forall a, b :: 0 <= a < b < i ==> seed.jobs[a].jobKey != seed.jobs[b].jobKey
        invariant jobs == S.AddJobs(old(jobs), seed.jobs, ids, runId, now, i)
        invariant keyIndex == S.KeyIndex(seed.jobs, ids, i)
      {
        var intent := seed.jobs[i];
        if intent.jobKey in keyIndex {
          S.KeyIndexMeaning(seed.jobs, ids, i);
          PrefixEnds(seed.jobs, i);
          return keyIndex, Some(intent.jobKey);
        }
        DistinctExtends(seed.jobs, ids, i);
        jobs := jobs[ids[i] := NewJob(ids[i], runId, intent, 1, now)];
        keyIndex := keyIndex[intent.jobKey := ids[i]];
      }
      PrefixEnds(seed.jobs, |seed.jobs|);
      dup := None;
    }

    /** Recomputes the aggregate of a run and moves it forward only. */
    method RefreshRun(runId: RunID, now: Time)
      requires S.ListedExist(runJobs, jobs.Keys, runId)
      modifies this`runs
      ensures View() == S.Refresh(old(View()), runId, now)
    {
      if runId !in runs || runs[runId].status.IsTerminal() {
        return;
      }
      var ids := S.Listed(runJobs, runId);
      var statuses: seq<JobStatus> := [];
      for i := 0 to |ids|
        invariant |statuses| == i && forall k :: 0 <= k < i ==> statuses[k] == jobs[ids[k]].status
      {
        statuses := statuses + [jobs[ids[i]].status];
      }
      assert statuses == S.Statuses(jobs, ids);
      var next := AggregateRunStatus(statuses);
      var run := runs[runId];
      if CanAdvanceRun(run.status, next) && next != run.status {
        run := run.(status := next);
        if next.IsTerminal() {
          run := run.(finishedAt := Some(now));
        }
        runs := runs[runId := run];
      }
    }

    /** Walks the dependency keys of a job through the key index. */
    method DependencyState(id: JobRunID) returns (state: S.DepState)
      ensures state == S.DependencyState(View(), id)
      ensures id in jobs ==> (state.DepsReady? <==> C.NeedsMet(View(), id)) && (state.DepsFailed? <==> C.NeedsFailed(View(), id))
    {
      if id in jobs { C.DependencyMeaning(View(), id); }
      if id !in jobs || jobs[id].intent.dependsOn == [] {
        return S.DepsReady;
      }
      var run, deps := jobs[id].runId, jobs[id].intent.dependsOn;
      state := S.DepsReady;
      for i := 0 to |deps|
        invariant state.DepsReady? || state.DepsBlocked?
        invariant S.ScanDeps(View(), run, deps) ==
                  if state.DepsReady? then S.ScanDeps(View(), run, deps[i..])
                  else if S.ScanDeps(View(), run, deps[i..]).DepsFailed? then S.DepsFailed else S.DepsBlocked
      {
        assert deps[i..][0] == deps[i] && deps[i..][1..] == deps[i + 1..];
        if run !in byJobKey || deps[i] !in byJobKey[run] {
          return S.DepsBlocked;
        }
        var dep := byJobKey[run][deps[i]];
        if dep in jobs && jobs[dep].status.JobSucceeded? {
        } else if dep in jobs && jobs[dep].status.IsTerminal() {
          return S.DepsFailed;
        } else {
          state := S.DepsBlocked;
        }
      }
    }

    /** The queued, unclaimed jobs, oldest first. */
    method Candidates() returns (q: seq<JobRunID>)
      ensures S.IsQueue(jobs, S.Candidates(View()), q)
    {
      var cands: set<JobRunID> := {};
      var rest := jobs.Keys;
      while rest != {}
        invariant rest <= jobs.Keys
        invariant forall id :: id in cands <==> id in jobs.Keys - rest && S.Claimable(View(), id)
        decreases |rest|
      {
        var id :| id in rest;
        if jobs[id].status.JobQueued? && id !in claimed {
          cands := cands + {id};
        }
        rest := rest - {id};
      }
      QueueOrderTotal(jobs, cands);
      q := SortSet(cands, QueueOrder(jobs));
      forall i | 0 <= i < |q|
        ensures q[i] in jobs
      {
        assert q[i] in q;
      }
    }

    /** Hands out the oldest eligible job; jobs whose dependencies failed are
        skipped on the way. */
    method ClaimNextQueuedJob(clock: Clock) returns (got: Option<JobRecord>, ghost q: seq<JobRunID>)
      requires Valid(View())
      modifies this
      ensures H.Legal(old(View()), H.OpClaim(q, clock)) && View() == H.Step(old(View()), H.OpClaim(q, clock))
      ensures S.Walkable(old(View()), q)
      ensures match S.ClaimFrom(old(View()), q, clock).1
              case None => got.None?
              case Some(id) => id in jobs && got == Some(jobs[id])
    {
      var queue := Candidates();
      q := queue;
      WalkingStart(View(), q, clock);
      ghost var goal := S.ClaimFrom(View(), q, clock);
      for i := 0 to |queue|
        invariant Walking(View(), queue[i..], clock, goal)
      {
        var pick := queue[i];
        ghost var rest := queue[i..];
        assert rest[0] == pick && rest[1..] == queue[i + 1..];
        var state := DependencyState(pick);
        if state.DepsBlocked? {
          WalkingPast(View(), rest, clock, goal);
          continue;
        }
        if state.DepsFailed? && jobs[pick].intent.condition == "" {
          WalkingSkip(View(), rest, clock, goal);
          SkipJob(pick, clock(pick));
          continue;
        }
        WalkingClaim(View(), rest, clock, goal);
        claimed := claimed + {pick};
        return Some(jobs[pick]), q;
      }
      got := None;
    }

    method SkipJob(id: JobRunID, now: Time)
      requires id in jobs && S.ListedExist(runJobs, jobs.Keys, jobs[id].runId)
      modifies this`jobs, this`runs
      ensures View() == S.Skip(old(View()), id, now)
    {
      jobs := jobs[id := jobs[id].(status := JobSkipped, finishedAt := Some(now))];
      RefreshRun(jobs[id].runId, now);
    }

    method ReleaseClaim(id: JobRunID)
      modifies this`claimed
      ensures View() == S.ReleaseClaim(old(View()), id)
    {
      claimed := claimed - {id};
    }

    method AckDispatched(id: JobRunID, obj: S.ActiveObject, now: Time) returns (out: S.AckOutcome)
      modifies this`jobs, this`claimed
      ensures View() == S.AckDispatched(old(View()), id, obj, now)
      ensures out == S.AckOutcomeOf(old(View()), id, obj)
    {
      if id !in jobs {
        return S.AckUnknownJob;
      }
      var job := jobs[id];
      match job.status {
        case JobDispatched =>
          if job.activeName != "" && job.activeName != obj.name {
            return S.AckOtherName;
          }
        case JobQueued =>
          job := job.(status := JobDispatched);
        case _ =>
          return S.AckNotDispatchable;
      }
      job := job.(activeName := obj.name, activeUid := obj.uid, dispatchedAt := Some(now));
      jobs := jobs[id := job];
      claimed := claimed - {id};
      out := S.Acked;
    }

    /** Projects an observed phase; false only for an unknown job. */
    method ApplyObserved(id: JobRunID, phase: Phase, now: Time) returns (found: bool)
      requires id in jobs ==> S.ListedExist(runJobs, jobs.Keys, jobs[id].runId)
      modifies this`jobs, this`runs
      ensures View() == S.ApplyObserved(old(View()), id, phase, now)
      ensures found == (id in old(jobs))
    {
      if id !in jobs {
        return false;
      }
      found := true;
      var job := jobs[id];
      if job.status.IsTerminal() {
        return;
      }
      var target := JobStatusFromPhase(phase);
      if target.Some? {
        if !CanAdvanceJob(job.status, target.value) {
          return;
        }
        job := job.(status := target.value);
        match target.value {
          case JobRunning =>
            job := job.(startedAt := Some(now));
          case _ =>
            job := job.(startedAt := if job.startedAt.Some? then job.startedAt else Some(now), finishedAt := Some(now));
        }
        jobs := jobs[id := job];
      }
      RefreshRun(job.runId, now);
    }

    method CancelRun(runId: RunID, now: Time) returns (out: S.CancelOutcome)
      requires S.ListedExist(runJobs, jobs.Keys, runId)
      modifies this`jobs, this`runs, this`claimed
      ensures View() == S.CancelRun(old(View()), runId, now)
      ensures out == S.CancelOutcomeOf(old(View()), runId)
    {
      if runId !in runs {
        return S.CancelUnknownRun;
      }
      if runs[runId].status.IsTerminal() {
        return if runs[runId].status.RunCancelled? then S.CancelDone else S.CancelAlreadyTerminal;
      }
      var ids := S.Listed(runJobs, runId);
      for i := 0 to |ids|
        invariant runs == old(runs) && jobs == S.CancelJobs(old(jobs), ids[..i], now)
        invariant claimed == old(claimed) - set id | id in ids[..i]
      {
        assert ids[..i + 1] == ids[..i] + [ids[i]];
        var job := jobs[ids[i]];
        if CanTransitionJob(job.status, JobCancelled) {
          jobs := jobs[ids[i] := job.(status := JobCancelled, finishedAt := Some(now))];
        }
        claimed := claimed - {ids[i]};
      }
      assert ids[..|ids|] == ids;
      runs := runs[runId := runs[runId].(status := RunCancelled, finishedAt := Some(now))];
      out := S.CancelDone;
    }

    method RerequestJob(id: JobRunID, now: Time, newId: JobRunID) returns (out: S.RerequestOutcome)
      modifies this
      ensures View() == S.RerequestJob(old(View()), id, now, newId)
      ensures out == S.RerequestOutcomeOf(old(View()), id, newId)
    {
      if id !in jobs {
        return S.RerequestUnknownJob;
      }
      var orig := jobs[id];
      var ids := S.Listed(runJobs, orig.runId);
      for i := 0 to |ids|
        invariant S.NextAttempt(View(), orig, ids) == S.NextAttempt(View(), orig, ids[i..])
      {
        assert ids[i..][0] == ids[i] && ids[i..][1..] == ids[i + 1..];
        if S.IsNextAttempt(View(), orig, ids[i]) {
          return S.Attempt(jobs[ids[i]].id);
        }
      }
      jobs := jobs[newId := NewJob(newId, orig.runId, orig.intent, orig.attempt + 1, now)];
      runJobs := runJobs[orig.runId := S.Listed(runJobs, orig.runId) + [newId]];
      if orig.runId !in byJobKey {
        return S.NilMapPanic;
      }
      byJobKey := byJobKey[orig.runId := byJobKey[orig.runId][orig.intent.jobKey := newId]];
      if orig.runId in runs && runs[orig.runId].status.IsTerminal() {
        runs := runs[orig.runId := runs[orig.runId].(status := RunQueued, finishedAt := None)];
      }
      out := S.Attempt(newId);
    }

    method MarkCollected(id: JobRunID, now: Time) returns (found: bool)
      modifies this`jobs
      ensures View() == S.MarkCollected(old(View()), id, now)
      ensures found == (id in old(jobs))
    {
      if id !in jobs {
        return false;
      }
      if jobs[id].collectedAt.None? {
        jobs := jobs[id := jobs[id].(collectedAt := Some(now))];
      }
      found := true;
    }

    /** All queued jobs, oldest first. */
    method ListQueuedJobs() returns (out: seq<JobRecord>)
      ensures exists q :: IsListing(jobs, out, q)
    {
      var queued: set<JobRunID> := {};
      var rest := jobs.Keys;
      while rest != {}
        invariant rest <= jobs.Keys
        invariant forall id :: id in queued <==> id in jobs.Keys - rest && jobs[id].status.JobQueued?
        decreases |rest|
      {
        var id :| id in rest;
        if jobs[id].status.JobQueued? {
          queued := queued + {id};
        }
        rest := rest - {id};
      }
      QueueOrderTotal(jobs, queued);
      var ids := SortSet(queued, QueueOrder(jobs));
      forall i | 0 <= i < |ids|
        ensures ids[i] in jobs
      {
        assert ids[i] in ids;
      }
      out := [];
      for i := 0 to |ids|
        invariant |out| == i && forall k :: 0 <= k < i ==> out[k] == jobs[ids[k]]
      {
        out := out + [jobs[ids[i]]];
      }
      assert IsListing(jobs, out, ids);
    }

    method ListJobRuns(runId: RunID) returns (out: Option<seq<JobRecord>>)
      requires S.ListedExist(runJobs, jobs.Keys, runId)
      ensures out.Some? <==> runId in runs
      ensures out.Some? ==> |out.value| == |S.Listed(runJobs, runId)|
                            && forall i :: 0 <= i < |out.value| ==> out.value[i] == jobs[S.Listed(runJobs, runId)[i]]
    {
      if runId !in runs {
        return None;
      }
      var ids := S.Listed(runJobs, runId);
      var recs: seq<JobRecord> := [];
      for i := 0 to |ids|
        invariant |recs| == i && forall k :: 0 <= k < i ==> recs[k] == jobs[ids[k]]
      {
        recs := recs + [jobs[ids[i]]];
      }
      out := Some(recs);
    }

    /** The jobs the collector may act on, run by run in id order. */
    method ListGCReadyJobs() returns (out: seq<JobRecord>)
      requires Shape(View())
      ensures forall i :: 0 <= i < |out| ==> S.GCReady(View(), out[i].id) && out[i] == jobs[out[i].id]
      ensures forall id :: S.GCReady(View(), id) ==> Names(out, id)
      ensures Once(out)
    {
      var order := SortStrings(runs.Keys);
      out := [];
      ghost var s := View();
      for k := 0 to |order|
        invariant ReadyOnly(s, out) && ReadyAll(s, out, order[..k]) && Once(out) && FromRuns(out, order[..k])
      {
        assert order[k] in order;
        var more := GCReadyOf(order[k]);
        ReadyJoin(s, out, more, order, k);
        OnceJoin(s, out, more, order, k);
        out := out + more;
      }
      assert order[..|order|] == order;
      forall id | S.GCReady(s, id)
        ensures Names(out, id)
      {
        assert s.jobs[id].runId in order;
      }
    }

    method GCReadyOf(runId: RunID) returns (out: seq<JobRecord>)
      requires Shape(View()) && runId in runs
      ensures forall i :: 0 <= i < |out| ==> S.GCReady(View(), out[i].id) && out[i] == jobs[out[i].id]
      ensures forall id :: S.GCReady(View(), id) && jobs[id].runId == runId ==> Names(out, id)
      ensures Once(out) && FromRuns(out, [runId])
    {
      out := [];
      if !runs[runId].status.IsTerminal() {
        return;
      }
      assert ListOk(runJobs, jobs, runId);
      var ids := runJobs[runId];
      ghost var s := View();
      for k := 0 to |ids|
        invariant forall i :: 0 <= i < |out| ==> S.GCReady(s, out[i].id) && out[i] == jobs[out[i].id]
        invariant forall id :: S.GCReady(s, id) && id in ids[..k] ==> Names(out, id)
        invariant Once(out) && FromRuns(out, [runId]) && forall i :: 0 <= i < |out| ==> out[i].id in ids[..k]
      {
        assert JobOk(runs.Keys, runJobs, jobs, ids[k]) && ids[..k + 1] == ids[..k] + [ids[k]];
        var job := jobs[ids[k]];
        if job.status.IsTerminal() && job.collectedAt.None? {
          NamesConcat(out, [job]);
          assert [job][0].id == ids[k];
          out := out + [job];
        }
      }
      assert ids[..|ids|] == ids;
      forall id | S.GCReady(s, id) && jobs[id].runId == runId
        ensures Names(out, id)
      {
        assert JobOk(runs.Keys, runJobs, jobs, id);
      }
    }
  }

  /** The Kubernetes side: one object per job id, created or found by id. */
  class ActiveStore {
    var objects: map<JobRunID, S.ActiveObject>
    var uids: map<string, string>
    var createCalls: nat
    var deleteCalls: nat
    var created: nat

    constructor ()
      ensures objects == map[] && uids == map[] && createCalls == deleteCalls == created == 0
    {
      objects, uids, createCalls, deleteCalls, created := map[], map[], 0, 0, 0;
    }

    /** Returns the object of the job, inserting it only if it is missing. */
    method CreateOrGet(id: JobRunID) returns (obj: S.ActiveObject)
      requires forall k :: k in uids ==> uids[k] == "uid-" + k
      modifies this
      ensures forall k :: k in uids ==> uids[k] == "uid-" + k
      ensures objects == (if id in old(objects) then old(objects) else old(objects)[id := S.ObjectOf(id)])
      ensures obj == objects[id] && deleteCalls == old(deleteCalls) && createCalls == old(createCalls) + 1
      ensures created == old(created) + (if id in old(objects) then 0 else 1)
    {
      createCalls := createCalls + 1;
      if id in objects {
        return objects[id];
      }
      created := created + 1;
      var name := S.CRName(id);
      var uid := if name in uids then uids[name] else "";
      if uid == "" {
        uid := "uid-" + name;
        uids := uids[name := uid];
      }
      obj := S.ActiveObject(name, uid);
      objects := objects[id := obj];
    }

    /** Deleting a missing object succeeds. */
    method Delete(id: JobRunID)
      modifies this`objects, this`deleteCalls
      ensures objects == old(objects) - {id} && deleteCalls == old(deleteCalls) + 1
    {
      deleteCalls := deleteCalls + 1;
      objects := objects - {id};
    }
  }
}
