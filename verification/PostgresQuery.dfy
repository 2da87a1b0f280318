/** The dependency classifier of internal/storage/postgres/store.go: a query for
    the newest attempt per key, compared with the in-memory key index. */
module PostgresQuery {
  import opened Prelude
  import opened RunModel
  import opened StoreSpec
  import opened StoreInvariants
  import opened StoreHistory
  import opened StoreClaims
  import opened StoreLater
  import opened StoreWitness

  /** The rows of the query: attempts that are MAX(attempt) of their run and key. */
  ghost function Rows(jobs: Jobs, run: RunID, deps: seq<string>): set<JobRunID> {
    set id | id in jobs && jobs[id].runId == run && jobs[id].intent.jobKey in deps && IsNewest(jobs, id)
  }

  ghost predicate IsNewest(jobs: Jobs, id: JobRunID)
    requires id in jobs
  {
    forall j {:trigger jobs[j].attempt} ::
      j in jobs && jobs[j].runId == jobs[id].runId && jobs[j].intent.jobKey == jobs[id].intent.jobKey ==>
        jobs[j].attempt <= jobs[id].attempt
  }

  /** What the rows say, in whatever order they arrive. */
  ghost function Verdict(jobs: Jobs, rows: set<JobRunID>, wanted: nat): DepState
    requires forall id :: id in rows ==> id in jobs
  {
    if |rows| != wanted then DepsBlocked
    else if RowFails(jobs, rows) then DepsFailed
    else if exists id :: id in rows && !jobs[id].status.IsTerminal() then DepsBlocked
    else DepsReady
  }

  ghost function DepStateOf(s: Store, run: RunID, deps: seq<string>): DepState {
    if deps == [] then DepsReady else Verdict(s.jobs, Rows(s.jobs, run, deps), |deps|)
  }

  /** The classification loop over the fetched statuses. */
  method ClassifyRows(jobs: Jobs, rows: seq<JobRunID>, wanted: nat) returns (r: DepState)
    requires forall i :: 0 <= i < |rows| ==> rows[i] in jobs
    requires forall i, j :: 0 <= i < j < |rows| ==> rows[i] != rows[j]
    ensures r == Verdict(jobs, (set id | id in rows), wanted)
  {
    RowCount(rows);
    if |rows| != wanted { return DepsBlocked; }
    r := DepsReady;
    for k := 0 to |rows|
      invariant r.DepsReady? || r.DepsBlocked?
      invariant r.DepsBlocked? <==> exists i :: 0 <= i < k && !jobs[rows[i]].status.IsTerminal()
      invariant forall i :: 0 <= i < k ==> jobs[rows[i]].status.IsTerminal() ==> jobs[rows[i]].status.JobSucceeded?
    {
      var st := jobs[rows[k]].status;
      if st.JobSucceeded? {
      } else if st.IsTerminal() {
        return DepsFailed;
      } else {
        r := DepsBlocked;
      }
    }
  }

  lemma {:induction false} RowCount(rows: seq<JobRunID>)
    requires forall i, j :: 0 <= i < j < |rows| ==> rows[i] != rows[j]
    ensures |set id | id in rows| == |rows|
  {
    if rows != [] {
      var rest := rows[1..];
      RowCount(rest);
      assert (set id | id in rows) == (set id | id in rest) + {rows[0]};
      assert rows[0] !in rest;
    }
  }

  // ---------------------------------------------------------------- counting keys

  predicate Distinct(deps: seq<string>) {
    forall i, j :: 0 <= i < j < |deps| ==> deps[i] != deps[j]
  }

  lemma DistinctCons(deps: seq<string>)
    requires deps != []
    ensures Distinct(deps) <==> deps[0] !in deps[1..] && Distinct(deps[1..])
  {
    var rest := deps[1..];
    assert forall i :: 0 <= i < |rest| ==> rest[i] == deps[i + 1];
    if deps[0] !in rest && Distinct(rest) {
      forall i, j | 0 <= i < j < |deps|
        ensures deps[i] != deps[j]
      {
        assert deps[j] == rest[j - 1];
        assert i > 0 ==> deps[i] == rest[i - 1];
      }
    }
  }

  lemma {:induction false} ElementsCount(deps: seq<string>)
    ensures |set k | k in deps| <= |deps|
    ensures |set k | k in deps| == |deps| <==> Distinct(deps)
  {
    if deps != [] {
      var rest := deps[1..];
      ElementsCount(rest);
      DistinctCons(deps);
      var all, tail := set k | k in deps, set k | k in rest;
      assert all == tail + {deps[0]};
    }
  }

  lemma SubsetCount<T>(a: set<T>, b: set<T>)
    requires a <= b
    ensures |a| <= |b| && (|a| == |b| ==> a == b)
  {
    assert b == a + (b - a);
    assert |b| == |a| + |b - a|;
  }

  /** Distinct keys have distinct newest attempts. */
  lemma {:induction false} TopsCount(jobs: Jobs, keys: Keys, r: RunID, ks: set<string>)
    requires Index(jobs, keys) && r in keys && ks <= keys[r].Keys
    ensures |set k | k in ks :: keys[r][k]| == |ks|
    decreases |ks|
  {
    var tops := set k | k in ks :: keys[r][k];
    if ks != {} {
      var k :| k in ks;
      TopsCount(jobs, keys, r, ks - {k});
      var rest := set x | x in ks - {k} :: keys[r][x];
      assert tops == rest + {keys[r][k]};
      assert keys[r][k] !in rest by {
        if keys[r][k] in rest {
          var x :| x in ks - {k} && keys[r][x] == keys[r][k];
          assert HasKey(keys, r, x) && HasKey(keys, r, k);
        }
      }
    } else {
      assert tops == {};
    }
  }

  /** The key index names exactly the rows of the query. */
  lemma RowsAreTops(s: Store, r: RunID, deps: seq<string>)
    requires Valid(s) && r in s.runs
    ensures Rows(s.jobs, r, deps) == set k | k in deps && k in s.byJobKey[r] :: s.byJobKey[r][k]
  {
    var tops := set k | k in deps && k in s.byJobKey[r] :: s.byJobKey[r][k];
    var rows := Rows(s.jobs, r, deps);
    forall id | id in rows
      ensures id in tops
    {
      var k := s.jobs[id].intent.jobKey;
      assert Keyed(s.jobs, s.byJobKey, id);
      assert HasKey(s.byJobKey, r, k);
      var top := s.byJobKey[r][k];
      assert s.jobs[top].attempt <= s.jobs[id].attempt;
    }
    forall id | id in tops
      ensures id in rows
    {
      var k :| k in deps && k in s.byJobKey[r] && s.byJobKey[r][k] == id;
      assert HasKey(s.byJobKey, r, k);
    }
  }

  predicate Present(keys: Keys, r: RunID, deps: seq<string>) {
    forall i :: 0 <= i < |deps| ==> HasKey(keys, r, deps[i])
  }

  /** The query returns one row per dependency exactly when the keys are distinct and known. */
  lemma RowsComplete(s: Store, r: RunID, deps: seq<string>)
    requires Valid(s) && r in s.runs
    ensures |Rows(s.jobs, r, deps)| == |deps| <==> Distinct(deps) && Present(s.byJobKey, r, deps)
  {
    var all := set k | k in deps;
    var known := set k | k in deps && k in s.byJobKey[r];
    RowsAreTops(s, r, deps);
    TopsCount(s.jobs, s.byJobKey, r, known);
    assert Rows(s.jobs, r, deps) == set k | k in known :: s.byJobKey[r][k];
    ElementsCount(deps);
    SubsetCount(known, all);
    if Present(s.byJobKey, r, deps) { assert known == all; }
    if known == all {
      forall i | 0 <= i < |deps|
        ensures HasKey(s.byJobKey, r, deps[i])
      {
        assert deps[i] in all;
      }
    }
  }

  /** Rows and dependency positions are the same jobs. */
  lemma RowOfDep(s: Store, r: RunID, deps: seq<string>, i: nat)
    requires Valid(s) && r in s.runs && i < |deps| && HasKey(s.byJobKey, r, deps[i])
    ensures s.byJobKey[r][deps[i]] in Rows(s.jobs, r, deps)
  {
    RowsAreTops(s, r, deps);
    assert deps[i] in deps;
  }

  lemma DepOfRow(s: Store, r: RunID, deps: seq<string>, id: JobRunID) returns (i: nat)
    requires Valid(s) && r in s.runs && id in Rows(s.jobs, r, deps)
    ensures i < |deps| && HasKey(s.byJobKey, r, deps[i]) && s.byJobKey[r][deps[i]] == id
  {
    RowsAreTops(s, r, deps);
    var k :| k in deps && k in s.byJobKey[r] && s.byJobKey[r][k] == id;
    i :| 0 <= i < |deps| && deps[i] == k;
  }

  ghost predicate RowFails(jobs: Jobs, rows: set<JobRunID>)
    requires forall id :: id in rows ==> id in jobs
  {
    exists id :: id in rows && jobs[id].status.IsTerminal() && !jobs[id].status.JobSucceeded?
  }

  lemma FailureSeen(s: Store, r: RunID, deps: seq<string>, i: nat)
    requires Valid(s) && r in s.runs && i < |deps| && DepFailed(s, r, deps[i])
    ensures RowFails(s.jobs, Rows(s.jobs, r, deps))
  {
    RowOfDep(s, r, deps, i);
  }

  lemma FailureFound(s: Store, r: RunID, deps: seq<string>) returns (i: nat)
    requires Valid(s) && r in s.runs && RowFails(s.jobs, Rows(s.jobs, r, deps))
    ensures i < |deps| && DepFailed(s, r, deps[i])
  {
    var id :| id in Rows(s.jobs, r, deps) && s.jobs[id].status.IsTerminal() && !s.jobs[id].status.JobSucceeded?;
    i := DepOfRow(s, r, deps, id);
  }

  lemma FailuresAgree(s: Store, r: RunID, deps: seq<string>)
    requires Valid(s) && r in s.runs && Present(s.byJobKey, r, deps)
    ensures FailsAt(s, r, deps) <==> RowFails(s.jobs, Rows(s.jobs, r, deps))
  {
    if FailsAt(s, r, deps) {
      var i :| 0 <= i < |deps| && DepFailed(s, r, deps[i]);
      FailureSeen(s, r, deps, i);
    } else if RowFails(s.jobs, Rows(s.jobs, r, deps)) {
      var i := FailureFound(s, r, deps);
    }
  }

  lemma SuccessesAgree(s: Store, r: RunID, deps: seq<string>)
    requires Valid(s) && r in s.runs && Present(s.byJobKey, r, deps)
    ensures AllSucceeded(s, r, deps) <==> forall id :: id in Rows(s.jobs, r, deps) ==> s.jobs[id].status.JobSucceeded?
  {
    var rows := Rows(s.jobs, r, deps);
    if AllSucceeded(s, r, deps) {
      forall id | id in rows
        ensures s.jobs[id].status.JobSucceeded?
      {
        var i := DepOfRow(s, r, deps, id);
        assert NewestHas(s, r, deps[i], JobSucceeded);
      }
    }
    if forall id :: id in rows ==> s.jobs[id].status.JobSucceeded? {
      forall i | 0 <= i < |deps|
        ensures NewestHas(s, r, deps[i], JobSucceeded)
      {
        RowOfDep(s, r, deps, i);
      }
    }
  }

  /** With distinct known keys both classifiers agree. */
  lemma AgreeOnKnownKeys(s: Store, r: RunID, deps: seq<string>)
    requires Valid(s) && r in s.runs && deps != [] && Distinct(deps) && Present(s.byJobKey, r, deps)
    ensures ScanDeps(s, r, deps) == DepStateOf(s, r, deps)
  {
    RowsComplete(s, r, deps);
    ScanDepsMeaning(s, r, deps);
    FailuresAgree(s, r, deps);
    SuccessesAgree(s, r, deps);
  }

  /** The two stores classify alike exactly when the dependency keys are
      distinct and known, or no newest attempt has decided the matter yet: not
      all succeeded, and none ended otherwise before an unknown key is met. */
  lemma ClassifiersAgree(s: Store, r: RunID, deps: seq<string>)
    requires Valid(s) && r in s.runs && deps != []
    ensures ScanDeps(s, r, deps) == DepStateOf(s, r, deps) <==>
            (Distinct(deps) && Present(s.byJobKey, r, deps)) || !(AllSucceeded(s, r, deps) || FailsAt(s, r, deps))
  {
    RowsComplete(s, r, deps);
    ScanDepsMeaning(s, r, deps);
    if Distinct(deps) && Present(s.byJobKey, r, deps) {
      AgreeOnKnownKeys(s, r, deps);
    }
  }

  /** A repeated or unknown key makes the row count short in every later state,
      because a run never gains a key: the query blocks forever. */
  lemma BlocksForever(s: Store, ops: seq<Op>, t: Store, r: RunID, deps: seq<string>)
    requires Valid(s) && r in s.runs && Leads(s, ops, t) && deps != []
    requires !(Distinct(deps) && Present(s.byJobKey, r, deps))
    ensures DepStateOf(t, r, deps) == DepsBlocked
  {
    HistoryKeeps(s, ops, t);
    KeysFixed(s, ops, t, r);
    SamePresence(s.byJobKey, t.byJobKey, r, deps);
    RowsComplete(t, r, deps);
  }

  lemma SamePresence(a: Keys, b: Keys, r: RunID, deps: seq<string>)
    requires r in a && r in b && a[r].Keys == b[r].Keys
    ensures Present(a, r, deps) <==> Present(b, r, deps)
  {}

  /** Naming a need twice: ready in memory once it has succeeded, blocked in the query. */
  lemma RepeatedNeedDiffers(t: Store, r: RunID, k: string, deps: seq<string>)
    requires Valid(t) && r in t.runs && NewestHas(t, r, k, JobSucceeded) && deps == [k, k]
    ensures ScanDeps(t, r, deps) == DepsReady && DepStateOf(t, r, deps) == DepsBlocked
  {
    ScanDepsMeaning(t, r, deps);
    assert deps[0] == deps[1];
    RowsComplete(t, r, deps);
  }

  /** The two jobs of the run below. */
  lemma NeedSucceeds(build: JobIntent, test: JobIntent, r: RunID, a: JobRunID, b: JobRunID) returns (ops: seq<Op>, t: Store)
    requires build.jobKey != test.jobKey && a != b
    ensures From(ops, t) && r in t.runs && NewestHas(t, r, build.jobKey, JobSucceeded)
    ensures b in t.jobs && t.jobs[b].runId == r && t.jobs[b].intent == test
  {
    var before, s := TwoJobs(r, build, test, a, b);
    ops, t := Observes(before, s, a, PhaseSucceeded);
    NowSucceeded(s, t, r, build, test, a, b);
  }

  lemma NowSucceeded(s: Store, t: Store, r: RunID, build: JobIntent, test: JobIntent, a: JobRunID, b: JobRunID)
    requires a != b && TwoJobRun(s, r, build, test, a, b) && OnlyJob(s, t, a, Observed(s.jobs[a], JobSucceeded, 2))
    ensures r in t.runs && NewestHas(t, r, build.jobKey, JobSucceeded)
    ensures b in t.jobs && t.jobs[b].runId == r && t.jobs[b].intent == test
  {}

  /** A reachable run in which the two differ: a job that names its only need
      twice, once that need has succeeded. */
  lemma ClassifiersDiffer() returns (ops: seq<Op>, t: Store, r: RunID, id: JobRunID)
    ensures From(ops, t) && r in t.runs && id in t.jobs && t.jobs[id].runId == r && t.jobs[id].intent.dependsOn != []
    ensures ScanDeps(t, r, t.jobs[id].intent.dependsOn) == DepsReady
    ensures DepStateOf(t, r, t.jobs[id].intent.dependsOn) == DepsBlocked
  {
    var k := "build";
    var deps := [k, k];
    var build, test := JobIntent(k, "linux", [], map[], "", ""), JobIntent("test", "linux", deps, map[], "", "");
    r, id := "R", "B";
    ops, t := NeedSucceeds(build, test, r, "A", id);
    FromValid(ops, t);
    RepeatedNeedDiffers(t, r, k, deps);
  }
}
