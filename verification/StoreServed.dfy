/** What one claim does to every job of the queue, and who is served: a job whose
    needs are met is handed out unless an older one is. */
module StoreServed {
  import opened Prelude
  import opened RunModel
  import opened StoreSpec
  import opened StoreInvariants
  import opened StoreGrowth
  import opened StoreHistory
  import opened StoreClaims
  import Text

  /** The record of a job skipped at this time. */
  predicate SkippedAt(before: JobRecord, after: JobRecord, now: Time) {
    after == before.(status := JobSkipped, finishedAt := Some(now))
  }

  lemma SkipEffect(s: Store, id: JobRunID, now: Time)
    requires id in s.jobs && ListedExist(s.runJobs, s.jobs.Keys, s.jobs[id].runId)
    ensures var t := Skip(s, id, now);
            && t.jobs.Keys == s.jobs.Keys && SkippedAt(s.jobs[id], t.jobs[id], now)
            && (forall j :: j in s.jobs && j != id ==> t.jobs[j] == s.jobs[j])
            && t.byJobKey == s.byJobKey
  {}

  // ---------------------------------------------------------------- the walk, job by job

  /** The needs of the job at position k have failed when it is examined. */
  ghost predicate FailedWhenSeen(s: Store, q: seq<JobRunID>, clock: Clock, k: nat)
    requires k < |q|
  {
    NeedsFailed(At(s, q, clock, k), q[k])
  }

  /** Position k once it has been passed over. */
  ghost predicate PassedJob(s: Store, q: seq<JobRunID>, clock: Clock, k: nat, t: Store)
    requires k < |q|
  {
    && q[k] in s.jobs && q[k] in t.jobs
    && if FailedWhenSeen(s, q, clock, k) then SkippedAt(s.jobs[q[k]], t.jobs[q[k]], clock(q[k]))
       else t.jobs[q[k]] == s.jobs[q[k]]
  }

  ghost predicate PassedJobs(s: Store, q: seq<JobRunID>, clock: Clock, n: nat, t: Store)
    requires n <= |q|
  {
    && t.jobs.Keys == s.jobs.Keys && t.byJobKey == s.byJobKey
    && (forall k: nat {:trigger PassedJob(s, q, clock, k, t)} :: k < n ==> PassedJob(s, q, clock, k, t))
    && (forall id :: id in s.jobs && id !in q[..n] ==> t.jobs[id] == s.jobs[id])
  }

  /** The effect of examining one job that is not handed out. */
  ghost predicate Examined(u: Store, id: JobRunID, now: Time, t: Store) {
    && id in u.jobs && t.jobs.Keys == u.jobs.Keys && t.byJobKey == u.byJobKey
    && (forall j :: j in u.jobs && j != id ==> t.jobs[j] == u.jobs[j])
    && if NeedsFailed(u, id) then SkippedAt(u.jobs[id], t.jobs[id], now) else t.jobs[id] == u.jobs[id]
  }

  lemma PassExamines(u: Store, id: JobRunID, now: Time)
    requires id in u.jobs && ListedExist(u.runJobs, u.jobs.Keys, u.jobs[id].runId)
    ensures Examined(u, id, now, Pass(u, id, now))
  {
    SkipEffect(u, id, now);
  }

  lemma PassEffect(s: Store, u: Store, q: seq<JobRunID>, clock: Clock, n: nat, t: Store)
    requires n < |q| && Queued(s.jobs, q) && (NeedsFailed(u, q[n]) <==> FailedWhenSeen(s, q, clock, n)) && PassedJobs(s, q, clock, n, u)
    requires Examined(u, q[n], clock(q[n]), t)
    ensures PassedJobs(s, q, clock, n + 1, t)
  {
    assert q[..n + 1] == q[..n] + [q[n]];
    assert q[n] !in q[..n];
    forall k: nat | k < n + 1
      ensures PassedJob(s, q, clock, k, t)
    {
      if k < n { assert PassedJob(s, q, clock, k, u) && q[k] != q[n]; }
    }
  }

  ghost predicate Passing(s: Store, q: seq<JobRunID>, clock: Clock, n: nat) {
    n <= |q| && PassedJobs(s, q, clock, n, At(s, q, clock, n))
  }

  lemma {:induction false} AtEffect(s: Store, q: seq<JobRunID>, clock: Clock, n: nat)
    requires Valid(s) && Queued(s.jobs, q) && n <= |q|
    ensures Passing(s, q, clock, n)
    decreases n
  {
    if n == 0 {
      NoEffect(s, q, clock);
    } else {
      AtEffect(s, q, clock, n - 1);
      NextEffect(s, q, clock, n - 1);
    }
  }

  lemma NoEffect(s: Store, q: seq<JobRunID>, clock: Clock)
    ensures Passing(s, q, clock, 0)
  {}

  lemma NextEffect(s: Store, q: seq<JobRunID>, clock: Clock, n: nat)
    requires Valid(s) && Queued(s.jobs, q) && n < |q| && Passing(s, q, clock, n)
    ensures Passing(s, q, clock, n + 1)
  {
    StepExamines(s, q, clock, n);
    PassEffect(s, At(s, q, clock, n), q, clock, n, At(s, q, clock, n + 1));
  }

  lemma StepExamines(s: Store, q: seq<JobRunID>, clock: Clock, n: nat)
    requires Valid(s) && Queued(s.jobs, q) && n < |q|
    ensures Examined(At(s, q, clock, n), q[n], clock(q[n]), At(s, q, clock, n + 1))
  {
    AtStep(s, q, clock, n);
    AtKeeps(s, q, clock, n);
    var u := At(s, q, clock, n);
    RefreshKeeps(u, u.jobs[q[n]].runId, 0);
    PassExamines(u, q[n], clock(q[n]));
  }

  /** How far a claim got: the position handed out, or the length of the queue. */
  ghost predicate Reaches(s: Store, q: seq<JobRunID>, clock: Clock, got: Option<JobRunID>, n: nat) {
    match got
    case None => n == |q| && PassedOver(s, q, clock, n)
    case Some(id) => Picks(s, q, clock, n) && q[n] == id
  }

  /** The whole effect of a claim on jobs and claims: passed jobs whose needs have
      failed are skipped, each at its own time; the one handed out is claimed and
      otherwise as it was; no other job changes. */
  lemma ClaimEffect(s: Store, q: seq<JobRunID>, clock: Clock) returns (n: nat)
    requires Valid(s) && IsQueue(s.jobs, Candidates(s), q)
    ensures Walkable(s, q)
    ensures var (t, got) := ClaimFrom(s, q, clock);
            && n <= |q| && Reaches(s, q, clock, got, n) && PassedJobs(s, q, clock, n, t)
            && t.claimed == if got.Some? then s.claimed + {got.value} else s.claimed
  {
    ClaimPicksFirst(s, q, clock);
    QueueIsQueued(s, q);
    var (t, got) := ClaimFrom(s, q, clock);
    if got.Some? {
      n :| Picks(s, q, clock, n) && got.value == q[n] && t == At(s, q, clock, n).(claimed := s.claimed + {q[n]});
    } else {
      n := |q|;
    }
    AtEffect(s, q, clock, n);
    AtKeeps(s, q, clock, n);
    SameJobs(s, q, clock, n, At(s, q, clock, n), t);
  }

  lemma SameJobs(s: Store, q: seq<JobRunID>, clock: Clock, n: nat, u: Store, t: Store)
    requires n <= |q| && PassedJobs(s, q, clock, n, u) && t.jobs == u.jobs && t.byJobKey == u.byJobKey
    ensures PassedJobs(s, q, clock, n, t)
  {
    forall k: nat | k < n
      ensures PassedJob(s, q, clock, k, t)
    {
      assert PassedJob(s, q, clock, k, u);
    }
  }

  // ---------------------------------------------------------------- who is served

  /** Skips of queued jobs take no success away. */
  lemma MetStays(s: Store, q: seq<JobRunID>, clock: Clock, n: nat, t: Store, id: JobRunID)
    requires n <= |q| && Queued(s.jobs, q) && PassedJobs(s, q, clock, n, t) && NeedsMet(s, id) && t.jobs[id] == s.jobs[id]
    ensures NeedsMet(t, id)
  {
    var r, deps := s.jobs[id].runId, s.jobs[id].intent.dependsOn;
    forall i | 0 <= i < |deps|
      ensures NewestHas(t, r, deps[i], JobSucceeded)
    {
      assert NewestHas(s, r, deps[i], JobSucceeded);
      var dep := s.byJobKey[r][deps[i]];
      assert dep !in q[..n];
    }
  }

  /** Older, or as old and earlier by id. */
  predicate Older(a: JobRecord, b: JobRecord) {
    a.createdAt < b.createdAt || (a.createdAt == b.createdAt && Text.LexLess(a.id, b.id))
  }

  /** Whenever a claimable job has all its needs met, the claim hands out that job
      or an older one; so it is of every job without needs. */
  lemma ReadyIsServed(s: Store, q: seq<JobRunID>, clock: Clock, id: JobRunID)
    requires Valid(s) && IsQueue(s.jobs, Candidates(s), q)
    requires id in s.jobs && s.jobs[id].status.JobQueued? && id !in s.claimed && NeedsMet(s, id)
    ensures Walkable(s, q)
    ensures var got := ClaimFrom(s, q, clock).1;
            got.Some? && got.value in s.jobs && (got.value == id || Older(s.jobs[got.value], s.jobs[id]))
  {
    var n := ClaimEffect(s, q, clock);
    QueueIsQueued(s, q);
    assert id in Candidates(s);
    var p :| 0 <= p < |q| && q[p] == id;
    if n > p { MetWhenExamined(s, q, clock, p); }
    if n < p { OlderFirst(s, q, n, p); }
  }

  lemma MetWhenExamined(s: Store, q: seq<JobRunID>, clock: Clock, p: nat)
    requires Valid(s) && Queued(s.jobs, q) && p < |q| && NeedsMet(s, q[p])
    ensures !PassedAt(s, q, clock, p)
  {
    AtEffect(s, q, clock, p);
    assert q[p] !in q[..p];
    MetStays(s, q, clock, p, At(s, q, clock, p), q[p]);
  }

  lemma OlderFirst(s: Store, q: seq<JobRunID>, n: nat, p: nat)
    requires Valid(s) && IsQueue(s.jobs, Candidates(s), q) && n < p < |q|
    ensures q[n] in s.jobs && q[p] in s.jobs && Older(s.jobs[q[n]], s.jobs[q[p]])
  {
    assert Before(s.jobs, q[n], q[p]);
    assert JobOk(s.runs.Keys, s.runJobs, s.jobs, q[n]) && JobOk(s.runs.Keys, s.runJobs, s.jobs, q[p]);
  }
}
