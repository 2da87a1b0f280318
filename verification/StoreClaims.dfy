/** Who gets a job and when: dependency classification, the queue walk, and
    the bound on hand-outs over whole histories. */
module StoreClaims {
  import opened Prelude
  import opened RunModel
  import opened StoreSpec
  import opened StoreInvariants
  import opened StoreGrowth
  import opened StoreHistory

  // ---------------------------------------------------------------- dependency classification

  /** The newest attempt of key k in run r has status st. */
  predicate NewestHas(s: Store, r: RunID, k: string, st: JobStatus) {
    HasKey(s.byJobKey, r, k) && s.byJobKey[r][k] in s.jobs && s.jobs[s.byJobKey[r][k]].status == st
  }

  /** Known key whose newest attempt ended without success. */
  predicate DepFailed(s: Store, r: RunID, k: string) {
    NewestHas(s, r, k, JobFailed) || NewestHas(s, r, k, JobCancelled) || NewestHas(s, r, k, JobSkipped)
  }

  /** Some dependency failed, with no unknown key before it. */
  ghost predicate FailsAt(s: Store, r: RunID, deps: seq<string>) {
    exists i :: 0 <= i < |deps| && DepFailed(s, r, deps[i]) && forall j :: 0 <= j < i ==> HasKey(s.byJobKey, r, deps[j])
  }

  ghost predicate AllSucceeded(s: Store, r: RunID, deps: seq<string>) {
    forall i :: 0 <= i < |deps| ==> NewestHas(s, r, deps[i], JobSucceeded)
  }

  /** Ready means every dependency's newest attempt succeeded; failed means some
      dependency failed with no unknown key before it; everything else blocks. */
  lemma {:induction false} ScanDepsMeaning(s: Store, r: RunID, deps: seq<string>)
    ensures ScanDeps(s, r, deps).DepsReady? <==> AllSucceeded(s, r, deps)
    ensures ScanDeps(s, r, deps).DepsFailed? <==> FailsAt(s, r, deps)
  {
    if deps != [] {
      var rest := deps[1..];
      ScanDepsMeaning(s, r, rest);
      FailedShift(s, r, deps);
      assert AllSucceeded(s, r, deps) <==> NewestHas(s, r, deps[0], JobSucceeded) && AllSucceeded(s, r, rest) by {
        assert deps == [deps[0]] + rest;
      }
    }
  }

  /** One step of the failed clause: the head fails, or is known and the tail fails. */
  lemma FailedShift(s: Store, r: RunID, deps: seq<string>)
    requires deps != []
    ensures FailsAt(s, r, deps) <==> DepFailed(s, r, deps[0]) || (HasKey(s.byJobKey, r, deps[0]) && FailsAt(s, r, deps[1..]))
  {
    var rest := deps[1..];
    if FailsAt(s, r, deps) && !DepFailed(s, r, deps[0]) {
      var i :| 0 <= i < |deps| && DepFailed(s, r, deps[i]) && forall j :: 0 <= j < i ==> HasKey(s.byJobKey, r, deps[j]);
      assert rest[i - 1] == deps[i] && forall j :: 0 <= j < i - 1 ==> rest[j] == deps[j + 1];
    }
    if HasKey(s.byJobKey, r, deps[0]) && FailsAt(s, r, rest) {
      var i :| 0 <= i < |rest| && DepFailed(s, r, rest[i]) && forall j :: 0 <= j < i ==> HasKey(s.byJobKey, r, rest[j]);
      forall j | 0 <= j < i + 1
        ensures HasKey(s.byJobKey, r, deps[j])
      {
        assert j > 0 ==> deps[j] == rest[j - 1];
      }
      assert deps[i + 1] == rest[i];
    }
  }

  /** Every need of the job has succeeded; so it is of a job without needs. */
  ghost predicate NeedsMet(s: Store, id: JobRunID) {
    id in s.jobs && AllSucceeded(s, s.jobs[id].runId, s.jobs[id].intent.dependsOn)
  }

  /** Some need of the job ended otherwise, with no unknown key before it. */
  ghost predicate NeedsFailed(s: Store, id: JobRunID) {
    id in s.jobs && FailsAt(s, s.jobs[id].runId, s.jobs[id].intent.dependsOn)
  }

  /** What the classifier says of a job. */
  lemma DependencyMeaning(s: Store, id: JobRunID)
    requires id in s.jobs
    ensures DependencyState(s, id).DepsReady? <==> NeedsMet(s, id)
    ensures DependencyState(s, id).DepsFailed? <==> NeedsFailed(s, id)
  {
    ScanDepsMeaning(s, s.jobs[id].runId, s.jobs[id].intent.dependsOn);
  }

  // ---------------------------------------------------------------- the queue walk

  /** May be handed out: needs met, or failed with a condition left to decide. */
  ghost predicate Eligible(s: Store, id: JobRunID) {
    NeedsMet(s, id) || (NeedsFailed(s, id) && s.jobs[id].intent.condition != "")
  }

  /** Examining a job that is not handed out: skipped if its needs failed. */
  ghost function Pass(s: Store, id: JobRunID, now: Time): Store {
    if NeedsFailed(s, id) && ListedExist(s.runJobs, s.jobs.Keys, s.jobs[id].runId) then Skip(s, id, now) else s
  }

  /** The store when queue position i is examined: the skips of positions before i are in. */
  ghost function At(s: Store, q: seq<JobRunID>, clock: Clock, i: nat): Store
    requires i <= |q|
  {
    if i == 0 then s else Pass(At(s, q, clock, i - 1), q[i - 1], clock(q[i - 1]))
  }

  lemma SameShapeTransitive(s: Store, t: Store, u: Store)
    requires SameShape(s, t) && SameShape(t, u)
    ensures SameShape(s, u)
  {}

  lemma PassKeeps(s: Store, id: JobRunID, now: Time)
    requires Valid(s) && id in s.jobs && s.jobs[id].status.JobQueued?
    ensures Valid(Pass(s, id, now)) && SameShape(s, Pass(s, id, now)) && Pass(s, id, now).claimed == s.claimed
    ensures forall j :: j in s.jobs && j != id ==> Pass(s, id, now).jobs[j] == s.jobs[j]
  {
    SkipKeeps(s, id, now);
    PassFrame(s, id, now);
  }

  lemma PassFrame(s: Store, id: JobRunID, now: Time)
    ensures Pass(s, id, now).claimed == s.claimed && Pass(s, id, now).jobs.Keys == s.jobs.Keys
    ensures forall j :: j in s.jobs && j != id ==> Pass(s, id, now).jobs[j] == s.jobs[j]
  {}

  /** t is s after skips among the first i queue elements. */
  ghost predicate Skipped(s: Store, q: seq<JobRunID>, i: nat, t: Store)
    requires i <= |q|
  {
    && Valid(t) && SameShape(s, t) && t.claimed == s.claimed
    && (forall id :: id in s.jobs && id !in q[..i] ==> t.jobs[id] == s.jobs[id])
  }

  lemma SkippedStep(s: Store, q: seq<JobRunID>, i: nat, u: Store, now: Time, t: Store)
    requires i < |q| && Queued(s.jobs, q) && Skipped(s, q, i, u) && t == Pass(u, q[i], now)
    ensures Skipped(s, q, i + 1, t)
  {
    assert q[..i + 1] == q[..i] + [q[i]];
    assert q[i] !in q[..i];
    PassKeeps(u, q[i], now);
    SameShapeTransitive(s, u, t);
  }

  lemma {:induction false} AtKeeps(s: Store, q: seq<JobRunID>, clock: Clock, i: nat)
    requires Valid(s) && Queued(s.jobs, q) && i <= |q|
    ensures Skipped(s, q, i, At(s, q, clock, i))
    decreases i
  {
    if i == 0 {
      SkippedStart(s, q);
    } else {
      AtKeeps(s, q, clock, i - 1);
      NextSkipped(s, q, clock, i - 1);
    }
  }

  lemma NextSkipped(s: Store, q: seq<JobRunID>, clock: Clock, i: nat)
    requires Queued(s.jobs, q) && i < |q| && Skipped(s, q, i, At(s, q, clock, i))
    ensures Skipped(s, q, i + 1, At(s, q, clock, i + 1))
  {
    AtStep(s, q, clock, i);
    SkippedStep(s, q, i, At(s, q, clock, i), clock(q[i]), At(s, q, clock, i + 1));
  }

  lemma AtStep(s: Store, q: seq<JobRunID>, clock: Clock, i: nat)
    requires i < |q|
    ensures At(s, q, clock, i + 1) == Pass(At(s, q, clock, i), q[i], clock(q[i]))
  {}

  lemma SkippedStart(s: Store, q: seq<JobRunID>)
    requires Valid(s)
    ensures Skipped(s, q, 0, s)
  {}

  ghost predicate PassedAt(s: Store, q: seq<JobRunID>, clock: Clock, k: nat)
    requires k < |q|
  {
    !Eligible(At(s, q, clock, k), q[k])
  }

  /** None of the first n positions is eligible when examined. */
  ghost predicate PassedOver(s: Store, q: seq<JobRunID>, clock: Clock, n: nat)
    requires n <= |q|
  {
    forall k: nat {:trigger PassedAt(s, q, clock, k)} :: k < n ==> PassedAt(s, q, clock, k)
  }

  /** Position p is the first that is eligible when examined. */
  ghost predicate Picks(s: Store, q: seq<JobRunID>, clock: Clock, p: nat) {
    && p < |q| && Eligible(At(s, q, clock, p), q[p])
    && PassedOver(s, q, clock, p)
  }

  /** What a walk over q hands out and leaves behind. */
  ghost predicate WalkResult(s: Store, q: seq<JobRunID>, clock: Clock, r: (Store, Option<JobRunID>)) {
    match r.1
    case None => r.0 == At(s, q, clock, |q|) && PassedOver(s, q, clock, |q|)
    case Some(x) => exists p: nat :: Picks(s, q, clock, p) && x == q[p] && r.0 == At(s, q, clock, p).(claimed := s.claimed + {x})
  }

  lemma StillQueued(s: Store, q: seq<JobRunID>, clock: Clock, i: nat)
    requires Valid(s) && Queued(s.jobs, q) && i <= |q|
    ensures Queued(At(s, q, clock, i).jobs, q[i..])
  {
    AtKeeps(s, q, clock, i);
    forall k | 0 <= k < |q[i..]|
      ensures q[i..][k] in At(s, q, clock, i).jobs && At(s, q, clock, i).jobs[q[i..][k]].status.JobQueued?
    {
      assert q[i..][k] == q[i + k] && q[i + k] !in q[..i];
    }
  }

  /** Every position of the queue can be examined. */
  ghost predicate AlwaysWalkable(s: Store, q: seq<JobRunID>, clock: Clock) {
    forall i: nat {:trigger At(s, q, clock, i)} :: i <= |q| ==>
      Walkable(At(s, q, clock, i), q[i..]) && At(s, q, clock, i).claimed == s.claimed
  }

  /** The walk over the rest of the queue, from the store that position i sees. */
  ghost predicate WalkedFrom(s: Store, q: seq<JobRunID>, clock: Clock, i: nat, u: Store)
    requires i <= |q|
  {
    Walkable(u, q[i..]) && WalkResult(s, q, clock, ClaimFrom(u, q[i..], clock))
  }

  lemma {:induction false} WalkFrom(s: Store, q: seq<JobRunID>, clock: Clock, i: nat)
    requires AlwaysWalkable(s, q, clock) && i <= |q|
    requires PassedOver(s, q, clock, i)
    ensures WalkedFrom(s, q, clock, i, At(s, q, clock, i))
    decreases |q| - i
  {
    var u := At(s, q, clock, i);
    assert Walkable(u, q[i..]) && u.claimed == s.claimed;
    if i == |q| {
      WalkEnd(s, q, clock);
    } else if Eligible(u, q[i]) {
      WalkPick(s, q, clock, i);
    } else {
      assert PassedAt(s, q, clock, i);
      WalkFrom(s, q, clock, i + 1);
      WalkOver(s, q, clock, i, u);
    }
  }

  lemma WalkEnd(s: Store, q: seq<JobRunID>, clock: Clock)
    requires PassedOver(s, q, clock, |q|)
    ensures WalkedFrom(s, q, clock, |q|, At(s, q, clock, |q|))
  {}

  lemma WalkPick(s: Store, q: seq<JobRunID>, clock: Clock, i: nat)
    requires i < |q| && Eligible(At(s, q, clock, i), q[i])
    requires Walkable(At(s, q, clock, i), q[i..]) && At(s, q, clock, i).claimed == s.claimed
    requires PassedOver(s, q, clock, i)
    ensures WalkedFrom(s, q, clock, i, At(s, q, clock, i))
  {
    assert [q[i]] + q[i + 1..] == q[i..];
    OneClaim(At(s, q, clock, i), q[i], q[i + 1..], clock);
    assert Picks(s, q, clock, i);
  }

  lemma WalkOver(s: Store, q: seq<JobRunID>, clock: Clock, i: nat, u: Store)
    requires i < |q| && u == At(s, q, clock, i) && !Eligible(u, q[i])
    requires Walkable(u, q[i..]) && WalkedFrom(s, q, clock, i + 1, At(s, q, clock, i + 1))
    ensures WalkedFrom(s, q, clock, i, u)
  {
    assert [q[i]] + q[i + 1..] == q[i..];
    OneStep(u, q[i], q[i + 1..], clock);
  }

  lemma OneClaim(s: Store, id: JobRunID, rest: seq<JobRunID>, clock: Clock)
    requires Walkable(s, [id] + rest) && Eligible(s, id)
    ensures ClaimFrom(s, [id] + rest, clock) == (s.(claimed := s.claimed + {id}), Some(id))
  {
    DependencyMeaning(s, id);
  }

  /** The claim hands out the first job, oldest first and ties by id, that is
      neither blocked nor skipped when it is examined. */
  lemma ClaimPicksFirst(s: Store, q: seq<JobRunID>, clock: Clock)
    requires Valid(s) && IsQueue(s.jobs, Candidates(s), q)
    ensures Walkable(s, q) && WalkResult(s, q, clock, ClaimFrom(s, q, clock))
  {
    QueueIsQueued(s, q);
    forall i: nat | i <= |q|
      ensures Walkable(At(s, q, clock, i), q[i..]) && At(s, q, clock, i).claimed == s.claimed
    {
      AtKeeps(s, q, clock, i);
      StillQueued(s, q, clock, i);
      WalkAllowed(At(s, q, clock, i), q[i..]);
    }
    WalkFrom(s, q, clock, 0);
    assert q[0..] == q;
  }

  /** A job handed out without a condition has the newest attempt of every
      dependency succeeded, in the store the claim leaves behind. */
  lemma HandedOutIsReady(s: Store, q: seq<JobRunID>, clock: Clock)
    requires Valid(s) && IsQueue(s.jobs, Candidates(s), q)
    ensures Walkable(s, q)
    ensures var (t, got) := ClaimFrom(s, q, clock);
            got.Some? ==>
              && Claimable(s, got.value) && got.value in t.claimed
              && got.value in t.jobs && t.jobs[got.value] == s.jobs[got.value]
              && (s.jobs[got.value].intent.condition == "" ==>
                    AllSucceeded(t, s.jobs[got.value].runId, s.jobs[got.value].intent.dependsOn))
  {
    ClaimPicksFirst(s, q, clock);
    QueueIsQueued(s, q);
    var (t, got) := ClaimFrom(s, q, clock);
    if got.Some? {
      var p: nat :| Picks(s, q, clock, p) && got.value == q[p] && t == At(s, q, clock, p).(claimed := s.claimed + {q[p]});
      AtKeeps(s, q, clock, p);
      assert q[p] !in q[..p];
      var u := At(s, q, clock, p);
      assert u.jobs[q[p]] == s.jobs[q[p]];
    }
  }

  lemma OneStep(s: Store, id: JobRunID, rest: seq<JobRunID>, clock: Clock)
    requires Walkable(s, [id] + rest) && !Eligible(s, id)
    ensures Walkable(Pass(s, id, clock(id)), rest)
    ensures ClaimFrom(s, [id] + rest, clock) == ClaimFrom(Pass(s, id, clock(id)), rest, clock)
  {
    var q := [id] + rest;
    assert q[0] == id && q[1..] == rest;
    DependencyMeaning(s, id);
    assert forall k :: 0 <= k < |rest| ==> rest[k] == q[k + 1];
  }

  // ---------------------------------------------------------------- hand-outs over a history

  /** The job an operation hands out. */
  ghost function Granted(s: Store, op: Op): Option<JobRunID>
    requires Valid(s) && Legal(s, op)
  {
    match op
    case OpClaim(q, clock) => QueueIsQueued(s, q); ClaimKeeps(s, q, clock); ClaimFrom(s, q, clock).1
    case _ => None
  }

  ghost function Grants(s: Store, ops: seq<Op>, t: Store, id: JobRunID): nat
    requires Valid(s) && Leads(s, ops, t)
    decreases |ops|
  {
    if ops == [] then 0
    else (if Granted(s, ops[0]) == Some(id) then 1 else 0) + Grants(Step(s, ops[0]), ops[1..], t, id)
  }

  ghost function Releases(ops: seq<Op>, id: JobRunID): nat {
    if ops == [] then 0 else (if ops[0] == OpRelease(id) then 1 else 0) + Releases(ops[1..], id)
  }

  /** 1 when the job exists and is not available to a claim. */
  function Spent(s: Store, id: JobRunID): nat {
    if id !in s.jobs || Claimable(s, id) then 0 else 1
  }

  /** A queued claimed job stays unavailable unless it is released. */
  lemma SpentStays(s: Store, op: Op, id: JobRunID)
    requires Valid(s) && Legal(s, op) && Spent(s, id) == 1 && op != OpRelease(id)
    ensures Spent(Step(s, op), id) == 1
  {
    var t := Step(s, op);
    assert JobGrows(s.jobs[id], t.jobs[id]);
    if s.jobs[id].status.JobQueued? {
      assert id in s.claimed;
      if op.OpClaim? {
        ClaimedGrows(s, op.queue, op.clock);
      } else if op.OpCancel? {
        CancelFrees(s, op.run, op.now, id);
      } else if op.OpObserve? {
        ObserveKeeps(s, op.id, op.phase, op.now);
        ObserveFrame(s, op.id, op.phase, op.now);
      } else {
        OthersKeepClaims(s, op, id);
      }
    }
  }

  lemma CancelFrees(s: Store, run: RunID, now: Time, id: JobRunID)
    requires id in s.jobs && id in s.claimed
    ensures id in CancelRun(s, run, now).claimed || !CancelRun(s, run, now).jobs[id].status.JobQueued?
  {}

  lemma ObserveFrame(s: Store, id: JobRunID, phase: Phase, now: Time)
    requires id in s.jobs ==> ListedExist(s.runJobs, s.jobs.Keys, s.jobs[id].runId)
    ensures ApplyObserved(s, id, phase, now).claimed == s.claimed
  {}

  lemma OthersKeepClaims(s: Store, op: Op, id: JobRunID)
    requires Valid(s) && Legal(s, op) && id in s.jobs && id in s.claimed && op != OpRelease(id)
    requires !op.OpClaim? && !op.OpCancel? && !op.OpObserve?
    ensures id in Step(s, op).claimed || !Step(s, op).jobs[id].status.JobQueued?
  {}

  lemma ClaimedGrows(s: Store, q: seq<JobRunID>, clock: Clock)
    requires Valid(s) && IsQueue(s.jobs, Candidates(s), q)
    ensures Walkable(s, q) && s.claimed <= ClaimFrom(s, q, clock).0.claimed
  {
    ClaimPicksFirst(s, q, clock);
    QueueIsQueued(s, q);
    AtKeeps(s, q, clock, |q|);
  }

  lemma GrantSpends(s: Store, op: Op, id: JobRunID)
    requires Valid(s) && Legal(s, op) && Granted(s, op) == Some(id)
    ensures Spent(s, id) == 0 && Spent(Step(s, op), id) == 1
  {
    HandedOutIsReady(s, op.queue, op.clock);
  }

  /** Over any history a job is handed out at most once more than its claim was
      released, whatever crashed, was acknowledged or cancelled in between. */
  lemma {:induction false} GrantsBounded(s: Store, ops: seq<Op>, t: Store, id: JobRunID)
    requires Valid(s) && Leads(s, ops, t)
    ensures Grants(s, ops, t, id) + Spent(s, id) <= Releases(ops, id) + Spent(t, id)
    ensures Grants(s, ops, t, id) <= Releases(ops, id) + 1
    decreases |ops|
  {
    if ops != [] {
      var u := Step(s, ops[0]);
      GrantsBounded(u, ops[1..], t, id);
      if Granted(s, ops[0]) == Some(id) {
        GrantSpends(s, ops[0], id);
      } else if Spent(s, id) == 1 && ops[0] != OpRelease(id) {
        SpentStays(s, ops[0], id);
      }
    }
  }
}
