/** Conditions and claims: a settled store hands out a job under a deferred
    condition with its needs ended only if the condition can be true; any other
    condition is not looked at again, and runs in which that matters. */
module ClaimedConditions {
  import opened Prelude
  import Txt = Text
  import opened RunModel
  import opened StoreSpec
  import opened StoreInvariants
  import opened StoreGrowth
  import opened StoreHistory
  import opened StoreClaims
  import opened StoreWitness
  import opened Deferral
  import P = Parsing
  import E = Evaluation
  import C = Conditions
  import O = ConditionOutcomes
  import opened JobConditions
  import N = NeedsCompared
  import W = NeedsSpelling

  // ---------------------------------------------------------------- what is honoured

  /** The condition is one that passes decide on, and they could. */
  ghost predicate Decidable(s: Store, id: JobRunID) {
    && id in s.jobs && s.jobs[id].runId in s.runs && s.jobs[id].intent.condition != "" && IsDeferred(s.jobs[id].intent.condition)
    && NeedsEnded(s.jobs[id].intent.dependsOn, Siblings(s, s.jobs[id].runId))
  }

  /** A claim from a settled store honours every condition the passes could decide. */
  lemma HandedOutHolds(t: Store, q: seq<JobRunID>, clock: Clock, verdicts: Verdicts, lib: E.Library)
    requires Valid(t) && IsQueue(t.jobs, Candidates(t), q) && SettledFor(t, verdicts) && AllPossible(verdicts, lib)
    ensures Walkable(t, q)
    ensures var got := ClaimFrom(t, q, clock).1;
            got.Some? && Decidable(t, got.value) ==>
              var j := t.jobs[got.value];
              O.CanAnswer(j.intent.condition, ConditionEnv(t.runs[j.runId].event, j, Siblings(t, j.runId)), lib, Ok(true))
  {
    HandedOutIsReady(t, q, clock);
    var got := ClaimFrom(t, q, clock).1;
    if got.Some? && Decidable(t, got.value) { SettledConditions(t, got.value, verdicts, lib); }
  }

  /** What the first pass is answered is what becomes of the job: a false condition
      skips it, one without a value fails it, a true one leaves it queued. */
  lemma AnswerEnds(s: Store, id: JobRunID, verdicts: Verdicts, p: nat, now: Time)
    requires Valid(s) && Decidable(s, id) && s.jobs[id].status.JobQueued?
    ensures var j := s.jobs[id];
            var answer := verdicts(p)(s.runs[j.runId].event, j, Siblings(s, j.runId));
            var t := Settle(s, verdicts, p, now);
            && id in t.jobs
            && (answer == Some(false) ==> t.jobs[id].status == JobSkipped)
            && (answer == None ==> t.jobs[id].status == JobFailed)
            && (answer == Some(true) ==> DecisionOf(s, id, verdicts(p)).None?)
  {
    var j := s.jobs[id];
    var answer := verdicts(p)(s.runs[j.runId].event, j, Siblings(s, j.runId));
    SettleGrows(s, verdicts, p, now);
    if answer == Some(false) {
      N.DecidedEnds(s, id, verdicts, p, now, PhaseSkipped, JobSkipped);
    } else if answer == None {
      N.DecidedEnds(s, id, verdicts, p, now, PhaseFailed, JobFailed);
    }
  }

  /** Every other job the passes leave as it is, whatever the evaluator would say. */
  lemma UndecidableStays(s: Store, id: JobRunID, v: Verdict)
    requires !Decidable(s, id)
    ensures DecisionOf(s, id, v).None?
  {}

  // ---------------------------------------------------------------- one candidate

  lemma OnlyCandidate(t: Store, id: JobRunID, q: seq<JobRunID>, clock: Clock)
    requires Valid(t) && Candidates(t) == {id} && IsQueue(t.jobs, Candidates(t), q) && Eligible(t, id)
    ensures Walkable(t, q) && ClaimFrom(t, q, clock).1 == Some(id)
  {
    QueueIsQueued(t, q);
    WalkAllowed(t, q);
    OneEntry(t.jobs, id, q);
    assert q == [id] + [];
    OneClaim(t, id, [], clock);
  }

  lemma OneEntry(jobs: Jobs, id: JobRunID, q: seq<JobRunID>)
    requires IsQueue(jobs, {id}, q)
    ensures q == [id]
  {
    forall i | 0 <= i < |q|
      ensures q[i] == id
    {
      assert q[i] in q;
    }
    assert id in q;
    if |q| > 1 { TwoDiffer(jobs, {id}, q); }
  }

  lemma TwoDiffer(jobs: Jobs, ids: set<JobRunID>, q: seq<JobRunID>)
    requires IsQueue(jobs, ids, q) && |q| > 1
    ensures q[0] != q[1]
  {
    assert Before(jobs, q[0], q[1]);
    BeforeIrreflexive(jobs, q[0]);
  }

  /** The only job of a key is what the key index shows. */
  lemma OnlyJobOfKey(t: Store, r: RunID, id: JobRunID)
    requires Valid(t) && r in t.byJobKey && id in t.jobs && t.jobs[id].runId == r
    requires forall j :: j in t.jobs && t.jobs[j].intent.jobKey == t.jobs[id].intent.jobKey ==> j == id
    ensures NewestHas(t, r, t.jobs[id].intent.jobKey, t.jobs[id].status)
  {
    var k := t.jobs[id].intent.jobKey;
    assert Keyed(t.jobs, t.byJobKey, id) && HasKey(t.byJobKey, r, k);
    assert Ladder(t.jobs, r, k, t.byJobKey[r][k]);
  }

  // ---------------------------------------------------------------- a condition that is not deferred

  /** No pass changes the store, whatever it is answered. */
  ghost predicate Unmoved(t: Store, verdicts: Verdicts)
    requires Valid(t)
  {
    forall p: nat, now :: Settle(t, verdicts, p, now) == t
  }

  ghost predicate ServedBy(t: Store, id: JobRunID, q: seq<JobRunID>, clock: Clock) {
    IsQueue(t.jobs, Candidates(t), q) ==> Walkable(t, q) && ClaimFrom(t, q, clock).1 == Some(id)
  }

  /** Every claim hands out this job. */
  ghost predicate ServedNext(t: Store, id: JobRunID) {
    forall q, clock :: ServedBy(t, id, q, clock)
  }

  ghost predicate FalseNow(t: Store, id: JobRunID, lib: E.Library) {
    && id in t.jobs && t.jobs[id].runId in t.runs
    && var j := t.jobs[id];
       C.EvaluateCondition(j.intent.condition, ConditionEnv(t.runs[j.runId].event, j, Siblings(t, j.runId)), lib) == Ok(false)
  }

  /** The job is handed out by every claim, in a store no pass changes, although
      its needs have failed and its condition is false as things stand. */
  ghost predicate RunsAnyway(t: Store, id: JobRunID, cond: string, verdicts: Verdicts, lib: E.Library) {
    && Valid(t) && id in t.jobs && t.jobs[id].intent.condition == cond && NeedsFailed(t, id) && FalseNow(t, id, lib)
    && Unmoved(t, verdicts) && ServedNext(t, id)
  }

  lemma FailedNeed(t: Store, r: RunID, first: JobIntent, second: JobIntent, a: JobRunID, b: JobRunID)
    requires Valid(t) && FirstMoved(t, r, first, second, a, b, JobFailed) && second.dependsOn == [first.jobKey]
    ensures NeedsFailed(t, b) && Candidates(t) == {b} && SomeBadNeed(t, b)
  {
    OnlyJobOfKey(t, r, a);
    assert DepFailed(t, r, second.dependsOn[0]);
    assert N.BadAttempt(t, r, second.dependsOn[0], a);
  }

  ghost predicate SomeBadNeed(t: Store, id: JobRunID) {
    id in t.jobs && N.SomeBad(t, t.jobs[id].runId, t.jobs[id].intent.dependsOn)
  }

  /** With a failed attempt among its needs the status is not success, so a
      condition that goes without status functions is false. */
  lemma ImplicitSuccessFails(t: Store, id: JobRunID, lib: E.Library)
    requires Valid(t) && SomeBadNeed(t, id) && t.jobs[id].runId in t.runs
    requires C.Rewritten(Txt.Trim(t.jobs[id].intent.condition)) && Txt.Trim(t.jobs[id].intent.condition) != ""
    requires P.Parse(Txt.Trim(t.jobs[id].intent.condition), E.FloatsOf(lib)).Ok?
    ensures FalseNow(t, id, lib)
  {
    var j := t.jobs[id];
    var ev, all := t.runs[j.runId].event, Siblings(t, j.runId);
    N.StatusInStore(t, j.runId, j.intent.dependsOn);
    StatusSeen(ev, j, all);
    C.RewrittenMeaning(j.intent.condition, ConditionEnv(ev, j, all), lib);
  }

  lemma NothingDecided(t: Store, id: JobRunID, v: Verdict)
    requires !Decidable(t, id) && forall j :: j in t.jobs && t.jobs[j].status.JobQueued? ==> j == id
    ensures Decided(t, v) == {}
  {
    UndecidableStays(t, id, v);
  }

  /** For every condition that calls no status function and is therefore to mean
      success() and itself: a reachable run in which a need has failed, the
      condition is false, and the job is handed out. */
  lemma EagerRunsAnyway(cond: string, verdicts: Verdicts, lib: E.Library) returns (ops: seq<Op>, t: Store, id: JobRunID)
    requires cond != "" && Txt.Trim(cond) != "" && C.Rewritten(Txt.Trim(cond)) && P.Parse(Txt.Trim(cond), E.FloatsOf(lib)).Ok?
    ensures From(ops, t) && RunsAnyway(t, id, cond, verdicts, lib)
  {
    var first, second := EagerIntents("build", "deploy", cond);
    ops, t := Fails("R", first, second, "A", "B");
    id := "B";
    FromValid(ops, t);
    EagerAnyway(t, "R", first, second, "A", id, verdicts, lib);
  }

  lemma EagerIntents(a: string, b: string, cond: string) returns (first: JobIntent, second: JobIntent)
    requires a != b
    ensures first.jobKey != second.jobKey && second.dependsOn == [first.jobKey] && second.condition == cond
  {
    first, second := JobIntent(a, "linux", [], map[], "", ""), JobIntent(b, "linux", [a], map[], "", cond);
  }

  lemma EagerAnyway(t: Store, r: RunID, first: JobIntent, second: JobIntent, a: JobRunID, b: JobRunID, verdicts: Verdicts, lib: E.Library)
    requires Valid(t) && FirstMoved(t, r, first, second, a, b, JobFailed) && second.dependsOn == [first.jobKey] && second.condition != ""
    requires var c := Txt.Trim(second.condition); c != "" && C.Rewritten(c) && P.Parse(c, E.FloatsOf(lib)).Ok?
    ensures RunsAnyway(t, b, second.condition, verdicts, lib)
  {
    FailedNeed(t, r, first, second, a, b);
    ImplicitSuccessFails(t, b, lib);
    NeverDeferred(second.condition);
    LeftAlone(t, b, verdicts);
  }

  lemma NeverDeferred(cond: string)
    requires C.Rewritten(Txt.Trim(cond))
    ensures !IsDeferred(cond)
  {
    if IsDeferred(cond) { DeferredNeverRewritten(cond); }
  }

  lemma LeftAlone(t: Store, id: JobRunID, verdicts: Verdicts)
    requires Valid(t) && NeedsFailed(t, id) && t.jobs[id].intent.condition != "" && !Decidable(t, id) && Candidates(t) == {id} && t.claimed == {}
    ensures Unmoved(t, verdicts) && ServedNext(t, id)
  {
    forall j | j in t.jobs && t.jobs[j].status.JobQueued?
      ensures j == id
    {
      assert j in Candidates(t);
    }
    forall p: nat, now
      ensures Settle(t, verdicts, p, now) == t
    {
      NothingDecided(t, id, verdicts(p));
    }
    forall q, clock
      ensures ServedBy(t, id, q, clock)
    {
      if IsQueue(t.jobs, Candidates(t), q) { OnlyCandidate(t, id, q, clock); }
    }
  }

  // ---------------------------------------------------------------- a need that is still open

  function PairIntents(a: string, b: string, c: string, cond: string): seq<JobIntent> {
    [JobIntent(a, "linux", [], map[], "", ""), JobIntent(b, "linux", [], map[], "", ""), JobIntent(c, "linux", [a, b], map[], "", cond)]
  }

  lemma PairRuns(r: RunID, a: string, b: string, c: string, cond: string, ids: seq<JobRunID>) returns (ops: seq<Op>, t: Store)
    requires |ids| == 3 && DistinctIds(ids) && a != b && a != c && b != c
    ensures From(ops, t) && W.ThreeJobs(t, r, PairIntents(a, b, c, cond), ids, [JobFailed, JobRunning, JobQueued])
  {
    var intents := PairIntents(a, b, c, cond);
    var sts := [JobQueued, JobQueued, JobQueued];
    var o, u := W.ThreeBegin(r, intents, ids);
    ops, t := OneFailsOneRuns(o, u, r, intents, ids, sts);
    assert sts[0 := JobFailed][1 := JobRunning] == [JobFailed, JobRunning, JobQueued];
  }

  lemma OneFailsOneRuns(before: seq<Op>, s: Store, r: RunID, intents: seq<JobIntent>, ids: seq<JobRunID>, sts: seq<JobStatus>)
    returns (ops: seq<Op>, t: Store)
    requires From(before, s) && W.ThreeJobs(s, r, intents, ids, sts) && sts[0] == sts[1] == JobQueued
    ensures From(ops, t) && W.ThreeJobs(t, r, intents, ids, sts[0 := JobFailed][1 := JobRunning])
  {
    var o, u := W.ThreeObserve(before, s, r, intents, ids, sts, 0, PhaseFailed, JobFailed);
    ops, t := W.ThreeObserve(o, u, r, intents, ids, sts[0 := JobFailed], 1, PhaseRunning, JobRunning);
  }

  lemma OpenNeed(t: Store, r: RunID, a: string, b: string, c: string, cond: string, ids: seq<JobRunID>)
    requires Valid(t) && W.ThreeJobs(t, r, PairIntents(a, b, c, cond), ids, [JobFailed, JobRunning, JobQueued]) && a != b && a != c && b != c
    ensures NeedsFailed(t, ids[2]) && Candidates(t) == {ids[2]} && SomeBadNeed(t, ids[2]) && !Decidable(t, ids[2])
  {
    var intents := PairIntents(a, b, c, cond);
    W.ThreeRecords(t, r, intents, ids, [JobFailed, JobRunning, JobQueued]);
    OnlyJobOfKey(t, r, ids[0]);
    assert intents[2].dependsOn[0] == a && DepFailed(t, r, intents[2].dependsOn[0]);
    assert N.BadAttempt(t, r, intents[2].dependsOn[0], ids[0]);
    assert Siblings(t, r)[1].intent.jobKey == b && b in intents[2].dependsOn;
  }

  /** For every spelling of the plain condition success(): a reachable run in which
      one need has failed and another still runs, the condition is false, and the
      job is handed out. */
  lemma OpenNeedRunsAnyway(cond: string, verdicts: Verdicts, lib: E.Library) returns (ops: seq<Op>, t: Store, id: JobRunID)
    requires PlainCall(cond, "success", lib)
    ensures From(ops, t) && RunsAnyway(t, id, cond, verdicts, lib)
  {
    var ids := ["A", "B", "C"];
    ops, t := PairRuns("R", "build", "lint", "deploy", cond, ids);
    FromValid(ops, t);
    id := ids[2];
    OpenAnyway(t, "R", "build", "lint", "deploy", cond, ids, verdicts, lib);
  }

  lemma OpenAnyway(t: Store, r: RunID, a: string, b: string, c: string, cond: string, ids: seq<JobRunID>, verdicts: Verdicts, lib: E.Library)
    requires Valid(t) && W.ThreeJobs(t, r, PairIntents(a, b, c, cond), ids, [JobFailed, JobRunning, JobQueued]) && a != b && a != c && b != c
    requires PlainCall(cond, "success", lib)
    ensures RunsAnyway(t, ids[2], cond, verdicts, lib)
  {
    OpenNeed(t, r, a, b, c, cond, ids);
    SuccessIsFalse(t, ids[2], lib);
    LeftAlone(t, ids[2], verdicts);
  }

  lemma SuccessIsFalse(t: Store, id: JobRunID, lib: E.Library)
    requires Valid(t) && SomeBadNeed(t, id) && t.jobs[id].runId in t.runs && PlainCall(t.jobs[id].intent.condition, "success", lib)
    ensures FalseNow(t, id, lib)
  {
    var j := t.jobs[id];
    var ev, all := t.runs[j.runId].event, Siblings(t, j.runId);
    N.StatusInStore(t, j.runId, j.intent.dependsOn);
    UsualIsPossible(ev, j, all, lib);
    StatusSays(ev, j, all, lib, Usual(ev, j, all, lib), "success");
  }
}
