/** Small histories from the empty store, to show that states of interest are
    reachable. */
module StoreWitness {
  import opened Prelude
  import opened RunModel
  import opened StoreSpec
  import opened StoreInvariants
  import opened StoreGrowth
  import opened StoreHistory

  lemma Regrouped<T>(xs: seq<T>, ys: seq<T>)
    requires xs != []
    ensures xs + ys == [xs[0]] + (xs[1..] + ys)
  {}

  lemma NothingBefore<T>(xs: seq<T>, ys: seq<T>)
    requires xs == []
    ensures xs + ys == ys
  {}

  lemma LeadsOne(s: Store, op: Op, t: Store)
    requires Valid(s) && Legal(s, op) && t == Step(s, op)
    ensures Leads(s, [op], t)
  {
    assert [op][1..] == [];
  }

  lemma LeadsFirst(s: Store, op: Op, u: Store, ops: seq<Op>, t: Store)
    requires Valid(s) && Legal(s, op) && u == Step(s, op) && Leads(u, ops, t)
    ensures Leads(s, [op] + ops, t)
  {
    assert ([op] + ops)[1..] == ops;
  }

  lemma LeadsRest(s: Store, ops: seq<Op>, t: Store) returns (u: Store)
    requires Valid(s) && ops != [] && Leads(s, ops, t)
    ensures Legal(s, ops[0]) && u == Step(s, ops[0]) && Leads(u, ops[1..], t)
  {
    u := Step(s, ops[0]);
  }

  lemma {:induction false} LeadsThen(s: Store, ops: seq<Op>, t: Store, op: Op, z: Store)
    requires Valid(s) && Leads(s, ops, t) && Valid(t) && Legal(t, op) && z == Step(t, op)
    ensures Leads(s, ops + [op], z)
    decreases |ops|
  {
    if ops == [] {
      LeadsOne(s, op, z);
      NothingBefore(ops, [op]);
    } else {
      var u := LeadsRest(s, ops, t);
      LeadsThen(u, ops[1..], t, op, z);
      LeadsFirst(s, ops[0], u, ops[1..] + [op], z);
      Regrouped(ops, [op]);
    }
  }

  const KEY := DeliveryKey("github", "d1")
  const EVENT := Event("github", "push", "d1", "o", "r", "main", "abc", "me")

  /** A reachable store. */
  ghost predicate From(ops: seq<Op>, t: Store) {
    Valid(Empty) && Leads(Empty, ops, t)
  }

  lemma FromValid(ops: seq<Op>, t: Store)
    requires From(ops, t)
    ensures Valid(t)
  {
    HistoryKeeps(Empty, ops, t);
  }

  /** One more operation. */
  lemma Then(before: seq<Op>, s: Store, op: Op) returns (ops: seq<Op>, t: Store)
    requires From(before, s) && Valid(s) && Legal(s, op)
    ensures From(ops, t) && t == Step(s, op)
  {
    ops, t := before + [op], Step(s, op);
    LeadsThen(Empty, before, s, op, t);
  }

  lemma Received() returns (ops: seq<Op>, t: Store)
    ensures From(ops, t) && t == Empty.(deliveries := map[KEY := Receipt(Delivery(KEY, EVENT, ""), 0)])
  {
    EmptyValid();
    ops, t := Then([], Empty, OpRecord(Delivery(KEY, EVENT, ""), 0));
  }

  ghost predicate DistinctIds(ids: seq<JobRunID>) {
    forall i, j :: 0 <= i < j < |ids| ==> ids[i] != ids[j]
  }

  /** One delivery, one run with these jobs under these ids. */
  ghost predicate OneRun(t: Store, run: RunID, intents: seq<JobIntent>, ids: seq<JobRunID>) {
    && |ids| == |intents|
    && run in t.runs && run in t.byJobKey && run in t.runJobs && t.runJobs[run] == ids
    && t.runs[run].event == EVENT && t.claimed == {}
    && forall i :: 0 <= i < |ids| ==>
         && ids[i] in t.jobs && t.jobs[ids[i]] == NewJob(ids[i], run, intents[i], 1, 1)
         && intents[i].jobKey in t.byJobKey[run] && t.byJobKey[run][intents[i].jobKey] == ids[i]
  }

  lemma OneRunAt(t: Store, run: RunID, intents: seq<JobIntent>, ids: seq<JobRunID>, i: nat)
    requires OneRun(t, run, intents, ids) && i < |ids|
    ensures ids[i] in t.jobs && t.jobs[ids[i]] == NewJob(ids[i], run, intents[i], 1, 1)
    ensures HasKey(t.byJobKey, run, intents[i].jobKey) && t.byJobKey[run][intents[i].jobKey] == ids[i]
  {}

  lemma CreateEffect(s: Store, run: RunID, intents: seq<JobIntent>, ids: seq<JobRunID>)
    requires s == Empty.(deliveries := map[KEY := Receipt(Delivery(KEY, EVENT, ""), 0)])
    requires intents != [] && DistinctKeys(intents) && |ids| == |intents| && DistinctIds(ids)
    ensures FreshIds(s, RunSeed(KEY, EVENT, intents), run, ids)
    ensures OneRun(CreateRun(s, RunSeed(KEY, EVENT, intents), 1, run, ids), run, intents, ids)
  {
    var n := |intents|;
    DistinctPrefixMeaning(intents, n);
    AddJobsMeaning(s.jobs, intents, ids, run, 1, n);
    KeyIndexMeaning(intents, ids, n);
  }

  lemma CreateIds(s: Store, run: RunID, intents: seq<JobIntent>, ids: seq<JobRunID>)
    requires s == Empty.(deliveries := map[KEY := Receipt(Delivery(KEY, EVENT, ""), 0)])
    requires FreshIds(s, RunSeed(KEY, EVENT, intents), run, ids)
    ensures forall id :: id in CreateRun(s, RunSeed(KEY, EVENT, intents), 1, run, ids).jobs ==> id in ids
  {
    AddJobsMeaning(s.jobs, intents, ids, run, 1, DistinctPrefix(intents, |intents|));
  }

  lemma Begins(run: RunID, intents: seq<JobIntent>, ids: seq<JobRunID>) returns (ops: seq<Op>, t: Store)
    requires intents != [] && DistinctKeys(intents) && |ids| == |intents| && DistinctIds(ids)
    ensures From(ops, t) && OneRun(t, run, intents, ids) && forall id :: id in t.jobs ==> id in ids
  {
    var before, s := Received();
    FromValid(before, s);
    CreateEffect(s, run, intents, ids);
    CreateIds(s, run, intents, ids);
    ops, t := Then(before, s, OpCreate(RunSeed(KEY, EVENT, intents), 1, run, ids));
  }

  /** A run of two jobs, the first under its key. */
  ghost predicate TwoJobRun(t: Store, r: RunID, first: JobIntent, second: JobIntent, a: JobRunID, b: JobRunID) {
    && r in t.runs && t.runs[r].event == EVENT && Listed(t.runJobs, r) == [a, b]
    && a in t.jobs && t.jobs[a] == NewJob(a, r, first, 1, 1)
    && b in t.jobs && t.jobs[b] == NewJob(b, r, second, 1, 1)
    && HasKey(t.byJobKey, r, first.jobKey) && t.byJobKey[r][first.jobKey] == a
  }

  lemma OneRunOfTwo(t: Store, r: RunID, first: JobIntent, second: JobIntent, a: JobRunID, b: JobRunID)
    requires OneRun(t, r, [first, second], [a, b])
    ensures TwoJobRun(t, r, first, second, a, b)
  {
    OneRunAt(t, r, [first, second], [a, b], 0);
    OneRunAt(t, r, [first, second], [a, b], 1);
  }

  lemma TwoJobs(r: RunID, first: JobIntent, second: JobIntent, a: JobRunID, b: JobRunID) returns (ops: seq<Op>, t: Store)
    requires first.jobKey != second.jobKey && a != b
    ensures From(ops, t) && TwoJobRun(t, r, first, second, a, b)
  {
    ops, t := Begins(r, [first, second], [a, b]);
    OneRunOfTwo(t, r, first, second, a, b);
  }

  /** s and t differ in this job and in run statuses. */
  ghost predicate OnlyJob(s: Store, t: Store, id: JobRunID, j: JobRecord) {
    && t.jobs == s.jobs[id := j] && t.byJobKey == s.byJobKey && t.runJobs == s.runJobs && t.claimed == s.claimed
    && t.runs.Keys == s.runs.Keys && forall r :: r in s.runs ==> t.runs[r].event == s.runs[r].event
  }

  /** The phase moves a job that has not started to run. */
  predicate Moves(j: JobRecord, phase: Phase) {
    !j.status.IsTerminal() && (phase.PhaseSucceeded? || phase.PhaseFailed? || (phase.PhaseRunning? && j.status.JobQueued?))
  }

  lemma ObserveEffect(s: Store, id: JobRunID, phase: Phase)
    requires id in s.jobs && Moves(s.jobs[id], phase)
    requires ListedExist(s.runJobs, s.jobs.Keys, s.jobs[id].runId)
    ensures OnlyJob(s, ApplyObserved(s, id, phase, 2), id, Observed(s.jobs[id], JobStatusFromPhase(phase).value, 2))
  {}

  /** An observation of an open job. */
  lemma Observes(before: seq<Op>, s: Store, id: JobRunID, phase: Phase) returns (ops: seq<Op>, t: Store)
    requires From(before, s) && id in s.jobs && Moves(s.jobs[id], phase)
    ensures From(ops, t) && OnlyJob(s, t, id, Observed(s.jobs[id], JobStatusFromPhase(phase).value, 2))
  {
    FromValid(before, s);
    ObserveKeeps(s, id, phase, 2);
    ObserveEffect(s, id, phase);
    ops, t := Then(before, s, OpObserve(id, phase, 2));
  }

  /** The first of two jobs rerequested once. */
  ghost predicate RetriedRun(t: Store, r: RunID, first: JobIntent, second: JobIntent, a: JobRunID, b: JobRunID, c: JobRunID,
                             before: JobStatus, after: JobStatus)
  {
    && r in t.runs && Listed(t.runJobs, r) == [a, b, c]
    && a in t.jobs && t.jobs[a].runId == r && t.jobs[a].intent == first && t.jobs[a].status == before
    && b in t.jobs && t.jobs[b].runId == r && t.jobs[b].intent == second && t.jobs[b].status == JobQueued
    && c in t.jobs && t.jobs[c].runId == r && t.jobs[c].intent == first && t.jobs[c].status == after
    && HasKey(t.byJobKey, r, first.jobKey) && t.byJobKey[r][first.jobKey] == c
  }

  /** Two jobs, the first open or ended, the second queued. */
  ghost predicate FirstMoved(s: Store, r: RunID, first: JobIntent, second: JobIntent, a: JobRunID, b: JobRunID, st: JobStatus) {
    && first.jobKey != second.jobKey && a != b
    && r in s.runs && r in s.byJobKey && Listed(s.runJobs, r) == [a, b] && s.jobs.Keys == {a, b} && s.claimed == {}
    && s.jobs[a].runId == r && s.jobs[a].intent == first && s.jobs[a].attempt == 1 && s.jobs[a].status == st
    && s.jobs[b].runId == r && s.jobs[b].intent == second && s.jobs[b].status == JobQueued
  }

  lemma RerequestEffect(s: Store, r: RunID, first: JobIntent, second: JobIntent, a: JobRunID, b: JobRunID, c: JobRunID, st: JobStatus)
    requires FirstMoved(s, r, first, second, a, b, st) && c != a && c != b
    ensures RetriedRun(RerequestJob(s, a, 3, c), r, first, second, a, b, c, st, JobQueued)
  {
    assert NextAttempt(s, s.jobs[a], [a, b]).None?;
  }

  lemma TwoJobsOnly(r: RunID, first: JobIntent, second: JobIntent, a: JobRunID, b: JobRunID) returns (ops: seq<Op>, t: Store)
    requires first.jobKey != second.jobKey && a != b
    ensures From(ops, t) && FirstMoved(t, r, first, second, a, b, JobQueued)
  {
    ops, t := Begins(r, [first, second], [a, b]);
    OneRunOfTwo(t, r, first, second, a, b);
  }

  lemma MovesFirst(s: Store, t: Store, r: RunID, first: JobIntent, second: JobIntent, a: JobRunID, b: JobRunID)
    requires FirstMoved(s, r, first, second, a, b, JobQueued) && OnlyJob(s, t, a, Observed(s.jobs[a], JobFailed, 2))
    ensures FirstMoved(t, r, first, second, a, b, JobFailed)
  {}

  lemma Fails(r: RunID, first: JobIntent, second: JobIntent, a: JobRunID, b: JobRunID) returns (ops: seq<Op>, t: Store)
    requires first.jobKey != second.jobKey && a != b
    ensures From(ops, t) && FirstMoved(t, r, first, second, a, b, JobFailed)
  {
    var before, s := TwoJobsOnly(r, first, second, a, b);
    ops, t := Observes(before, s, a, PhaseFailed);
    MovesFirst(s, t, r, first, second, a, b);
  }

  lemma Retries(before: seq<Op>, s: Store, r: RunID, first: JobIntent, second: JobIntent, a: JobRunID, b: JobRunID, c: JobRunID)
    returns (ops: seq<Op>, t: Store)
    requires From(before, s) && FirstMoved(s, r, first, second, a, b, JobFailed) && c != a && c != b
    ensures From(ops, t) && RetriedRun(t, r, first, second, a, b, c, JobFailed, JobQueued)
  {
    FromValid(before, s);
    RerequestEffect(s, r, first, second, a, b, c, JobFailed);
    ops, t := Then(before, s, OpRerequest(a, 3, c));
  }

  lemma MovesSecond(s: Store, t: Store, r: RunID, first: JobIntent, second: JobIntent, a: JobRunID, b: JobRunID, c: JobRunID)
    requires RetriedRun(s, r, first, second, a, b, c, JobFailed, JobQueued) && c != a && c != b
    requires OnlyJob(s, t, c, Observed(s.jobs[c], JobSucceeded, 2))
    ensures RetriedRun(t, r, first, second, a, b, c, JobFailed, JobSucceeded)
  {}

  /** The first job fails, is rerequested, and its second attempt succeeds. */
  lemma FailsThenSucceeds(r: RunID, first: JobIntent, second: JobIntent, a: JobRunID, b: JobRunID, c: JobRunID)
    returns (ops: seq<Op>, t: Store)
    requires first.jobKey != second.jobKey && a != b && c != a && c != b
    ensures From(ops, t) && RetriedRun(t, r, first, second, a, b, c, JobFailed, JobSucceeded)
  {
    var o1, s1 := Fails(r, first, second, a, b);
    var o2, s2 := Retries(o1, s1, r, first, second, a, b, c);
    ops, t := Observes(o2, s2, c, PhaseSucceeded);
    MovesSecond(s2, t, r, first, second, a, b, c);
  }
}
