/** Where the memory store falls short of what its documentation promises, with
    the exact condition in each case. */
module StoreLimits {
  import opened Prelude
  import opened RunModel
  import opened StoreSpec
  import opened StoreInvariants
  import opened StoreGrowth
  import opened StoreHistory
  import opened StoreWitness
  import opened StoreLater

  lemma PrefixIsAll(intents: seq<JobIntent>)
    ensures DistinctPrefix(intents, |intents|) == |intents| <==> DistinctKeys(intents)
  {
    DistinctPrefixMeaning(intents, |intents|);
  }

  /** "Either all writes are visible or none" (run creation): a call that does not
      create a run leaves the store alone exactly when it does not reach the
      writing loop with a repeated key. When it does, claimable jobs without a
      run stay behind. */
  lemma CreateRunAtomicity(s: Store, seed: RunSeed, now: Time, run: RunID, ids: seq<JobRunID>)
    requires Valid(s) && FreshIds(s, seed, run, ids)
    ensures CreateOutcomeOf(s, seed, now, run).Created? <==> Writes(s, seed) && DistinctKeys(seed.jobs)
    ensures var t := CreateRun(s, seed, now, run, ids);
            && (CreateOutcomeOf(s, seed, now, run).Created? || t == s <==> !Writes(s, seed) || DistinctKeys(seed.jobs))
            && (Writes(s, seed) && !DistinctKeys(seed.jobs) ==> Claimable(t, ids[0]) && t.jobs[ids[0]].runId !in t.runs)
  {
    PrefixIsAll(seed.jobs);
    if Writes(s, seed) && !DistinctKeys(seed.jobs) {
      var k := DistinctPrefix(seed.jobs, |seed.jobs|);
      DistinctPrefixMeaning(seed.jobs, |seed.jobs|);
      AddJobsMeaning(s.jobs, seed.jobs, ids, run, now, k);
      assert ids[0] !in s.jobs;
    }
  }

  /** Whatever happens later, the run of the jobs left behind never exists. */
  lemma LeftBehindForever(s: Store, seed: RunSeed, now: Time, run: RunID, ids: seq<JobRunID>, ops: seq<Op>, later: Store)
    requires Valid(s) && FreshIds(s, seed, run, ids) && Writes(s, seed) && !DistinctKeys(seed.jobs)
    requires Valid(CreateRun(s, seed, now, run, ids)) && Leads(CreateRun(s, seed, now, run, ids), ops, later)
    ensures Uncommitted(later, ids[0])
  {
    CreateRunAtomicity(s, seed, now, run, ids);
    NeverCommitted(CreateRun(s, seed, now, run, ids), ops, later, ids[0]);
  }

  /** Rerequesting an existing job fails to complete exactly when its run was never committed
      and no further attempt is listed for it. */
  lemma RerequestPanics(s: Store, id: JobRunID, newId: JobRunID)
    requires Valid(s) && id in s.jobs
    ensures RerequestOutcomeOf(s, id, newId) == NilMapPanic <==>
            s.jobs[id].runId !in s.runs && NextAttempt(s, s.jobs[id], Listed(s.runJobs, s.jobs[id].runId)).None?
  {}

  /** Such a job is reachable: one delivery and one workflow with a repeated key. */
  lemma PanicIsReachable() returns (ops: seq<Op>, t: Store, id: JobRunID)
    ensures Valid(Empty) && Leads(Empty, ops, t) && Valid(t)
    ensures id in t.jobs && Claimable(t, id)
    ensures forall newId :: RerequestOutcomeOf(t, id, newId) == NilMapPanic
  {
    var before, s := Received();
    FromValid(before, s);
    var intent := JobIntent("build", "linux", [], map[], "", "");
    id := "A";
    ops, t := CreatesTwice(before, s, intent, "R", id, "B");
  }

  /** A creation with one job named twice, from the store that has the delivery. */
  lemma CreatesTwice(before: seq<Op>, s: Store, intent: JobIntent, run: RunID, a: JobRunID, b: JobRunID) returns (ops: seq<Op>, t: Store)
    requires From(before, s) && Valid(s) && a != b
    requires s == Empty.(deliveries := map[KEY := Receipt(Delivery(KEY, EVENT, ""), 0)])
    ensures From(ops, t) && Valid(t) && a in t.jobs && Claimable(t, a)
    ensures forall newId :: RerequestOutcomeOf(t, a, newId) == NilMapPanic
  {
    var seed := RunSeed(KEY, EVENT, [intent, intent]);
    assert seed.jobs[0].jobKey == seed.jobs[1].jobKey;
    CreateRunAtomicity(s, seed, 1, run, [a, b]);
    ops, t := Then(before, s, OpCreate(seed, 1, run, [a, b]));
    FromValid(ops, t);
    RerequestPanics(t, a, b);
    assert t.jobs[a].runId == run && run !in t.runJobs;
  }
}
