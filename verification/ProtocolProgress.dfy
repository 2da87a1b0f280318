/** What a worker left alone achieves from any reachable state: a replayed
    dispatch ends dispatched with its one object, a replayed delivery gets its
    run and its one report, and a collector lists exactly what is over. */
module ProtocolProgress {
  import opened Prelude
  import opened RunModel
  import opened StoreSpec
  import opened StoreInvariants
  import opened StoreGrowth
  import opened StoreHistory
  import opened StoreEffects
  import opened Protocol
  import opened ProtocolTheorems
  import opened ProtocolLeaks

  // ---------------------------------------------------------------- dispatch

  lemma CheckPasses(x: World, w: Worker, id: JobRunID) returns (a: Action, y: World)
    requires Inv(x) && w !in x.dispatchers && id in x.store.jobs
    requires x.store.jobs[id].status == JobQueued || x.store.jobs[id].status == JobDispatched
    ensures Reaches(x, [a], y) && Inv(y) && PastCheck(y, w, id)
    ensures y.store == x.store && y.objects == x.objects
  {
    a := DispatchCheck(w, id);
    y := ReachesOne(x, a);
  }

  /** No other job passes the check. */
  lemma CheckRefuses(x: World, w: Worker, id: JobRunID) returns (y: World)
    requires Inv(x) && w !in x.dispatchers
    requires id !in x.store.jobs || !(x.store.jobs[id].status == JobQueued || x.store.jobs[id].status == JobDispatched)
    ensures Reaches(x, [DispatchCheck(w, id)], y) && y == x
  {
    y := ReachesOne(x, DispatchCheck(w, id));
  }

  lemma CreatesOrGets(x: World, w: Worker, id: JobRunID) returns (a: Action, y: World)
    requires Inv(x) && PastCheck(x, w, id)
    ensures Reaches(x, [a], y) && Inv(y) && y.store == x.store
    ensures y.objects == x.objects[id := ObjectOf(id)] && w in y.dispatchers && y.dispatchers[w] == Holding(id, ObjectOf(id))
  {
    a := DispatchCreate(w);
    y := ReachesOne(x, a);
  }

  lemma Acks(x: World, w: Worker, id: JobRunID, now: Time) returns (a: Action, y: World)
    requires Inv(x) && w in x.dispatchers && x.dispatchers[w] == Holding(id, ObjectOf(id)) && id in x.store.jobs
    requires x.store.jobs[id].status == JobQueued || x.store.jobs[id].status == JobDispatched
    ensures Reaches(x, [a], y) && Inv(y) && y.objects == x.objects
    ensures id in y.store.jobs && y.store.jobs[id].status == JobDispatched && y.store.jobs[id].activeName == CRName(id)
    ensures y.store.jobs[id].activeUid == ObjectOf(id).uid
  {
    assert Pair(x.store.jobs, x.objects, x.inserts, id);
    AckEffect(x.store, id, ObjectOf(id), now);
    a := DispatchAck(w, now);
    y := ReachesOne(x, a);
  }

  lemma GetsObject(x: World, w: Worker, id: JobRunID) returns (actions: seq<Action>, y: World)
    requires Inv(x) && w !in x.dispatchers && id in x.store.jobs
    requires x.store.jobs[id].status == JobQueued || x.store.jobs[id].status == JobDispatched
    ensures Reaches(x, actions, y) && Inv(y) && y.store == x.store
    ensures y.objects == x.objects[id := ObjectOf(id)] && w in y.dispatchers && y.dispatchers[w] == Holding(id, ObjectOf(id))
  {
    var a, u := CheckPasses(x, w, id);
    var b;
    b, y := CreatesOrGets(u, w, id);
    ReachesJoin(x, [a], u, [b], y);
    actions := [a] + [b];
  }

  /** From every state of the system, however many dispatchers are under way or
      have vanished: one that checks, creates and acknowledges a queued or
      dispatched job leaves it dispatched with its object, and no other object
      is touched. */
  lemma DispatchConverges(x: World, w: Worker, id: JobRunID, now: Time) returns (actions: seq<Action>, y: World)
    requires Inv(x) && w !in x.dispatchers && id in x.store.jobs
    requires x.store.jobs[id].status == JobQueued || x.store.jobs[id].status == JobDispatched
    ensures Reaches(x, actions, y) && Inv(y) && y.objects == x.objects[id := ObjectOf(id)]
    ensures id in y.store.jobs && y.store.jobs[id].status == JobDispatched && y.store.jobs[id].activeName == CRName(id)
    ensures Count(y.inserts, id) == 1
  {
    var first, u := GetsObject(x, w, id);
    var c;
    c, y := Acks(u, w, id, now);
    ReachesJoin(x, first, u, [c], y);
    actions := first + [c];
    InsertedOnce(y, id);
  }

  lemma InsertedOnce(y: World, id: JobRunID)
    requires Inv(y) && id in y.store.jobs && !y.store.jobs[id].status.IsTerminal() && id in y.objects
    ensures Count(y.inserts, id) == 1
  {
    assert Pair(y.store.jobs, y.objects, y.inserts, id);
  }

  // ---------------------------------------------------------------- ingestion

  /** The delivery is recorded or not, but has no run yet. */
  predicate Unbound(s: Store, k: DeliveryKey) {
    k in s.deliveries ==> s.deliveries[k].runId.None?
  }

  lemma Records(x: World, w: Worker, d: Delivery, now: Time) returns (y: World)
    requires Inv(x) && w !in x.ingesters && Unbound(x.store, d.key)
    ensures Reaches(x, [IngestRecord(w, d, now)], y) && Inv(y) && y.store == RecordDelivery(x.store, d, now) && y.reports == x.reports
    ensures w in y.ingesters && y.ingesters[w] == Recorded(d)
  {
    y := ReachesOne(x, IngestRecord(w, d, now));
  }

  lemma Compiles(x: World, w: Worker, d: Delivery, jobs: seq<JobIntent>) returns (y: World)
    requires Inv(x) && w in x.ingesters && x.ingesters[w] == Recorded(d) && jobs != []
    ensures Reaches(x, [IngestCompile(w, jobs)], y) && Inv(y) && y.store == x.store && y.reports == x.reports
    ensures w in y.ingesters && y.ingesters[w] == Compiled(RunSeed(d.key, d.event, jobs))
  {
    y := ReachesOne(x, IngestCompile(w, jobs));
  }

  lemma Makes(x: World, w: Worker, seed: RunSeed, now: Time, run: RunID, ids: seq<JobRunID>) returns (y: World)
    requires Inv(x) && w in x.ingesters && x.ingesters[w] == Compiled(seed) && FreshIds(x.store, seed, run, ids)
    requires Writes(x.store, seed) && DistinctKeys(seed.jobs)
    ensures Reaches(x, [IngestCreate(w, now, run, ids)], y) && Inv(y) && RunMade(x.store, y.store, seed, now, run, ids)
    ensures HoldsNews(y.ingesters, seed.delivery, w)
  {
    CreateMakesRunIff(x.store, seed, now, run, ids);
    y := ReachesOne(x, IngestCreate(w, now, run, ids));
  }

  lemma Reports(x: World, w: Worker, k: DeliveryKey) returns (y: World)
    requires Inv(x) && HoldsNews(x.ingesters, k, w)
    ensures Reaches(x, [IngestReport(w)], y) && Inv(y) && y.store == x.store && Count(y.reports, k) == 1
  {
    assert NewsOk(x.store.deliveries, x.reports, x.ingesters, k);
    y := ReachesOne(x, IngestReport(w));
  }

  /** From every state of the system, whoever recorded the delivery before and
      vanished: one more ingestion of it, with jobs of distinct keys, makes its
      run of exactly these jobs and reports it, once. */
  lemma ReplayCompletes(x: World, w: Worker, d: Delivery, jobs: seq<JobIntent>, now: Time, run: RunID, ids: seq<JobRunID>)
    returns (actions: seq<Action>, u: World, y: World)
    requires Inv(x) && w !in x.ingesters && Unbound(x.store, d.key) && jobs != [] && DistinctKeys(jobs)
    requires FreshIds(RecordDelivery(x.store, d, now), RunSeed(d.key, d.event, jobs), run, ids)
    ensures Reaches(x, actions, y) && Inv(y) && u.store == RecordDelivery(x.store, d, now)
    ensures RunMade(u.store, y.store, RunSeed(d.key, d.event, jobs), now, run, ids) && Count(y.reports, d.key) == 1
  {
    var seed := RunSeed(d.key, d.event, jobs);
    u := Records(x, w, d, now);
    var v := Compiles(u, w, d, jobs);
    var z := Makes(v, w, seed, now, run, ids);
    y := Reports(z, w, d.key);
    ReachesThree(x, [IngestRecord(w, d, now)], u, [IngestCompile(w, jobs)], v, [IngestCreate(w, now, run, ids)], z);
    ReachesJoin(x, [IngestRecord(w, d, now)] + [IngestCompile(w, jobs)] + [IngestCreate(w, now, run, ids)], z, [IngestReport(w)], y);
    actions := [IngestRecord(w, d, now)] + [IngestCompile(w, jobs)] + [IngestCreate(w, now, run, ids)] + [IngestReport(w)];
  }

  // ---------------------------------------------------------------- collection

  /** A collector's list holds a job exactly when the job and its run are over and
      the job is not marked yet. */
  lemma ListedIff(x: World, w: Worker, todo: seq<JobRunID>, id: JobRunID)
    requires Inv(x) && Enabled(x, CollectList(w, todo))
    ensures id in todo <==>
            && id in x.store.jobs && x.store.jobs[id].status.IsTerminal() && x.store.jobs[id].collectedAt.None?
            && x.store.jobs[id].runId in x.store.runs && x.store.runs[x.store.jobs[id].runId].status.IsTerminal()
  {
    assert GCReady(x.store, id) ==> id in todo;
  }

  /** So every attempt of the run has ended. */
  lemma ListedRunIsOver(x: World, w: Worker, todo: seq<JobRunID>, id: JobRunID, other: JobRunID)
    requires Inv(x) && Enabled(x, CollectList(w, todo)) && id in todo
    requires other in x.store.jobs && x.store.jobs[other].runId == x.store.jobs[id].runId
    ensures x.store.jobs[other].status.IsTerminal()
  {
    ListedIff(x, w, todo, id);
    if !x.store.jobs[other].status.IsTerminal() { OpenJobOpenRun(x.store, other); }
  }
}
