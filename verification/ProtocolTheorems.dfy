/** What holds in every state the interleaved scheduler can reach, and when the
    creation of a run is reported. */
module ProtocolTheorems {
  import opened Prelude
  import opened RunModel
  import opened StoreSpec
  import opened StoreInvariants
  import opened StoreGrowth
  import opened StoreHistory
  import opened StoreWitness
  import opened StoreLater
  import opened Protocol

  /** Windows one and two: a dispatched job has its object, under the name
      derived from its id, and so has every open job that was ever acknowledged. */
  lemma DispatchedHasObject(actions: seq<Action>, x: World, id: JobRunID)
    requires Reachable(actions, x) && id in x.store.jobs
    ensures x.store.jobs[id].status.JobDispatched? ==>
              id in x.objects && x.objects[id].name == CRName(id) == x.store.jobs[id].activeName
    ensures !x.store.jobs[id].status.IsTerminal() && x.store.jobs[id].activeName != "" ==> id in x.objects
  {
    ReachableKeeps(actions, x);
    assert Pair(x.store.jobs, x.objects, x.inserts, id);
    assert CRName(id) != "" by { assert |CRName(id)| >= 7; }
  }

  /** However many dispatchers run or are replayed, an open job has had at most
      one object inserted, and it is still there. */
  lemma OneObjectWhileOpen(actions: seq<Action>, x: World, id: JobRunID)
    requires Reachable(actions, x)
    requires id in x.store.jobs && !x.store.jobs[id].status.IsTerminal()
    ensures Count(x.inserts, id) <= 1 && (Count(x.inserts, id) == 1 <==> id in x.objects)
  {
    ReachableKeeps(actions, x);
    assert Pair(x.store.jobs, x.objects, x.inserts, id);
  }

  /** Window four: an object disappears only when its job has ended. */
  lemma DeletesOnlyEnded(actions: seq<Action>, x: World, a: Action, id: JobRunID)
    requires Reachable(actions, x) && Inv(x) && Enabled(x, a)
    requires id in x.objects && id !in Next(x, a).objects
    ensures Ended(x.store.jobs, id)
  {
    if a.CollectDelete? {
      assert CollectorOk(x.store.jobs, x.collectors[a.w]);
    } else {
      ObjectsKept(x, a);
    }
  }

  lemma ObjectsKept(x: World, a: Action)
    requires Valid(x.store) && Enabled(x, a) && !a.CollectDelete?
    ensures x.objects.Keys <= Next(x, a).objects.Keys
  {
    match a
    case Call(op) =>
    case DispatchCheck(w, id) =>
    case DispatchCreate(w) =>
    case DispatchAck(w, now) =>
    case CollectList(w, todo) =>
    case CollectMark(w, now) =>
    case IngestRecord(w, d, now) =>
    case IngestCompile(w, jobs) =>
    case IngestCreate(w, now, run, ids) =>
    case IngestReport(w) =>
    case Vanish(w) =>
  }

  /** The durable store after a step. */
  ghost function StoreAfter(x: World, a: Action): Store
    requires Valid(x.store) && Enabled(x, a)
  {
    match a
    case Call(op) => Step(x.store, op)
    case DispatchAck(w, now) =>
      var h := x.dispatchers[w];
      AckDispatched(x.store, h.id, ActiveObject(CRName(h.id), h.obj.uid), now)
    case CollectMark(w, now) => MarkCollected(x.store, x.collectors[w].todo[0], now)
    case IngestRecord(w, d, now) => RecordDelivery(x.store, d, now)
    case IngestCreate(w, now, run, ids) => CreateRun(x.store, x.ingesters[w].seed, now, run, ids)
    case _ => x.store
  }

  lemma StoreAfterIs(x: World, a: Action)
    requires Valid(x.store) && Enabled(x, a)
    ensures Next(x, a).store == StoreAfter(x, a)
  {
    match a
    case Call(op) =>
    case DispatchCheck(w, id) =>
    case DispatchCreate(w) =>
    case DispatchAck(w, now) =>
    case CollectList(w, todo) =>
    case CollectDelete(w) =>
    case CollectMark(w, now) =>
    case IngestRecord(w, d, now) =>
    case IngestCompile(w, jobs) =>
    case IngestCreate(w, now, run, ids) =>
    case IngestReport(w) =>
    case Vanish(w) =>
  }

  lemma StoreAfterGrows(x: World, a: Action)
    requires Valid(x.store) && Enabled(x, a)
    ensures Grows(x.store, StoreAfter(x, a))
  {
    match a
    case Call(op) =>
    case DispatchAck(w, now) =>
      var h := x.dispatchers[w];
      AckKeeps(x.store, h.id, ActiveObject(CRName(h.id), h.obj.uid), now);
    case CollectMark(w, now) => MarkKeeps(x.store, x.collectors[w].todo[0], now);
    case IngestRecord(w, d, now) => RecordKeeps(x.store, d, now);
    case IngestCreate(w, now, run, ids) => CreateKeeps(x.store, x.ingesters[w].seed, now, run, ids);
    case _ => GrowsReflexive(x.store);
  }

  /** Every step of the system extends the durable record. */
  lemma NextGrows(x: World, a: Action)
    requires Inv(x) && Enabled(x, a)
    ensures Grows(x.store, Next(x, a).store)
  {
    StoreAfterIs(x, a);
    StoreAfterGrows(x, a);
  }

  lemma {:induction false} ReachesGrow(x: World, actions: seq<Action>, y: World)
    requires Inv(x) && Reaches(x, actions, y)
    ensures Grows(x.store, y.store)
    decreases |actions|
  {
    if actions == [] {
      GrowsReflexive(x.store);
    } else {
      NextKeeps(x, actions[0]);
      NextGrows(x, actions[0]);
      var z := Next(x, actions[0]);
      ReachesGrow(z, actions[1..], y);
      GrowsTransitive(x.store, z.store, y.store);
    }
  }

  /** The workers that hold the news of a created run. */
  function News(ingesters: map<Worker, Ingesting>, k: DeliveryKey): set<Worker> {
    set w | w in ingesters && HoldsNews(ingesters, k, w)
  }

  lemma NewsCount(x: World, k: DeliveryKey)
    requires Inv(x)
    ensures Count(x.reports, k) + |News(x.ingesters, k)| <= 1
    ensures Count(x.reports, k) + |News(x.ingesters, k)| == 1 ==> IsBound(x.store.deliveries, k)
  {
    assert NewsOk(x.store.deliveries, x.reports, x.ingesters, k);
    var news := News(x.ingesters, k);
    if news != {} {
      var w :| w in news;
      assert HoldsNews(x.ingesters, k, w);
      assert news == {w} by {
        forall v | v in news
          ensures v == w
        {
          assert HoldsNews(x.ingesters, k, v);
        }
      }
    }
  }

  /** Exactly-once ingestion: a delivery binds to at most one run, stays bound to
      it and is that run's only delivery; event, payload and receipt time are
      those first recorded; the report that the run was created is sent or on
      its way at most once in all, and only for a bound delivery. */
  lemma IngestionExactlyOnce(before: seq<Action>, x: World, after: seq<Action>, y: World, k: DeliveryKey)
    requires Reachable(before, x) && Inv(x) && Reaches(x, after, y)
    ensures Count(y.reports, k) + |News(y.ingesters, k)| <= 1
    ensures Count(y.reports, k) + |News(y.ingesters, k)| == 1 ==> IsBound(y.store.deliveries, k)
    ensures k in x.store.deliveries ==> k in y.store.deliveries && DeliveryGrows(x.store.deliveries[k], y.store.deliveries[k])
    ensures forall r :: r in y.store.runs && y.store.runs[r].delivery == k ==>
              k in y.store.deliveries && y.store.deliveries[k].runId == Some(r)
  {
    ReachesKeep(x, after, y);
    ReachesGrow(x, after, y);
    NewsCount(y, k);
  }

  // ---------------------------------------------------------------- composing runs of the system

  lemma ReachesOne(x: World, a: Action) returns (y: World)
    requires Inv(x) && Enabled(x, a)
    ensures y == Next(x, a) && Inv(y) && Reaches(x, [a], y)
  {
    NextKeeps(x, a);
    y := Next(x, a);
    assert [a][1..] == [];
    assert Reaches(y, [], y);
  }

  lemma ReachesSplit(x: World, actions: seq<Action>, z: World) returns (y: World)
    requires Inv(x) && Reaches(x, actions, z) && actions != []
    ensures Enabled(x, actions[0]) && y == Next(x, actions[0]) && Inv(y) && Reaches(y, actions[1..], z)
  {
    NextKeeps(x, actions[0]);
    y := Next(x, actions[0]);
  }

  lemma ReachesCons(x: World, a: Action, y: World, rest: seq<Action>, z: World)
    requires Inv(x) && Enabled(x, a) && y == Next(x, a) && Inv(y) && Reaches(y, rest, z)
    ensures Reaches(x, [a] + rest, z)
  {
    assert ([a] + rest)[0] == a && ([a] + rest)[1..] == rest;
  }

  lemma {:induction false} ReachesJoin(x: World, before: seq<Action>, y: World, after: seq<Action>, z: World)
    requires Inv(x) && Reaches(x, before, y) && Inv(y) && Reaches(y, after, z)
    ensures Reaches(x, before + after, z)
    decreases |before|
  {
    if before == [] {
      NothingBefore(before, after);
    } else {
      var u := ReachesSplit(x, before, y);
      ReachesJoin(u, before[1..], y, after, z);
      ReachesCons(x, before[0], u, before[1..] + after, z);
      Regrouped(before, after);
    }
  }

  lemma ReachesThree(x: World, a: seq<Action>, u: World, b: seq<Action>, v: World, c: seq<Action>, y: World)
    requires Inv(x) && Reaches(x, a, u) && Inv(u) && Reaches(u, b, v) && Inv(v) && Reaches(v, c, y)
    ensures Reaches(x, a + b + c, y)
  {
    ReachesJoin(x, a, u, b, v);
    ReachesJoin(x, a + b, v, c, y);
  }

  // ---------------------------------------------------------------- the report that is lost

  /** The delivery is bound, and nobody reported that or is about to. */
  ghost predicate NewsLost(x: World, k: DeliveryKey) {
    IsBound(x.store.deliveries, k) && Count(x.reports, k) == 0 && forall w :: !HoldsNews(x.ingesters, k, w)
  }

  predicate Ingests(a: Action) {
    a.IngestRecord? || a.IngestCompile? || a.IngestCreate? || a.IngestReport? || a.Vanish?
  }

  lemma IngestersSame(x: World, a: Action)
    requires Valid(x.store) && Enabled(x, a) && !Ingests(a)
    ensures Next(x, a).ingesters == x.ingesters && Next(x, a).reports == x.reports
  {
    match a
    case Call(op) =>
    case DispatchCheck(v, id) =>
    case DispatchCreate(v) =>
    case DispatchAck(v, now) =>
    case CollectList(v, todo) =>
    case CollectDelete(v) =>
    case CollectMark(v, now) =>
  }

  lemma CreateNews(x: World, v: Worker, now: Time, run: RunID, ids: seq<JobRunID>, k: DeliveryKey, w: Worker)
    requires Enabled(x, IngestCreate(v, now, run, ids))
    requires HoldsNews(Move(x, IngestCreate(v, now, run, ids)).ingesters, k, w)
    ensures HoldsNews(x.ingesters, k, w) || !IsBound(x.store.deliveries, k)
  {}

  lemma ReceiveNews(x: World, v: Worker, d: Delivery, now: Time, k: DeliveryKey, w: Worker)
    ensures HoldsNews(Receive(x, v, d, now).ingesters, k, w) ==> HoldsNews(x.ingesters, k, w)
    ensures Receive(x, v, d, now).reports == x.reports
  {}

  lemma CompileNews(x: World, v: Worker, d: Delivery, jobs: seq<JobIntent>, k: DeliveryKey, w: Worker)
    ensures HoldsNews(Compile(x, v, d, jobs).ingesters, k, w) ==> HoldsNews(x.ingesters, k, w)
    ensures Compile(x, v, d, jobs).reports == x.reports
  {}

  /** News comes from creating the run of an unbound delivery only. */
  lemma NewsSource(x: World, a: Action, k: DeliveryKey, w: Worker)
    requires Valid(x.store) && Enabled(x, a) && HoldsNews(Next(x, a).ingesters, k, w)
    ensures HoldsNews(x.ingesters, k, w) || (a.IngestCreate? && !IsBound(x.store.deliveries, k))
  {
    if !Ingests(a) {
      IngestersSame(x, a);
    } else {
      match a
      case IngestRecord(v, d, now) => ReceiveNews(x, v, d, now, k, w);
      case IngestCompile(v, jobs) => CompileNews(x, v, x.ingesters[v].d, jobs, k, w);
      case IngestCreate(v, now, run, ids) => CreateNews(x, v, now, run, ids, k, w);
      case IngestReport(v) =>
      case Vanish(v) =>
    }
  }

  lemma IngestReports(x: World, a: Action, k: DeliveryKey)
    requires Ingests(a) && Enabled(x, a) && Count(Move(x, a).reports, k) != Count(x.reports, k)
    ensures a.IngestReport? && HoldsNews(x.ingesters, k, a.w)
  {
    match a
    case IngestRecord(v, d, now) => ReceiveNews(x, v, d, now, k, 0);
    case IngestCompile(v, jobs) => CompileNews(x, v, x.ingesters[v].d, jobs, k, 0);
    case IngestCreate(v, now, run, ids) =>
    case IngestReport(v) =>
    case Vanish(v) =>
  }

  lemma ReportSource(x: World, a: Action, k: DeliveryKey)
    requires Valid(x.store) && Enabled(x, a) && Count(Next(x, a).reports, k) != Count(x.reports, k)
    ensures a.IngestReport? && HoldsNews(x.ingesters, k, a.w)
  {
    if Ingests(a) { IngestReports(x, a, k); } else { IngestersSame(x, a); }
  }

  lemma BoundStays(x: World, a: Action, k: DeliveryKey)
    requires Inv(x) && Enabled(x, a) && IsBound(x.store.deliveries, k)
    ensures IsBound(Next(x, a).store.deliveries, k)
  {
    NextGrows(x, a);
    assert DeliveryGrows(x.store.deliveries[k], Next(x, a).store.deliveries[k]);
  }

  lemma LostStays(x: World, a: Action, k: DeliveryKey)
    requires Inv(x) && Enabled(x, a) && NewsLost(x, k)
    ensures NewsLost(Next(x, a), k)
  {
    var y := Next(x, a);
    BoundStays(x, a, k);
    if Count(y.reports, k) != 0 { ReportSource(x, a, k); }
    forall w
      ensures !HoldsNews(y.ingesters, k, w)
    {
      if HoldsNews(y.ingesters, k, w) { NewsSource(x, a, k, w); }
    }
  }

  lemma {:induction false} LostForever(x: World, actions: seq<Action>, y: World, k: DeliveryKey)
    requires Inv(x) && Reaches(x, actions, y) && NewsLost(x, k)
    ensures NewsLost(y, k)
    decreases |actions|
  {
    if actions != [] {
      var z := ReachesSplit(x, actions, y);
      LostStays(x, actions[0], k);
      LostForever(z, actions[1..], y, k);
    }
  }

  ghost predicate ReportedAfter(x: World, k: DeliveryKey, actions: seq<Action>, y: World)
    requires Inv(x)
  {
    Reaches(x, actions, y) && Count(y.reports, k) == 1
  }

  lemma ReportComes(x: World, k: DeliveryKey) returns (actions: seq<Action>, y: World)
    requires Inv(x) && (Count(x.reports, k) == 1 || exists w :: HoldsNews(x.ingesters, k, w))
    ensures ReportedAfter(x, k, actions, y)
  {
    assert NewsOk(x.store.deliveries, x.reports, x.ingesters, k);
    if Count(x.reports, k) == 1 {
      actions, y := [], x;
    } else {
      var w :| HoldsNews(x.ingesters, k, w);
      actions := [IngestReport(w)];
      y := ReachesOne(x, IngestReport(w));
    }
  }

  /** The creation of a bound delivery's run is ever reported exactly when it has
      been, or when the worker that holds the news has not vanished yet: a crash
      between the commit and the answer loses the report for good. */
  lemma ReportedEverIff(x: World, k: DeliveryKey)
    requires Inv(x) && IsBound(x.store.deliveries, k)
    ensures (exists actions, y :: ReportedAfter(x, k, actions, y)) <==>
            Count(x.reports, k) == 1 || exists w :: HoldsNews(x.ingesters, k, w)
  {
    assert NewsOk(x.store.deliveries, x.reports, x.ingesters, k);
    if NewsLost(x, k) {
      forall actions, y | ReportedAfter(x, k, actions, y)
        ensures false
      {
        LostForever(x, actions, y, k);
      }
    } else {
      var actions, y := ReportComes(x, k);
    }
  }
}
