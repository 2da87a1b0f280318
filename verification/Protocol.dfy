/** The scheduler as an interleaved system: any number of dispatchers,
    collectors and ingesters, each between two of its atomic steps, beside
    claims, observations, cancellations and rerequests, over a durable store and
    an object store that share no transaction. A worker may vanish at any point. */
module Protocol {
  import opened Prelude
  import opened RunModel
  import opened StoreSpec
  import opened StoreInvariants
  import opened StoreGrowth
  import opened StoreHistory
  import opened StoreClaims

  type Worker = nat

  /** A dispatcher between its status check and CreateOrGet, or between CreateOrGet and the ack. */
  datatype Dispatching = Checked(id: JobRunID) | Holding(id: JobRunID, obj: ActiveObject)

  /** A collector about to delete the first job of its list, or to mark it. */
  datatype Collecting = Deleting(todo: seq<JobRunID>) | Marking(todo: seq<JobRunID>)

  /** An ingester that recorded an unbound delivery, compiled it, or has the
      store's answer and has not reported it yet. */
  datatype Ingesting = Recorded(d: Delivery) | Compiled(seed: RunSeed) | Reporting(key: DeliveryKey, created: bool)

  /** The last two fields are history: objects inserted per job, and reports of
      a created run per delivery. */
  datatype World = World(
    store: Store,
    objects: map<JobRunID, ActiveObject>,
    dispatchers: map<Worker, Dispatching>,
    collectors: map<Worker, Collecting>,
    ingesters: map<Worker, Ingesting>,
    inserts: map<JobRunID, nat>,
    reports: map<DeliveryKey, nat>)

  const Start := World(Empty, map[], map[], map[], map[], map[], map[])

  function Count<K>(m: map<K, nat>, k: K): nat {
    if k in m then m[k] else 0
  }

  datatype Action =
    | Call(op: Op)
    | DispatchCheck(w: Worker, id: JobRunID)
    | DispatchCreate(w: Worker)
    | DispatchAck(w: Worker, now: Time)
    | CollectList(w: Worker, todo: seq<JobRunID>)
    | CollectDelete(w: Worker)
    | CollectMark(w: Worker, now: Time)
    | IngestRecord(w: Worker, d: Delivery, now: Time)
    | IngestCompile(w: Worker, jobs: seq<JobIntent>)
    | IngestCreate(w: Worker, now: Time, run: RunID, ids: seq<JobRunID>)
    | IngestReport(w: Worker)
    | Vanish(w: Worker)

  /** Store calls made outside the three protocols. */
  predicate Outside(op: Op) {
    op.OpClaim? || op.OpRelease? || op.OpObserve? || op.OpCancel? || op.OpRerequest?
  }

  /** The jobs ready for collection, each once, in any order. */
  ghost predicate ListsReady(s: Store, todo: seq<JobRunID>) {
    && (forall i :: 0 <= i < |todo| ==> GCReady(s, todo[i]))
    && (forall id {:trigger GCReady(s, id)} :: GCReady(s, id) ==> id in todo)
    && (forall i, j :: 0 <= i < j < |todo| ==> todo[i] != todo[j])
  }

  ghost predicate Enabled(x: World, a: Action) {
    match a
    case Call(op) => Outside(op) && Legal(x.store, op)
    case DispatchCheck(w, id) => w !in x.dispatchers
    case DispatchCreate(w) => w in x.dispatchers && x.dispatchers[w].Checked?
    case DispatchAck(w, now) => w in x.dispatchers && x.dispatchers[w].Holding?
    case CollectList(w, todo) => w !in x.collectors && ListsReady(x.store, todo)
    case CollectDelete(w) => w in x.collectors && x.collectors[w].Deleting? && x.collectors[w].todo != []
    case CollectMark(w, now) => w in x.collectors && x.collectors[w].Marking? && x.collectors[w].todo != []
    case IngestRecord(w, d, now) => w !in x.ingesters
    case IngestCompile(w, jobs) => w in x.ingesters && x.ingesters[w].Recorded?
    case IngestCreate(w, now, run, ids) =>
      w in x.ingesters && x.ingesters[w].Compiled? && FreshIds(x.store, x.ingesters[w].seed, run, ids)
    case IngestReport(w) => w in x.ingesters && x.ingesters[w].Reporting?
    case Vanish(w) => true
  }

  predicate Dispatchable(s: Store, id: JobRunID) {
    id in s.jobs && (s.jobs[id].status.JobQueued? || s.jobs[id].status.JobDispatched?)
  }

  /** CreateOrGet on the object store. */
  function CreateOrGet(x: World, id: JobRunID): World {
    if id in x.objects then x
    else x.(objects := x.objects[id := ObjectOf(id)],
            inserts := x.inserts[id := Count(x.inserts, id) + 1])
  }

  /** Delete on the object store; a missing object is a success. */
  function DeleteObject(x: World, id: JobRunID): World {
    x.(objects := x.objects - {id})
  }

  /** A delivery without a run keeps its ingester going. */
  function Receive(x: World, w: Worker, d: Delivery, now: Time): World {
    var s := RecordDelivery(x.store, d, now);
    if s.deliveries[d.key].runId.Some? then x.(store := s)
    else x.(store := s, ingesters := x.ingesters[w := Recorded(d)])
  }

  /** A delivery that matches no workflow gets no run. */
  function Compile(x: World, w: Worker, d: Delivery, jobs: seq<JobIntent>): World {
    if jobs == [] then x.(ingesters := x.ingesters - {w})
    else x.(ingesters := x.ingesters[w := Compiled(RunSeed(d.key, d.event, jobs))])
  }

  function Report(x: World, w: Worker, key: DeliveryKey, created: bool): World {
    x.(ingesters := x.ingesters - {w}, reports := AddReport(x.reports, key, created))
  }

  /** The store has answered; the ingester holds the answer. */
  function Answered(x: World, w: Worker, t: Store, seed: RunSeed, created: bool): World {
    x.(store := t, ingesters := x.ingesters[w := Reporting(seed.delivery, created)])
  }

  function AddReport(reports: map<DeliveryKey, nat>, k: DeliveryKey, created: bool): map<DeliveryKey, nat> {
    if created then reports[k := Count(reports, k) + 1] else reports
  }

  ghost function Next(x: World, a: Action): World
    requires Valid(x.store) && Enabled(x, a)
  {
    match a
    case Call(op) => x.(store := Step(x.store, op))
    case _ => Move(x, a)
  }

  /** A step of a worker. */
  ghost function Move(x: World, a: Action): World
    requires !a.Call? && Enabled(x, a)
  {
    match a
    case DispatchCheck(w, id) =>
      if Dispatchable(x.store, id) then x.(dispatchers := x.dispatchers[w := Checked(id)]) else x
    case DispatchCreate(w) =>
      var id := x.dispatchers[w].id;
      var y := CreateOrGet(x, id);
      y.(dispatchers := x.dispatchers[w := Holding(id, y.objects[id])])
    case DispatchAck(w, now) =>
      var h := x.dispatchers[w];
      x.(store := AckDispatched(x.store, h.id, ActiveObject(CRName(h.id), h.obj.uid), now),
         dispatchers := x.dispatchers - {w})
    case CollectList(w, todo) => x.(collectors := x.collectors[w := Deleting(todo)])
    case CollectDelete(w) =>
      var todo := x.collectors[w].todo;
      DeleteObject(x, todo[0]).(collectors := x.collectors[w := Marking(todo)])
    case CollectMark(w, now) =>
      var todo := x.collectors[w].todo;
      x.(store := MarkCollected(x.store, todo[0], now), collectors := x.collectors[w := Deleting(todo[1..])])
    case IngestRecord(w, d, now) => Receive(x, w, d, now)
    case IngestCompile(w, jobs) => Compile(x, w, x.ingesters[w].d, jobs)
    case IngestCreate(w, now, run, ids) =>
      var seed := x.ingesters[w].seed;
      Answered(x, w, CreateRun(x.store, seed, now, run, ids), seed, CreateOutcomeOf(x.store, seed, now, run).Created?)
    case IngestReport(w) => Report(x, w, x.ingesters[w].key, x.ingesters[w].created)
    case Vanish(w) =>
      x.(dispatchers := x.dispatchers - {w}, collectors := x.collectors - {w}, ingesters := x.ingesters - {w})
  }

  // ---------------------------------------------------------------- the invariant

  predicate Ended(jobs: Jobs, id: JobRunID) {
    id in jobs && jobs[id].status.IsTerminal()
  }

  /** A job and its object. */
  predicate Pair(jobs: Jobs, objects: map<JobRunID, ActiveObject>, inserts: map<JobRunID, nat>, id: JobRunID) {
    && id in jobs
    && (jobs[id].status.JobDispatched? ==> jobs[id].activeName == CRName(id))
    && (!jobs[id].status.IsTerminal() && jobs[id].activeName != "" ==> id in objects)
    && (!jobs[id].status.IsTerminal() ==> Count(inserts, id) == (if id in objects then 1 else 0))
    && (jobs[id].collectedAt.Some? ==> jobs[id].status.IsTerminal())
  }

  ghost predicate Paired(x: World) {
    && (forall id {:trigger Pair(x.store.jobs, x.objects, x.inserts, id)} ::
          id in x.store.jobs ==> Pair(x.store.jobs, x.objects, x.inserts, id))
    && x.objects.Keys <= x.store.jobs.Keys && x.inserts.Keys <= x.store.jobs.Keys
    && (forall id :: id in x.objects ==> x.objects[id] == ObjectOf(id))
  }

  /** A dispatcher in flight acts on a known job; one that has its object knows
      it is still there unless the job has ended. */
  predicate DispatcherOk(jobs: Jobs, objects: map<JobRunID, ActiveObject>, p: Dispatching) {
    && p.id in jobs
    && (p.Holding? ==> p.obj == ObjectOf(p.id) && (p.id in objects || jobs[p.id].status.IsTerminal()))
  }

  /** A collector's list names only jobs that have ended. */
  predicate CollectorOk(jobs: Jobs, p: Collecting) {
    forall i :: 0 <= i < |p.todo| ==> Ended(jobs, p.todo[i])
  }

  predicate IngesterOk(ds: Deliveries, p: Ingesting) {
    match p
    case Recorded(d) => d.key in ds
    case Compiled(seed) => seed.delivery in ds
    case Reporting(k, created) => created ==> IsBound(ds, k)
  }

  predicate IsBound(ds: Deliveries, k: DeliveryKey) {
    k in ds && ds[k].runId.Some?
  }

  ghost predicate WorkersOk(x: World) {
    && (forall w {:trigger x.dispatchers[w]} :: w in x.dispatchers ==> DispatcherOk(x.store.jobs, x.objects, x.dispatchers[w]))
    && (forall w {:trigger x.collectors[w]} :: w in x.collectors ==> CollectorOk(x.store.jobs, x.collectors[w]))
    && (forall w {:trigger x.ingesters[w]} :: w in x.ingesters ==> IngesterOk(x.store.deliveries, x.ingesters[w]))
  }

  /** A worker that holds the news of a created run for the delivery. */
  predicate HoldsNews(ingesters: map<Worker, Ingesting>, k: DeliveryKey, w: Worker) {
    w in ingesters && ingesters[w] == Reporting(k, true)
  }

  /** The news that a delivery's run was created exists at most once, reported
      or on its way, and only for a bound delivery. */
  ghost predicate NewsOk(ds: Deliveries, reports: map<DeliveryKey, nat>, ingesters: map<Worker, Ingesting>, k: DeliveryKey) {
    && Count(reports, k) <= 1
    && (Count(reports, k) == 1 ==> IsBound(ds, k))
    && (forall w :: HoldsNews(ingesters, k, w) ==> IsBound(ds, k) && Count(reports, k) == 0)
    && (forall v, w :: HoldsNews(ingesters, k, v) && HoldsNews(ingesters, k, w) ==> v == w)
  }

  ghost predicate Reported(ds: Deliveries, reports: map<DeliveryKey, nat>, ingesters: map<Worker, Ingesting>) {
    forall k {:trigger NewsOk(ds, reports, ingesters, k)} :: NewsOk(ds, reports, ingesters, k)
  }

  ghost predicate Inv(x: World) {
    Valid(x.store) && Paired(x) && WorkersOk(x) && Reported(x.store.deliveries, x.reports, x.ingesters)
  }

  // ---------------------------------------------------------------- store steps seen from outside

  /** What the object side may rely on when a store step is not an ack or a mark. */
  predicate QuietJob(a: Jobs, b: Jobs, id: JobRunID) {
    id in b &&
    if id in a then
      && JobGrows(a[id], b[id])
      && b[id].activeName == a[id].activeName && b[id].collectedAt == a[id].collectedAt
      && (b[id].status.JobDispatched? ==> a[id].status.JobDispatched?)
    else b[id].activeName == "" && b[id].collectedAt.None? && !b[id].status.JobDispatched?
  }

  ghost predicate Quiet(a: Jobs, b: Jobs) {
    && (forall id {:trigger QuietJob(a, b, id)} :: id in b ==> QuietJob(a, b, id))
    && a.Keys <= b.Keys
  }

  lemma QuietTransitive(a: Jobs, b: Jobs, c: Jobs)
    requires Quiet(a, b) && Quiet(b, c) && b.Keys == c.Keys
    ensures Quiet(a, c)
  {
    forall id | id in c
      ensures QuietJob(a, c, id)
    {
      assert QuietJob(a, b, id) && QuietJob(b, c, id);
    }
  }

  lemma QuietObserve(s: Store, id: JobRunID, phase: Phase, now: Time)
    requires id in s.jobs ==> ListedExist(s.runJobs, s.jobs.Keys, s.jobs[id].runId)
    ensures Quiet(s.jobs, ApplyObserved(s, id, phase, now).jobs)
    ensures ApplyObserved(s, id, phase, now).deliveries == s.deliveries
  {
    var t := ApplyObserved(s, id, phase, now);
    assert t.jobs == s.jobs || (id in s.jobs && t.jobs == s.jobs[id := t.jobs[id]]);
    forall j | j in t.jobs
      ensures QuietJob(s.jobs, t.jobs, j)
    {
    }
  }

  lemma QuietSkip(s: Store, id: JobRunID, now: Time)
    requires id in s.jobs && s.jobs[id].status.JobQueued? && ListedExist(s.runJobs, s.jobs.Keys, s.jobs[id].runId)
    ensures Quiet(s.jobs, Skip(s, id, now).jobs) && Skip(s, id, now).jobs.Keys == s.jobs.Keys
  {}

  lemma {:induction false} QuietWalk(s: Store, q: seq<JobRunID>, clock: Clock)
    requires Valid(s) && Queued(s.jobs, q) && Walkable(s, q)
    ensures Quiet(s.jobs, ClaimFrom(s, q, clock).0.jobs) && ClaimFrom(s, q, clock).0.jobs.Keys == s.jobs.Keys
    decreases |q|
  {
    if q != [] {
      if DependencyState(s, q[0]).DepsBlocked? {
        QuietWalk(s, q[1..], clock);
      } else if DependencyState(s, q[0]).DepsFailed? && s.jobs[q[0]].intent.condition == "" {
        var t := Skip(s, q[0], clock(q[0]));
        SkipKeeps(s, q[0], clock(q[0]));
        SkipLeavesRest(s, q, clock(q[0]));
        QuietSkip(s, q[0], clock(q[0]));
        WalkAllowed(t, q[1..]);
        QuietWalk(t, q[1..], clock);
        QuietTransitive(s.jobs, t.jobs, ClaimFrom(t, q[1..], clock).0.jobs);
      }
    }
  }

  lemma QuietCancel(s: Store, run: RunID, now: Time)
    ensures Quiet(s.jobs, CancelRun(s, run, now).jobs)
  {}

  lemma QuietRerequest(s: Store, id: JobRunID, now: Time, newId: JobRunID)
    requires newId !in s.jobs
    ensures Quiet(s.jobs, RerequestJob(s, id, now, newId).jobs)
  {}

  lemma QuietAdd(jobs: Jobs, intents: seq<JobIntent>, ids: seq<JobRunID>, run: RunID, now: Time, k: nat)
    requires k <= |intents| && k <= |ids|
    requires forall i, j :: 0 <= i < j < |ids| ==> ids[i] != ids[j]
    requires forall i :: 0 <= i < |ids| ==> ids[i] !in jobs
    ensures Quiet(jobs, AddJobs(jobs, intents, ids, run, now, k))
  {
    AddJobsMeaning(jobs, intents, ids, run, now, k);
    var b := AddJobs(jobs, intents, ids, run, now, k);
    forall id | id in b
      ensures QuietJob(jobs, b, id)
    {
      if id !in jobs {
        var i :| 0 <= i < k && ids[..k][i] == id;
        assert b[ids[i]] == NewJob(ids[i], run, intents[i], 1, now);
      }
    }
  }

  lemma QuietCreate(s: Store, seed: RunSeed, now: Time, run: RunID, ids: seq<JobRunID>)
    requires FreshIds(s, seed, run, ids)
    ensures Quiet(s.jobs, CreateRun(s, seed, now, run, ids).jobs)
  {
    QuietAdd(s.jobs, seed.jobs, ids, run, now, DistinctPrefix(seed.jobs, |seed.jobs|));
  }

  lemma QuietClaim(s: Store, q: seq<JobRunID>, clock: Clock)
    requires Valid(s) && IsQueue(s.jobs, Candidates(s), q)
    ensures Walkable(s, q)
    ensures Quiet(s.jobs, ClaimFrom(s, q, clock).0.jobs) && ClaimFrom(s, q, clock).0.deliveries == s.deliveries
  {
    QueueIsQueued(s, q);
    WalkAllowed(s, q);
    QuietWalk(s, q, clock);
    DeliveriesWalk(s, q, clock);
  }

  lemma QuietCall(s: Store, op: Op, t: Store)
    requires Valid(s) && Legal(s, op) && Outside(op) && t == Step(s, op)
    ensures Quiet(s.jobs, t.jobs) && t.deliveries == s.deliveries
  {
    match op
    case OpClaim(q, clock) => QuietClaim(s, q, clock);
    case OpObserve(id, phase, now) => ObserveKeeps(s, id, phase, now); QuietObserve(s, id, phase, now);
    case OpCancel(run, now) => QuietCancel(s, run, now);
    case OpRerequest(id, now, newId) => QuietRerequest(s, id, now, newId);
    case OpRelease(id) =>
  }

  lemma {:induction false} DeliveriesWalk(s: Store, q: seq<JobRunID>, clock: Clock)
    requires Walkable(s, q)
    ensures ClaimFrom(s, q, clock).0.deliveries == s.deliveries
    decreases |q|
  {
    if q != [] {
      if DependencyState(s, q[0]).DepsBlocked? {
        DeliveriesWalk(s, q[1..], clock);
      } else if DependencyState(s, q[0]).DepsFailed? && s.jobs[q[0]].intent.condition == "" {
        DeliveriesWalk(Skip(s, q[0], clock(q[0])), q[1..], clock);
      }
    }
  }

  // ---------------------------------------------------------------- one lemma per kind of step

  /** A quiet store step disturbs neither objects nor workers. */
  lemma QuietKeeps(x: World, t: Store)
    requires Inv(x) && Valid(t) && Quiet(x.store.jobs, t.jobs) && DeliveriesGrow(x.store.deliveries, t.deliveries)
    ensures Paired(x.(store := t)) && WorkersOk(x.(store := t))
  {
    var y := x.(store := t);
    QuietPairs(x, t);
    forall w | w in y.dispatchers
      ensures DispatcherOk(y.store.jobs, y.objects, y.dispatchers[w])
    {
      assert DispatcherOk(x.store.jobs, x.objects, x.dispatchers[w]);
      assert QuietJob(x.store.jobs, t.jobs, x.dispatchers[w].id);
    }
    forall w | w in y.collectors
      ensures CollectorOk(y.store.jobs, y.collectors[w])
    {
      QuietCollector(x.store.jobs, t.jobs, x.collectors[w]);
    }
  }

  lemma QuietCollector(a: Jobs, b: Jobs, p: Collecting)
    requires Quiet(a, b) && CollectorOk(a, p)
    ensures CollectorOk(b, p)
  {
    forall i | 0 <= i < |p.todo|
      ensures Ended(b, p.todo[i])
    {
      assert Ended(a, p.todo[i]);
      assert QuietJob(a, b, p.todo[i]);
    }
  }

  lemma QuietPairs(x: World, t: Store)
    requires Paired(x) && Quiet(x.store.jobs, t.jobs)
    ensures Paired(x.(store := t))
  {
    forall id | id in t.jobs
      ensures Pair(t.jobs, x.objects, x.inserts, id)
    {
      assert QuietJob(x.store.jobs, t.jobs, id);
      assert id in x.store.jobs ==> Pair(x.store.jobs, x.objects, x.inserts, id);
    }
  }

  lemma CallKeeps(x: World, op: Op)
    requires Inv(x) && Enabled(x, Call(op))
    ensures Inv(Next(x, Call(op)))
  {
    QuietCall(x.store, op, Step(x.store, op));
    QuietKeeps(x, Step(x.store, op));
  }

  lemma CreateKeepsPairs(x: World, id: JobRunID)
    requires Paired(x) && id in x.store.jobs
    ensures Paired(CreateOrGet(x, id)) && id in CreateOrGet(x, id).objects
  {
    var y := CreateOrGet(x, id);
    forall j | j in y.store.jobs
      ensures Pair(y.store.jobs, y.objects, y.inserts, j)
    {
      assert Pair(x.store.jobs, x.objects, x.inserts, j);
    }
  }

  lemma DispatchCreateKeeps(x: World, w: Worker)
    requires Inv(x) && Enabled(x, DispatchCreate(w))
    ensures Inv(Next(x, DispatchCreate(w)))
  {
    var id := x.dispatchers[w].id;
    CreateKeepsPairs(x, id);
    var y := Next(x, DispatchCreate(w));
    assert y == CreateOrGet(x, id).(dispatchers := y.dispatchers);
    SamePairs(CreateOrGet(x, id), y);
    CreateWorkers(x, w, id, y);
  }

  lemma CreateWorkers(x: World, w: Worker, id: JobRunID, y: World)
    requires WorkersOk(x) && Paired(y) && id in x.store.jobs
    requires y.store == x.store && y.objects.Keys == x.objects.Keys + {id} && y.collectors == x.collectors && y.ingesters == x.ingesters
    requires y.dispatchers == x.dispatchers[w := Holding(id, y.objects[id])]
    ensures WorkersOk(y)
  {
    forall v | v in y.dispatchers
      ensures DispatcherOk(y.store.jobs, y.objects, y.dispatchers[v])
    {
      if v != w { assert DispatcherOk(x.store.jobs, x.objects, x.dispatchers[v]); }
    }
  }

  lemma SamePairs(x: World, y: World)
    requires Paired(x) && y.store.jobs == x.store.jobs && y.objects == x.objects && y.inserts == x.inserts
    ensures Paired(y)
  {}

  lemma DispatcherJoins(x: World, w: Worker, p: Dispatching)
    requires Inv(x) && DispatcherOk(x.store.jobs, x.objects, p)
    ensures Inv(x.(dispatchers := x.dispatchers[w := p]))
  {
    SamePairs(x, x.(dispatchers := x.dispatchers[w := p]));
  }

  lemma DispatchCheckKeeps(x: World, w: Worker, id: JobRunID)
    requires Inv(x) && Enabled(x, DispatchCheck(w, id))
    ensures Inv(Next(x, DispatchCheck(w, id)))
  {
    if Dispatchable(x.store, id) { DispatcherJoins(x, w, Checked(id)); }
  }

  lemma DispatchAckKeeps(x: World, w: Worker, now: Time)
    requires Inv(x) && Enabled(x, DispatchAck(w, now))
    ensures Inv(Next(x, DispatchAck(w, now)))
  {
    var h := x.dispatchers[w];
    var obj := ActiveObject(CRName(h.id), h.obj.uid);
    AckKeeps(x.store, h.id, obj, now);
    var y := Next(x, DispatchAck(w, now));
    AckPairs(x, h.id, obj, now);
    SamePairs(x.(store := y.store), y);
    AckWorkers(x, y, h.id, obj, now);
  }

  lemma AckPairs(x: World, id: JobRunID, obj: ActiveObject, now: Time)
    requires Paired(x) && id in x.store.jobs && obj.name == CRName(id)
    requires id in x.objects || x.store.jobs[id].status.IsTerminal()
    ensures Paired(x.(store := AckDispatched(x.store, id, obj, now)))
  {
    var t := AckDispatched(x.store, id, obj, now);
    forall j | j in t.jobs
      ensures Pair(t.jobs, x.objects, x.inserts, j)
    {
      assert Pair(x.store.jobs, x.objects, x.inserts, j);
    }
  }

  lemma AckWorkers(x: World, y: World, id: JobRunID, obj: ActiveObject, now: Time)
    requires WorkersOk(x) && y.store == AckDispatched(x.store, id, obj, now)
    requires y.objects == x.objects && y.collectors == x.collectors && y.ingesters == x.ingesters
    requires forall w :: w in y.dispatchers ==> w in x.dispatchers && y.dispatchers[w] == x.dispatchers[w]
    ensures WorkersOk(y)
  {
    forall w | w in y.dispatchers
      ensures DispatcherOk(y.store.jobs, y.objects, y.dispatchers[w])
    {
      assert DispatcherOk(x.store.jobs, x.objects, x.dispatchers[w]);
    }
    forall w | w in y.collectors
      ensures CollectorOk(y.store.jobs, y.collectors[w])
    {
      assert CollectorOk(x.store.jobs, x.collectors[w]);
      assert forall i :: 0 <= i < |x.collectors[w].todo| ==> Ended(x.store.jobs, x.collectors[w].todo[i]);
    }
  }

  lemma CollectListKeeps(x: World, w: Worker, todo: seq<JobRunID>)
    requires Inv(x) && Enabled(x, CollectList(w, todo))
    ensures Inv(Next(x, CollectList(w, todo)))
  {
    SamePairs(x, Next(x, CollectList(w, todo)));
  }

  lemma DeletePairs(x: World, id: JobRunID)
    requires Paired(x) && Ended(x.store.jobs, id)
    ensures Paired(DeleteObject(x, id))
  {
    var y := DeleteObject(x, id);
    forall j | j in y.store.jobs
      ensures Pair(y.store.jobs, y.objects, y.inserts, j)
    {
      assert Pair(x.store.jobs, x.objects, x.inserts, j);
    }
  }

  lemma CollectDeleteKeeps(x: World, w: Worker)
    requires Inv(x) && Enabled(x, CollectDelete(w))
    ensures Inv(Next(x, CollectDelete(w)))
  {
    var id := x.collectors[w].todo[0];
    assert Ended(x.store.jobs, id);
    DeletePairs(x, id);
    var y := Next(x, CollectDelete(w));
    SamePairs(DeleteObject(x, id), y);
    forall v | v in y.dispatchers
      ensures DispatcherOk(y.store.jobs, y.objects, y.dispatchers[v])
    {
      assert DispatcherOk(x.store.jobs, x.objects, x.dispatchers[v]);
    }
    forall v | v in y.collectors
      ensures CollectorOk(y.store.jobs, y.collectors[v])
    {
      assert CollectorOk(x.store.jobs, x.collectors[v]);
    }
  }

  lemma CollectMarkKeeps(x: World, w: Worker, now: Time)
    requires Inv(x) && Enabled(x, CollectMark(w, now))
    ensures Inv(Next(x, CollectMark(w, now)))
  {
    var id := x.collectors[w].todo[0];
    MarkKeeps(x.store, id, now);
    assert CollectorOk(x.store.jobs, x.collectors[w]) && Ended(x.store.jobs, id);
    var y := Next(x, CollectMark(w, now));
    MarkPairs(x, y, id, now);
    MarkWorkers(x, y, w, id, now);
  }

  lemma MarkPairs(x: World, y: World, id: JobRunID, now: Time)
    requires Paired(x) && Ended(x.store.jobs, id) && y.store == MarkCollected(x.store, id, now)
    requires y.objects == x.objects && y.inserts == x.inserts
    ensures Paired(y)
  {
    forall j | j in y.store.jobs
      ensures Pair(y.store.jobs, y.objects, y.inserts, j)
    {
      assert Pair(x.store.jobs, x.objects, x.inserts, j);
    }
  }

  lemma MarkWorkers(x: World, y: World, w: Worker, id: JobRunID, now: Time)
    requires WorkersOk(x) && w in x.collectors && x.collectors[w].todo != []
    requires y == x.(store := MarkCollected(x.store, id, now),
                     collectors := x.collectors[w := Deleting(x.collectors[w].todo[1..])])
    ensures WorkersOk(y)
  {
    forall v | v in y.dispatchers
      ensures DispatcherOk(y.store.jobs, y.objects, y.dispatchers[v])
    {
      assert DispatcherOk(x.store.jobs, x.objects, x.dispatchers[v]);
    }
    forall v | v in y.collectors
      ensures CollectorOk(y.store.jobs, y.collectors[v])
    {
      assert CollectorOk(x.store.jobs, x.collectors[v]);
      assert forall i :: 0 <= i < |x.collectors[v].todo| ==> Ended(x.store.jobs, x.collectors[v].todo[i]);
    }
  }

  // ---------------------------------------------------------------- ingestion

  /** Deliveries only gain bindings, and no worker gets news. */
  lemma NewsKept(a: Deliveries, b: Deliveries, reports: map<DeliveryKey, nat>,
                 before: map<Worker, Ingesting>, after: map<Worker, Ingesting>)
    requires DeliveriesGrow(a, b) && Reported(a, reports, before)
    requires forall k, w :: HoldsNews(after, k, w) ==> HoldsNews(before, k, w)
    ensures Reported(b, reports, after)
  {
    forall k
      ensures NewsOk(b, reports, after, k)
    {
      assert NewsOk(a, reports, before, k);
      assert IsBound(a, k) ==> IsBound(b, k);
    }
  }

  lemma RecordedQuiet(x: World, d: Delivery, now: Time)
    requires Inv(x)
    ensures var t := RecordDelivery(x.store, d, now);
            Valid(t) && Paired(x.(store := t)) && WorkersOk(x.(store := t)) && Grows(x.store, t)
  {
    var t := RecordDelivery(x.store, d, now);
    RecordKeeps(x.store, d, now);
    assert t.jobs == x.store.jobs;
    SamePairs(x, x.(store := t));
  }

  /** Only the ingesters differ, and the changed ones are right. */
  lemma IngestersMoved(x: World, y: World)
    requires Paired(x) && WorkersOk(x)
    requires y == x.(ingesters := y.ingesters, reports := y.reports)
    requires forall w {:trigger y.ingesters[w]} :: w in y.ingesters ==>
               (w in x.ingesters && y.ingesters[w] == x.ingesters[w]) || IngesterOk(x.store.deliveries, y.ingesters[w])
    ensures Paired(y) && WorkersOk(y)
  {
    SamePairs(x, y);
  }

  /** The store took a step that suits the others, and one ingester moved on
      without news. */
  lemma IngesterGets(x: World, t: Store, w: Worker, p: Ingesting)
    requires Valid(t) && Paired(x.(store := t)) && WorkersOk(x.(store := t)) && DeliveriesGrow(x.store.deliveries, t.deliveries)
    requires Reported(x.store.deliveries, x.reports, x.ingesters) && !p.Reporting? && IngesterOk(t.deliveries, p)
    ensures Inv(x.(store := t, ingesters := x.ingesters[w := p]))
  {
    var y := x.(store := t, ingesters := x.ingesters[w := p]);
    IngestersMoved(x.(store := t), y);
    NewsKept(x.store.deliveries, t.deliveries, x.reports, x.ingesters, y.ingesters);
  }

  lemma IngesterStays(x: World, t: Store)
    requires Valid(t) && Paired(x.(store := t)) && WorkersOk(x.(store := t)) && DeliveriesGrow(x.store.deliveries, t.deliveries)
    requires Reported(x.store.deliveries, x.reports, x.ingesters)
    ensures Inv(x.(store := t))
  {
    NewsKept(x.store.deliveries, t.deliveries, x.reports, x.ingesters, x.ingesters);
  }

  lemma IngesterLeaves(x: World, w: Worker)
    requires Inv(x)
    ensures Inv(x.(ingesters := x.ingesters - {w}))
  {
    var y := x.(ingesters := x.ingesters - {w});
    IngestersMoved(x, y);
    NewsKept(x.store.deliveries, x.store.deliveries, x.reports, x.ingesters, y.ingesters);
  }

  lemma IngestRecordKeeps(x: World, w: Worker, d: Delivery, now: Time)
    requires Inv(x) && Enabled(x, IngestRecord(w, d, now))
    ensures Inv(Next(x, IngestRecord(w, d, now)))
  {
    var t := RecordDelivery(x.store, d, now);
    RecordedQuiet(x, d, now);
    if t.deliveries[d.key].runId.Some? { IngesterStays(x, t); } else { IngesterGets(x, t, w, Recorded(d)); }
  }

  lemma IngestCompileKeeps(x: World, w: Worker, jobs: seq<JobIntent>)
    requires Inv(x) && Enabled(x, IngestCompile(w, jobs))
    ensures Inv(Next(x, IngestCompile(w, jobs)))
  {
    var d := x.ingesters[w].d;
    assert IngesterOk(x.store.deliveries, x.ingesters[w]);
    if jobs == [] {
      IngesterLeaves(x, w);
    } else {
      IngesterGets(x, x.store, w, Compiled(RunSeed(d.key, d.event, jobs)));
    }
  }

  lemma IngestCreateKeeps(x: World, w: Worker, now: Time, run: RunID, ids: seq<JobRunID>)
    requires Inv(x) && Enabled(x, IngestCreate(w, now, run, ids))
    ensures Inv(Next(x, IngestCreate(w, now, run, ids)))
  {
    var seed := x.ingesters[w].seed;
    var t, created := CreateRun(x.store, seed, now, run, ids), CreateOutcomeOf(x.store, seed, now, run).Created?;
    CreatedQuiet(x, seed, now, run, ids, t);
    CreateBinds(x.store, seed, now, run, ids, t, created);
    NewsStarts(x.store.deliveries, t.deliveries, x.reports, x.ingesters, w, seed.delivery, created);
    AnsweredKeeps(x, w, t, seed, created);
  }

  lemma AnsweredKeeps(x: World, w: Worker, t: Store, seed: RunSeed, created: bool)
    requires Valid(t) && Paired(x.(store := t)) && WorkersOk(x.(store := t))
    requires created ==> IsBound(t.deliveries, seed.delivery)
    requires Reported(t.deliveries, x.reports, x.ingesters[w := Reporting(seed.delivery, created)])
    ensures Inv(Answered(x, w, t, seed, created))
  {
    IngestersMoved(x.(store := t), Answered(x, w, t, seed, created));
  }

  lemma CreatedQuiet(x: World, seed: RunSeed, now: Time, run: RunID, ids: seq<JobRunID>, t: Store)
    requires Inv(x) && FreshIds(x.store, seed, run, ids) && t == CreateRun(x.store, seed, now, run, ids)
    ensures Valid(t) && Paired(x.(store := t)) && WorkersOk(x.(store := t)) && Grows(x.store, t)
  {
    CreateKeeps(x.store, seed, now, run, ids);
    QuietCreate(x.store, seed, now, run, ids);
    QuietKeeps(x, t);
  }

  /** Only an unbound delivery gets a run, and then it is bound. */
  lemma CreateBinds(s: Store, seed: RunSeed, now: Time, run: RunID, ids: seq<JobRunID>, t: Store, created: bool)
    requires FreshIds(s, seed, run, ids)
    requires t == CreateRun(s, seed, now, run, ids) && created == CreateOutcomeOf(s, seed, now, run).Created?
    ensures created ==> !IsBound(s.deliveries, seed.delivery) && IsBound(t.deliveries, seed.delivery)
  {}

  lemma NewsStarts(a: Deliveries, b: Deliveries, reports: map<DeliveryKey, nat>, before: map<Worker, Ingesting>,
                   w: Worker, key: DeliveryKey, created: bool)
    requires DeliveriesGrow(a, b) && Reported(a, reports, before) && w in before && !before[w].Reporting?
    requires created ==> !IsBound(a, key) && IsBound(b, key)
    ensures Reported(b, reports, before[w := Reporting(key, created)])
  {
    var after := before[w := Reporting(key, created)];
    forall k
      ensures NewsOk(b, reports, after, k)
    {
      assert NewsOk(a, reports, before, k);
      assert IsBound(a, k) ==> IsBound(b, k);
      assert forall v :: HoldsNews(after, k, v) ==> HoldsNews(before, k, v) || (v == w && k == key && created);
    }
  }

  lemma IngestReportKeeps(x: World, w: Worker)
    requires Inv(x) && Enabled(x, IngestReport(w))
    ensures Inv(Next(x, IngestReport(w)))
  {
    var y := Next(x, IngestReport(w));
    IngestersMoved(x, y);
    NewsArrives(x.store.deliveries, x.reports, x.ingesters, w);
  }

  lemma NewsArrives(ds: Deliveries, reports: map<DeliveryKey, nat>, before: map<Worker, Ingesting>, w: Worker)
    requires Reported(ds, reports, before) && w in before && before[w].Reporting?
    ensures Reported(ds, AddReport(reports, before[w].key, before[w].created), before - {w})
  {
    var after := AddReport(reports, before[w].key, before[w].created);
    forall k
      ensures NewsOk(ds, after, before - {w}, k)
    {
      assert NewsOk(ds, reports, before, k);
      assert before[w].created && k == before[w].key ==> HoldsNews(before, k, w);
      assert forall v :: HoldsNews(before - {w}, k, v) <==> v != w && HoldsNews(before, k, v);
    }
  }

  lemma VanishKeeps(x: World, w: Worker)
    requires Inv(x)
    ensures Inv(Next(x, Vanish(w)))
  {
    var y := Next(x, Vanish(w));
    SamePairs(x, y);
    NewsKept(x.store.deliveries, x.store.deliveries, x.reports, x.ingesters, y.ingesters);
  }

  // ---------------------------------------------------------------- every reachable state

  lemma NextKeeps(x: World, a: Action)
    requires Inv(x) && Enabled(x, a)
    ensures Inv(Next(x, a))
  {
    match a
    case Call(op) => CallKeeps(x, op);
    case DispatchCheck(w, id) => DispatchCheckKeeps(x, w, id);
    case DispatchCreate(w) => DispatchCreateKeeps(x, w);
    case DispatchAck(w, now) => DispatchAckKeeps(x, w, now);
    case CollectList(w, todo) => CollectListKeeps(x, w, todo);
    case CollectDelete(w) => CollectDeleteKeeps(x, w);
    case CollectMark(w, now) => CollectMarkKeeps(x, w, now);
    case IngestRecord(w, d, now) => IngestRecordKeeps(x, w, d, now);
    case IngestCompile(w, jobs) => IngestCompileKeeps(x, w, jobs);
    case IngestCreate(w, now, run, ids) => IngestCreateKeeps(x, w, now, run, ids);
    case IngestReport(w) => IngestReportKeeps(x, w);
    case Vanish(w) => VanishKeeps(x, w);
  }

  /** The actions, in this order, lead from x to y. */
  ghost predicate Reaches(x: World, actions: seq<Action>, y: World)
    requires Inv(x)
    decreases |actions|
  {
    if actions == [] then x == y
    else
      Enabled(x, actions[0]) && (NextKeeps(x, actions[0]); Reaches(Next(x, actions[0]), actions[1..], y))
  }

  lemma StartOk()
    ensures Inv(Start)
  {
    EmptyValid();
  }

  /** x is reachable from the empty system by these actions. */
  ghost predicate Reachable(actions: seq<Action>, x: World) {
    StartOk(); Reaches(Start, actions, x)
  }

  lemma {:induction false} ReachesKeep(x: World, actions: seq<Action>, y: World)
    requires Inv(x) && Reaches(x, actions, y)
    ensures Inv(y)
    decreases |actions|
  {
    if actions != [] {
      NextKeeps(x, actions[0]);
      ReachesKeep(Next(x, actions[0]), actions[1..], y);
    }
  }

  lemma ReachableKeeps(actions: seq<Action>, x: World)
    requires Reachable(actions, x)
    ensures Inv(x)
  {
    StartOk();
    ReachesKeep(Start, actions, x);
  }
}
