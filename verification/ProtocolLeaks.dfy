/** The objects of ended jobs: exactly when one can come back after it is gone,
    exactly when one that is there can still be removed, and the two ways in
    which one is left for good. */
module ProtocolLeaks {
  import opened Prelude
  import opened RunModel
  import opened StoreSpec
  import opened StoreInvariants
  import opened StoreGrowth
  import opened StoreHistory
  import opened StoreLater
  import opened StoreLimits
  import opened StoreWitness
  import opened Protocol
  import opened ProtocolTheorems

  /** Dispatcher w is past its check of job id. */
  predicate PastCheck(x: World, w: Worker, id: JobRunID) {
    w in x.dispatchers && x.dispatchers[w] == Checked(id)
  }

  /** The jobs whose objects a collector has listed and not deleted yet. */
  function ToDelete(p: Collecting): seq<JobRunID> {
    if p.Deleting? || p.todo == [] then p.todo else p.todo[1..]
  }

  predicate Pending(x: World, w: Worker, id: JobRunID) {
    w in x.collectors && id in ToDelete(x.collectors[w])
  }

  lemma EndedStays(x: World, a: Action, id: JobRunID)
    requires Inv(x) && Enabled(x, a) && Ended(x.store.jobs, id)
    ensures Ended(Next(x, a).store.jobs, id) && Next(x, a).store.jobs[id].runId == x.store.jobs[id].runId
    ensures x.store.jobs[id].collectedAt.Some? ==> Next(x, a).store.jobs[id].collectedAt.Some?
  {
    NextGrows(x, a);
    assert JobGrows(x.store.jobs[id], Next(x, a).store.jobs[id]);
  }

  // ---------------------------------------------------------------- coming back

  predicate Dispatches(a: Action) {
    a.DispatchCheck? || a.DispatchCreate? || a.DispatchAck? || a.Vanish?
  }

  predicate Elsewhere(x: World, y: World) {
    y.dispatchers == x.dispatchers && y.collectors == x.collectors && y.objects == x.objects
  }

  lemma ReceiveSame(x: World, w: Worker, d: Delivery, now: Time)
    ensures Elsewhere(x, Receive(x, w, d, now))
  {}

  lemma CompileSame(x: World, w: Worker, d: Delivery, jobs: seq<JobIntent>)
    ensures Elsewhere(x, Compile(x, w, d, jobs))
  {}

  lemma IngestSame(x: World, a: Action)
    requires Valid(x.store) && Enabled(x, a) && Ingests(a) && !a.Vanish?
    ensures Elsewhere(x, Next(x, a))
  {
    match a
    case IngestRecord(w, d, now) => ReceiveSame(x, w, d, now);
    case IngestCompile(w, jobs) => CompileSame(x, w, x.ingesters[w].d, jobs);
    case IngestCreate(w, now, run, ids) =>
    case IngestReport(w) =>
  }

  lemma DispatchersSame(x: World, a: Action)
    requires Valid(x.store) && Enabled(x, a) && !Dispatches(a)
    ensures Next(x, a).dispatchers == x.dispatchers && Next(x, a).objects.Keys <= x.objects.Keys
  {
    if Ingests(a) {
      IngestSame(x, a);
    } else {
      match a
      case Call(op) =>
      case CollectList(v, todo) =>
      case CollectDelete(v) =>
      case CollectMark(v, now) =>
    }
  }

  /** Only a dispatcher past its check inserts an object. */
  lemma ObjectSource(x: World, a: Action, id: JobRunID)
    requires Valid(x.store) && Enabled(x, a) && id !in x.objects && id in Next(x, a).objects
    ensures a.DispatchCreate? && PastCheck(x, a.w, id)
  {
    if !Dispatches(a) {
      DispatchersSame(x, a);
    } else {
      match a
      case DispatchCheck(v, j) =>
      case DispatchCreate(v) =>
      case DispatchAck(v, now) =>
      case Vanish(v) =>
    }
  }

  /** Only an open job passes the check. */
  lemma CheckSource(x: World, a: Action, w: Worker, id: JobRunID)
    requires Valid(x.store) && Enabled(x, a) && PastCheck(Next(x, a), w, id)
    ensures PastCheck(x, w, id) || Dispatchable(x.store, id)
  {
    if !Dispatches(a) {
      DispatchersSame(x, a);
    } else {
      match a
      case DispatchCheck(v, j) =>
      case DispatchCreate(v) =>
      case DispatchAck(v, now) =>
      case Vanish(v) =>
    }
  }

  ghost predicate Gone(x: World, id: JobRunID) {
    Ended(x.store.jobs, id) && id !in x.objects && forall w :: !PastCheck(x, w, id)
  }

  lemma GoneStays(x: World, a: Action, id: JobRunID)
    requires Inv(x) && Enabled(x, a) && Gone(x, id)
    ensures Gone(Next(x, a), id)
  {
    var y := Next(x, a);
    EndedStays(x, a, id);
    if id in y.objects { ObjectSource(x, a, id); }
    forall w
      ensures !PastCheck(y, w, id)
    {
      if PastCheck(y, w, id) { CheckSource(x, a, w, id); }
    }
  }

  lemma {:induction false} GoneForever(x: World, actions: seq<Action>, y: World, id: JobRunID)
    requires Inv(x) && Reaches(x, actions, y) && Gone(x, id)
    ensures Gone(y, id)
    decreases |actions|
  {
    if actions != [] {
      var z := ReachesSplit(x, actions, y);
      GoneStays(x, actions[0], id);
      GoneForever(z, actions[1..], y, id);
    }
  }

  ghost predicate BackAfter(x: World, id: JobRunID, actions: seq<Action>, y: World)
    requires Inv(x)
  {
    Reaches(x, actions, y) && id in y.objects
  }

  lemma InsertsObject(x: World, w: Worker, id: JobRunID) returns (y: World)
    requires Inv(x) && PastCheck(x, w, id)
    ensures Reaches(x, [DispatchCreate(w)], y) && Inv(y) && y.store == x.store && id in y.objects
    ensures y.collectors == x.collectors && y.dispatchers == x.dispatchers[w := Holding(id, y.objects[id])]
  {
    y := ReachesOne(x, DispatchCreate(w));
  }

  /** The object of an ended job, once gone, comes back in some continuation
      exactly when some dispatcher is past its check of the job. */
  lemma ReturnsIff(x: World, id: JobRunID)
    requires Inv(x) && Ended(x.store.jobs, id) && id !in x.objects
    ensures (exists actions, y :: BackAfter(x, id, actions, y)) <==> exists w :: PastCheck(x, w, id)
  {
    if exists w :: PastCheck(x, w, id) {
      var w :| PastCheck(x, w, id);
      var y := InsertsObject(x, w, id);
      assert BackAfter(x, id, [DispatchCreate(w)], y);
    } else {
      forall actions, y | BackAfter(x, id, actions, y)
        ensures false
      {
        GoneForever(x, actions, y, id);
      }
    }
  }

  // ---------------------------------------------------------------- being removed

  /** A collector may list the job once its run is closed. */
  predicate Collectable(s: Store, id: JobRunID) {
    id in s.jobs && s.jobs[id].collectedAt.None? && s.jobs[id].runId in s.runs
  }

  ghost predicate Stuck(x: World, id: JobRunID) {
    Ended(x.store.jobs, id) && id in x.objects && !Collectable(x.store, id) && forall w :: !Pending(x, w, id)
  }

  lemma UncommittedStays(x: World, a: Action, id: JobRunID)
    requires Inv(x) && Enabled(x, a) && Uncommitted(x.store, id)
    ensures Uncommitted(StoreAfter(x, a), id)
  {
    match a
    case Call(op) => StepUncommitted(x.store, op, id);
    case DispatchAck(w, now) =>
      AckRuns(x.store, x.dispatchers[w].id, ActiveObject(CRName(x.dispatchers[w].id), x.dispatchers[w].obj.uid), now);
      AckKeeps(x.store, x.dispatchers[w].id, ActiveObject(CRName(x.dispatchers[w].id), x.dispatchers[w].obj.uid), now);
    case CollectMark(w, now) => MarkRuns(x.store, x.collectors[w].todo[0], now);
    case IngestRecord(w, d, now) =>
    case IngestCreate(w, now, run, ids) =>
      StepUncommitted(x.store, OpCreate(x.ingesters[w].seed, now, run, ids), id);
    case _ =>
  }

  lemma NotCollectableStays(x: World, a: Action, id: JobRunID)
    requires Inv(x) && Enabled(x, a) && Ended(x.store.jobs, id) && !Collectable(x.store, id)
    ensures !Collectable(Next(x, a).store, id)
  {
    EndedStays(x, a, id);
    if x.store.jobs[id].collectedAt.None? {
      UncommittedStays(x, a, id);
      StoreAfterIs(x, a);
    }
  }

  predicate Collects(a: Action) {
    a.CollectList? || a.CollectDelete? || a.CollectMark? || a.Vanish?
  }

  lemma CollectorsSame(x: World, a: Action)
    requires Valid(x.store) && Enabled(x, a) && !Collects(a)
    ensures Next(x, a).collectors == x.collectors
  {
    if Ingests(a) {
      IngestSame(x, a);
    } else {
      match a
      case Call(op) =>
      case DispatchCheck(v, id) =>
      case DispatchCreate(v) =>
      case DispatchAck(v, now) =>
    }
  }

  /** Only collectable jobs get onto a list. */
  lemma PendingSource(x: World, a: Action, w: Worker, id: JobRunID)
    requires Valid(x.store) && Enabled(x, a) && Pending(Next(x, a), w, id)
    ensures Pending(x, w, id) || Collectable(x.store, id)
  {
    if !Collects(a) {
      CollectorsSame(x, a);
    } else {
      match a
      case CollectList(v, todo) =>
      case CollectDelete(v) =>
      case CollectMark(v, now) =>
      case Vanish(v) =>
    }
  }

  lemma RemovalSource(x: World, a: Action, id: JobRunID)
    requires Valid(x.store) && Enabled(x, a) && id in x.objects && id !in Next(x, a).objects
    ensures a.CollectDelete? && Pending(x, a.w, id)
  {
    if !a.CollectDelete? { ObjectsKept(x, a); }
  }

  lemma StuckStays(x: World, a: Action, id: JobRunID)
    requires Inv(x) && Enabled(x, a) && Stuck(x, id)
    ensures Stuck(Next(x, a), id)
  {
    var y := Next(x, a);
    EndedStays(x, a, id);
    NotCollectableStays(x, a, id);
    if id !in y.objects { RemovalSource(x, a, id); }
    forall w
      ensures !Pending(y, w, id)
    {
      if Pending(y, w, id) { PendingSource(x, a, w, id); }
    }
  }

  lemma {:induction false} StuckForever(x: World, actions: seq<Action>, y: World, id: JobRunID)
    requires Inv(x) && Reaches(x, actions, y) && Stuck(x, id)
    ensures Stuck(y, id)
    decreases |actions|
  {
    if actions != [] {
      var z := ReachesSplit(x, actions, y);
      StuckStays(x, actions[0], id);
      StuckForever(z, actions[1..], y, id);
    }
  }

  ghost predicate RemovedAfter(x: World, id: JobRunID, actions: seq<Action>, y: World)
    requires Inv(x)
  {
    Reaches(x, actions, y) && id !in y.objects
  }

  lemma Onward(x: World, a: Action, y: World, id: JobRunID, rest: seq<Action>, z: World)
    requires Inv(x) && Enabled(x, a) && y == Next(x, a) && Inv(y) && RemovedAfter(y, id, rest, z)
    ensures RemovedAfter(x, id, [a] + rest, z)
  {
    ReachesCons(x, a, y, rest, z);
  }

  /** A collector that has listed the job gets to it. */
  lemma {:induction false} Drains(x: World, w: Worker, id: JobRunID) returns (actions: seq<Action>, z: World)
    requires Inv(x) && Pending(x, w, id)
    ensures RemovedAfter(x, id, actions, z)
    decreases |x.collectors[w].todo|, x.collectors[w].Deleting?
  {
    var p := x.collectors[w];
    var a := if p.Deleting? then CollectDelete(w) else CollectMark(w, 0);
    NextKeeps(x, a);
    var y := Next(x, a);
    if p.Deleting? && p.todo[0] == id {
      actions := [a];
      z := ReachesOne(x, a);
    } else {
      StillPending(x, w, id, a, y);
      var rest;
      rest, z := Drains(y, w, id);
      actions := [a] + rest;
      Onward(x, a, y, id, rest, z);
    }
  }

  lemma StillPending(x: World, w: Worker, id: JobRunID, a: Action, y: World)
    requires Valid(x.store) && Pending(x, w, id) && (x.collectors[w].Deleting? ==> x.collectors[w].todo[0] != id)
    requires a == if x.collectors[w].Deleting? then CollectDelete(w) else CollectMark(w, 0)
    requires Enabled(x, a) && y == Next(x, a)
    ensures Pending(y, w, id)
    ensures if x.collectors[w].Deleting? then y.collectors[w] == Marking(x.collectors[w].todo)
            else y.collectors[w] == Deleting(x.collectors[w].todo[1..])
  {}

  /** Cancelling an open run closes it; an ended job in it is then collectable. */
  lemma ClosesRun(x: World, id: JobRunID) returns (a: Action, y: World)
    requires Inv(x) && Ended(x.store.jobs, id) && Collectable(x.store, id)
    ensures Enabled(x, a) && y == Next(x, a) && Inv(y) && GCReady(y.store, id) && y.objects == x.objects
  {
    a := Call(OpCancel(x.store.jobs[id].runId, 0));
    NextKeeps(x, a);
    y := Next(x, a);
    CancelledReady(x.store, id);
  }

  lemma CancelledReady(s: Store, id: JobRunID)
    requires Ended(s.jobs, id) && Collectable(s, id)
    ensures GCReady(CancelRun(s, s.jobs[id].runId, 0), id)
  {}

  lemma {:induction false} Enumerated(ids: set<JobRunID>) returns (todo: seq<JobRunID>)
    ensures (forall id :: id in todo <==> id in ids) && forall i, j :: 0 <= i < j < |todo| ==> todo[i] != todo[j]
    decreases |ids|
  {
    if ids == {} { return []; }
    var id :| id in ids;
    var rest := Enumerated(ids - {id});
    todo := [id] + rest;
  }

  /** There is a list for a collector to take. */
  lemma ReadyList(s: Store) returns (todo: seq<JobRunID>)
    ensures ListsReady(s, todo)
  {
    todo := Enumerated(set id | id in s.jobs && GCReady(s, id));
    assert forall i :: 0 <= i < |todo| ==> todo[i] in todo;
  }

  lemma ListsJob(x: World, id: JobRunID) returns (actions: seq<Action>, z: World)
    requires Inv(x) && GCReady(x.store, id)
    ensures RemovedAfter(x, id, actions, z)
  {
    var leave := Vanish(0);
    NextKeeps(x, leave);
    var y := Next(x, leave);
    var rest;
    rest, z := ListsAndDrains(y, id);
    Onward(x, leave, y, id, rest, z);
    actions := [leave] + rest;
  }

  lemma ListsAndDrains(y: World, id: JobRunID) returns (actions: seq<Action>, z: World)
    requires Inv(y) && GCReady(y.store, id) && 0 !in y.collectors
    ensures RemovedAfter(y, id, actions, z)
  {
    var todo := ReadyList(y.store);
    var list := CollectList(0, todo);
    NextKeeps(y, list);
    var u := Next(y, list);
    var rest;
    rest, z := Drains(u, 0, id);
    Onward(y, list, u, id, rest, z);
    actions := [list] + rest;
  }

  lemma Removes(x: World, id: JobRunID) returns (actions: seq<Action>, z: World)
    requires Inv(x) && Ended(x.store.jobs, id) && (Collectable(x.store, id) || exists w :: Pending(x, w, id))
    ensures RemovedAfter(x, id, actions, z)
  {
    if Collectable(x.store, id) {
      var a, u := ClosesRun(x, id);
      var rest;
      rest, z := ListsJob(u, id);
      actions := [a] + rest;
      Onward(x, a, u, id, rest, z);
    } else {
      var w :| Pending(x, w, id);
      actions, z := Drains(x, w, id);
    }
  }

  lemma NeverRemoved(x: World, id: JobRunID)
    requires Inv(x) && Stuck(x, id)
    ensures !exists actions, y :: RemovedAfter(x, id, actions, y)
  {
    forall actions, y
      ensures !RemovedAfter(x, id, actions, y)
    {
      if Reaches(x, actions, y) { StuckForever(x, actions, y, id); }
    }
  }

  /** The object of an ended job can still be removed exactly when the job is not
      marked collected and its run exists, or a collector has it on its list. */
  lemma RemovableIff(x: World, id: JobRunID)
    requires Inv(x) && Ended(x.store.jobs, id) && id in x.objects
    ensures (exists actions, y :: RemovedAfter(x, id, actions, y)) <==>
            Collectable(x.store, id) || exists w :: Pending(x, w, id)
  {
    if Stuck(x, id) {
      NeverRemoved(x, id);
    } else {
      var actions, y := Removes(x, id);
    }
  }

  // ---------------------------------------------------------------- left for good: the stale dispatcher

  /** Cancelling the run of an open job makes the job collectable. */
  lemma CancelMakesReady(s: Store, id: JobRunID, now: Time)
    requires Valid(s) && id in s.jobs && !s.jobs[id].status.IsTerminal() && s.jobs[id].collectedAt.None?
    requires s.jobs[id].runId in s.runs
    ensures GCReady(CancelRun(s, s.jobs[id].runId, now), id)
  {
    OpenJobOpenRun(s, id);
    assert JobOk(s.runs.Keys, s.runJobs, s.jobs, id);
  }

  lemma LeakCancel(x: World, w: Worker, id: JobRunID) returns (a: Action, y: World)
    requires Inv(x) && PastCheck(x, w, id)
    requires id in x.store.jobs && !x.store.jobs[id].status.IsTerminal() && x.store.jobs[id].runId in x.store.runs
    ensures Reaches(x, [a], y) && Inv(y) && PastCheck(y, w, id) && GCReady(y.store, id) && y.collectors == x.collectors
  {
    assert Pair(x.store.jobs, x.objects, x.inserts, id);
    CancelMakesReady(x.store, id, 0);
    a := Call(OpCancel(x.store.jobs[id].runId, 0));
    y := ReachesOne(x, a);
  }

  lemma LeakList(x: World, w: Worker, id: JobRunID, c: Worker) returns (a: Action, y: World, todo: seq<JobRunID>)
    requires Inv(x) && PastCheck(x, w, id) && GCReady(x.store, id) && c !in x.collectors
    ensures Reaches(x, [a], y) && Inv(y) && PastCheck(y, w, id) && y.collectors == x.collectors[c := Deleting(todo)]
    ensures Ended(y.store.jobs, id) && id in todo
  {
    todo := ReadyList(x.store);
    a := CollectList(c, todo);
    y := ReachesOne(x, a);
  }

  lemma LeakDelete(x: World, w: Worker, id: JobRunID, c: Worker, todo: seq<JobRunID>) returns (a: Action, y: World)
    requires Inv(x) && PastCheck(x, w, id) && c in x.collectors && x.collectors[c] == Deleting(todo) && todo != []
    ensures Reaches(x, [a], y) && Inv(y) && PastCheck(y, w, id) && y.collectors == x.collectors[c := Marking(todo)]
    ensures y.store == x.store
  {
    a := CollectDelete(c);
    y := ReachesOne(x, a);
  }

  lemma LeakMark(x: World, w: Worker, id: JobRunID, c: Worker, todo: seq<JobRunID>) returns (a: Action, y: World)
    requires Inv(x) && PastCheck(x, w, id) && c in x.collectors && x.collectors[c] == Marking(todo) && todo != []
    requires Ended(x.store.jobs, id)
    ensures Reaches(x, [a], y) && Inv(y) && PastCheck(y, w, id) && y.collectors == x.collectors[c := Deleting(todo[1..])]
    ensures Ended(y.store.jobs, id)
    ensures todo[0] == id || x.store.jobs[id].collectedAt.Some? ==> y.store.jobs[id].collectedAt.Some?
  {
    a := CollectMark(c, 0);
    y := ReachesOne(x, a);
    EndedStays(x, a, id);
  }

  /** The collector is through with the first job of its list. */
  lemma SweepsOne(x: World, w: Worker, id: JobRunID, c: Worker, todo: seq<JobRunID>) returns (actions: seq<Action>, y: World)
    requires Inv(x) && PastCheck(x, w, id) && c in x.collectors && x.collectors[c] == Deleting(todo) && todo != []
    requires Ended(x.store.jobs, id)
    ensures Reaches(x, actions, y) && Inv(y) && PastCheck(y, w, id) && y.collectors == x.collectors[c := Deleting(todo[1..])]
    ensures Ended(y.store.jobs, id)
    ensures todo[0] == id || x.store.jobs[id].collectedAt.Some? ==> y.store.jobs[id].collectedAt.Some?
  {
    var a, u := LeakDelete(x, w, id, c, todo);
    var b;
    b, y := LeakMark(u, w, id, c, todo);
    UpdatedTwice(x.collectors, c, Marking(todo), Deleting(todo[1..]));
    ReachesJoin(x, [a], u, [b], y);
    actions := [a] + [b];
  }

  /** The collector is through with its whole list. */
  lemma {:induction false} SweepsAll(x: World, w: Worker, id: JobRunID, c: Worker, todo: seq<JobRunID>)
    returns (actions: seq<Action>, y: World)
    requires Inv(x) && PastCheck(x, w, id) && c in x.collectors && x.collectors[c] == Deleting(todo)
    requires Ended(x.store.jobs, id) && (id in todo || x.store.jobs[id].collectedAt.Some?)
    ensures Reaches(x, actions, y) && Inv(y) && PastCheck(y, w, id) && y.collectors == x.collectors[c := Deleting([])]
    ensures Ended(y.store.jobs, id) && y.store.jobs[id].collectedAt.Some?
    decreases |todo|
  {
    if todo == [] {
      actions, y := [], x;
      assert x.collectors[c := Deleting([])] == x.collectors;
    } else {
      var first, u := SweepsOne(x, w, id, c, todo);
      var second;
      second, y := SweepsAll(u, w, id, c, todo[1..]);
      UpdatedTwice(x.collectors, c, Deleting(todo[1..]), Deleting([]));
      ReachesJoin(x, first, u, second, y);
      actions := first + second;
    }
  }

  /** No collector lists an open job. */
  lemma OpenNotPending(x: World, id: JobRunID, w: Worker)
    requires Inv(x) && !Ended(x.store.jobs, id)
    ensures !Pending(x, w, id)
  {
    if w in x.collectors { assert CollectorOk(x.store.jobs, x.collectors[w]); }
  }

  lemma NonePending(x: World, y: World, id: JobRunID, c: Worker)
    requires Inv(x) && !Ended(x.store.jobs, id) && y.collectors == x.collectors[c := Deleting([])]
    ensures forall v :: !Pending(y, v, id)
  {
    forall v
      ensures !Pending(y, v, id)
    {
      OpenNotPending(x, id, v);
    }
  }

  lemma ListedMeanwhile(x: World, w: Worker, id: JobRunID, c: Worker) returns (actions: seq<Action>, y: World, todo: seq<JobRunID>)
    requires Inv(x) && PastCheck(x, w, id) && c !in x.collectors
    requires id in x.store.jobs && !x.store.jobs[id].status.IsTerminal() && x.store.jobs[id].runId in x.store.runs
    ensures Reaches(x, actions, y) && Inv(y) && PastCheck(y, w, id) && Ended(y.store.jobs, id)
    ensures y.collectors == x.collectors[c := Deleting(todo)] && id in todo
  {
    var a, u := LeakCancel(x, w, id);
    var b;
    b, y, todo := LeakList(u, w, id, c);
    ReachesJoin(x, [a], u, [b], y);
    actions := [a] + [b];
  }

  /** Cancel and collect completely while the dispatcher waits. */
  lemma CollectedMeanwhile(x: World, w: Worker, id: JobRunID, c: Worker) returns (actions: seq<Action>, y: World)
    requires Inv(x) && PastCheck(x, w, id) && c !in x.collectors
    requires id in x.store.jobs && !x.store.jobs[id].status.IsTerminal() && x.store.jobs[id].runId in x.store.runs
    ensures Reaches(x, actions, y) && Inv(y) && PastCheck(y, w, id) && y.collectors == x.collectors[c := Deleting([])]
    ensures Ended(y.store.jobs, id) && y.store.jobs[id].collectedAt.Some?
  {
    var first, u, todo := ListedMeanwhile(x, w, id, c);
    var second;
    second, y := SweepsAll(u, w, id, c, todo);
    UpdatedTwice(x.collectors, c, Deleting(todo), Deleting([]));
    ReachesJoin(x, first, u, second, y);
    actions := first + second;
  }

  lemma UpdatedTwice<K, V>(m: map<K, V>, k: K, v: V, w: V)
    ensures m[k := v][k := w] == m[k := w]
  {}

  /** The promise that the collector removes the orphan of a cancelled dispatch
      fails from every state with a dispatcher past its check of an open job:
      cancel, collect completely, then let the dispatcher go on. The object is
      there and no continuation removes it. */
  lemma StaleDispatchLeaks(x: World, w: Worker, id: JobRunID, c: Worker) returns (actions: seq<Action>, y: World)
    requires Inv(x) && PastCheck(x, w, id) && c !in x.collectors
    requires id in x.store.jobs && !x.store.jobs[id].status.IsTerminal() && x.store.jobs[id].runId in x.store.runs
    ensures Reaches(x, actions, y) && Inv(y) && Stuck(y, id)
  {
    var before, u := CollectedMeanwhile(x, w, id, c);
    y := InsertsObject(u, w, id);
    ReachesJoin(x, before, u, [DispatchCreate(w)], y);
    actions := before + [DispatchCreate(w)];
    NonePending(x, y, id, c);
  }

  // ---------------------------------------------------------------- left for good: the run that never existed

  lemma ChecksQueued(x: World, w: Worker, id: JobRunID) returns (y: World)
    requires Inv(x) && w !in x.dispatchers && Dispatchable(x.store, id)
    ensures Reaches(x, [DispatchCheck(w, id)], y) && Inv(y) && PastCheck(y, w, id)
    ensures y.store == x.store && y.collectors == x.collectors
  {
    y := ReachesOne(x, DispatchCheck(w, id));
  }

  lemma ObservesEnd(x: World, id: JobRunID) returns (a: Action, y: World)
    requires Inv(x) && id in x.store.jobs && x.store.jobs[id].status.JobQueued? && Uncommitted(x.store, id)
    ensures Reaches(x, [a], y) && Inv(y) && y.objects == x.objects && y.collectors == x.collectors
    ensures Ended(y.store.jobs, id) && Uncommitted(y.store, id)
  {
    a := Call(OpObserve(id, PhaseSucceeded, 0));
    y := ReachesOne(x, a);
    StepUncommitted(x.store, a.op, id);
    ObservedEnds(x.store, id);
  }

  lemma ObservedEnds(s: Store, id: JobRunID)
    requires Valid(s) && id in s.jobs && s.jobs[id].status.JobQueued?
    ensures ListedExist(s.runJobs, s.jobs.Keys, s.jobs[id].runId) && Ended(ApplyObserved(s, id, PhaseSucceeded, 0).jobs, id)
  {
    ObserveKeeps(s, id, PhaseSucceeded, 0);
  }

  /** A queued job left behind by a creation with a repeated key can be checked,
      created and observed like any other. Its object then stays in every
      continuation, for no collector ever lists it. */
  lemma UncommittedLeaks(x: World, w: Worker, id: JobRunID) returns (actions: seq<Action>, y: World)
    requires Inv(x) && w !in x.dispatchers && Uncommitted(x.store, id) && x.store.jobs[id].status.JobQueued?
    ensures Reaches(x, actions, y) && Inv(y) && Stuck(y, id)
  {
    var u := ChecksQueued(x, w, id);
    var v := InsertsObject(u, w, id);
    var a;
    a, y := ObservesEnd(v, id);
    ReachesThree(x, [DispatchCheck(w, id)], u, [DispatchCreate(w)], v, [a], y);
    actions := [DispatchCheck(w, id)] + [DispatchCreate(w)] + [a];
    forall c
      ensures !Pending(y, c, id)
    {
      OpenNotPending(x, id, c);
    }
  }

  // ---------------------------------------------------------------- both from the empty system

  /** The store after one delivery and one creation, from nothing. */
  ghost function Ingested(intents: seq<JobIntent>, run: RunID, ids: seq<JobRunID>): Store
    requires FreshIds(Received0(), RunSeed(KEY, EVENT, intents), run, ids)
  {
    CreateRun(Received0(), RunSeed(KEY, EVENT, intents), 1, run, ids)
  }

  function Received0(): Store {
    RecordDelivery(Empty, Delivery(KEY, EVENT, ""), 0)
  }

  lemma Further(first: seq<Action>, u: World, a: Action) returns (actions: seq<Action>, x: World)
    requires Reachable(first, u) && Inv(u) && Enabled(u, a)
    ensures Reachable(actions, x) && Inv(x) && x == Next(u, a)
  {
    x := ReachesOne(u, a);
    ReachableThen(first, u, [a], x);
    actions := first + [a];
  }

  lemma ReceivesOne() returns (actions: seq<Action>, u: World)
    ensures Reachable(actions, u) && Inv(u) && u.store == Received0() && u.dispatchers == map[] && u.collectors == map[]
    ensures u.ingesters == map[0 := Recorded(Delivery(KEY, EVENT, ""))]
  {
    StartOk();
    actions, u := Further([], Start, IngestRecord(0, Delivery(KEY, EVENT, ""), 0));
  }

  lemma CompilesOne(intents: seq<JobIntent>) returns (actions: seq<Action>, x: World)
    requires intents != []
    ensures Reachable(actions, x) && Inv(x) && x.store == Received0() && x.dispatchers == map[] && x.collectors == map[]
    ensures x.ingesters == map[0 := Compiled(RunSeed(KEY, EVENT, intents))]
  {
    var first, u := ReceivesOne();
    actions, x := Further(first, u, IngestCompile(0, intents));
  }

  lemma IngestsOne(intents: seq<JobIntent>, run: RunID, ids: seq<JobRunID>) returns (actions: seq<Action>, x: World)
    requires intents != [] && FreshIds(Received0(), RunSeed(KEY, EVENT, intents), run, ids)
    ensures Reachable(actions, x) && Inv(x) && x.store == Ingested(intents, run, ids)
    ensures x.dispatchers == map[] && x.collectors == map[]
  {
    StartOk();
    var first, u := CompilesOne(intents);
    x := ReachesOne(u, IngestCreate(0, 1, run, ids));
    ReachesJoin(Start, first, u, [IngestCreate(0, 1, run, ids)], x);
    actions := first + [IngestCreate(0, 1, run, ids)];
  }

  lemma ReachableThen(before: seq<Action>, x: World, after: seq<Action>, y: World)
    requires Reachable(before, x) && Inv(x) && Reaches(x, after, y)
    ensures Reachable(before + after, y)
  {
    StartOk();
    ReachesJoin(Start, before, x, after, y);
  }

  /** A dispatcher past its check of a queued job of an existing run. */
  lemma StaleStart(id: JobRunID, run: RunID, intent: JobIntent) returns (actions: seq<Action>, x: World)
    ensures Reachable(actions, x) && Inv(x) && PastCheck(x, 0, id) && x.collectors == map[]
    ensures id in x.store.jobs && x.store.jobs[id].status.JobQueued?
    ensures x.store.jobs[id].runId == run && run in x.store.runs
  {
    CreateEffect(Received0(), run, [intent], [id]);
    var first, u := IngestsOne([intent], run, [id]);
    OneRunAt(u.store, run, [intent], [id], 0);
    x := ChecksQueued(u, 0, id);
    ReachableThen(first, u, [DispatchCheck(0, id)], x);
    actions := first + [DispatchCheck(0, id)];
  }

  /** A job whose object stays for good is reachable through a stale dispatcher. */
  lemma StaleLeakReachable() returns (actions: seq<Action>, y: World, id: JobRunID)
    ensures Reachable(actions, y) && Inv(y) && Stuck(y, id) && y.store.jobs[id].runId in y.store.runs
  {
    id := "A";
    var first, x := StaleStart(id, "R", JobIntent("build", "linux", [], map[], "", ""));
    var rest;
    rest, y := StaleDispatchLeaks(x, 0, id, 0);
    StaysCommitted(x, rest, y, id);
    ReachableThen(first, x, rest, y);
    actions := first + rest;
  }

  lemma StaysCommitted(x: World, actions: seq<Action>, y: World, id: JobRunID)
    requires Inv(x) && Reaches(x, actions, y) && id in x.store.jobs && x.store.jobs[id].runId in x.store.runs
    ensures id in y.store.jobs && y.store.jobs[id].runId in y.store.runs
  {
    ReachesGrow(x, actions, y);
    assert JobGrows(x.store.jobs[id], y.store.jobs[id]);
  }

  lemma UncommittedStart(id: JobRunID, other: JobRunID, run: RunID, intent: JobIntent) returns (actions: seq<Action>, x: World)
    requires id != other
    ensures Reachable(actions, x) && Inv(x) && x.dispatchers == map[]
    ensures Uncommitted(x.store, id) && x.store.jobs[id].status.JobQueued?
  {
    var intents, ids := [intent, intent], [id, other];
    assert intents[0].jobKey == intents[1].jobKey;
    actions, x := IngestsOne(intents, run, ids);
    LeftBehind(intents, run, ids);
  }

  /** And through a workflow with a repeated job key. */
  lemma UncommittedLeakReachable() returns (actions: seq<Action>, y: World, id: JobRunID)
    ensures Reachable(actions, y) && Inv(y) && Stuck(y, id)
  {
    id := "A";
    var first, x := UncommittedStart(id, "B", "R", JobIntent("build", "linux", [], map[], "", ""));
    var rest;
    rest, y := UncommittedLeaks(x, 0, id);
    ReachableThen(first, x, rest, y);
    actions := first + rest;
  }

  // ---------------------------------------------------------------- a report lost from the empty system

  /** The run is created and committed, and its ingester vanishes before it
      answers: the creation is never reported. */
  lemma LostReportReachable() returns (actions: seq<Action>, y: World)
    ensures Reachable(actions, y) && Inv(y) && NewsLost(y, KEY)
    ensures !exists more, z :: ReportedAfter(y, KEY, more, z)
  {
    var first, x := CreatedOne("R", "A", JobIntent("build", "linux", [], map[], "", ""));
    actions, y := Further(first, x, Vanish(0));
    ReportedEverIff(y, KEY);
  }

  lemma CreatedOne(run: RunID, id: JobRunID, intent: JobIntent) returns (actions: seq<Action>, x: World)
    ensures Reachable(actions, x) && Inv(x) && x.ingesters == map[0 := Reporting(KEY, true)]
    ensures IsBound(x.store.deliveries, KEY) && Count(x.reports, KEY) == 0
  {
    var first, u := CompilesOne([intent]);
    FirstCreation(run, id, intent);
    actions, x := CreatedAfter(first, u, RunSeed(KEY, EVENT, [intent]), run, [id]);
  }

  lemma CreatedAfter(first: seq<Action>, u: World, seed: RunSeed, run: RunID, ids: seq<JobRunID>) returns (actions: seq<Action>, x: World)
    requires Reachable(first, u) && Inv(u) && u.ingesters == map[0 := Compiled(seed)] && FreshIds(u.store, seed, run, ids)
    requires CreateOutcomeOf(u.store, seed, 1, run).Created?
    ensures Reachable(actions, x) && Inv(x) && x.ingesters == map[0 := Reporting(seed.delivery, true)]
    ensures IsBound(x.store.deliveries, seed.delivery) && Count(x.reports, seed.delivery) == 0
  {
    var a := CreateEffects(u, seed, run, ids);
    actions, x := Further(first, u, a);
    NewsHeld(x, seed.delivery, 0);
  }

  lemma CreateEffects(u: World, seed: RunSeed, run: RunID, ids: seq<JobRunID>) returns (a: Action)
    requires Valid(u.store) && u.ingesters == map[0 := Compiled(seed)] && FreshIds(u.store, seed, run, ids)
    requires CreateOutcomeOf(u.store, seed, 1, run).Created?
    ensures Enabled(u, a) && Next(u, a).ingesters == map[0 := Reporting(seed.delivery, true)]
  {
    a := IngestCreate(0, 1, run, ids);
    AnsweredNews(u, CreateRun(u.store, seed, 1, run, ids), seed);
  }

  lemma AnsweredNews(u: World, t: Store, seed: RunSeed)
    requires u.ingesters == map[0 := Compiled(seed)]
    ensures Answered(u, 0, t, seed, true).ingesters == map[0 := Reporting(seed.delivery, true)]
  {}

  lemma FirstCreation(run: RunID, id: JobRunID, intent: JobIntent)
    ensures FreshIds(Received0(), RunSeed(KEY, EVENT, [intent]), run, [id])
    ensures CreateOutcomeOf(Received0(), RunSeed(KEY, EVENT, [intent]), 1, run).Created?
  {
    CreateEffect(Received0(), run, [intent], [id]);
  }

  lemma NewsHeld(x: World, k: DeliveryKey, w: Worker)
    requires Inv(x) && HoldsNews(x.ingesters, k, w)
    ensures IsBound(x.store.deliveries, k) && Count(x.reports, k) == 0
  {
    assert NewsOk(x.store.deliveries, x.reports, x.ingesters, k);
  }

  lemma LeftBehind(intents: seq<JobIntent>, run: RunID, ids: seq<JobRunID>)
    requires FreshIds(Received0(), RunSeed(KEY, EVENT, intents), run, ids)
    requires intents != [] && !DistinctKeys(intents)
    ensures Uncommitted(Ingested(intents, run, ids), ids[0]) && Ingested(intents, run, ids).jobs[ids[0]].status.JobQueued?
  {
    EmptyValid();
    RecordKeeps(Empty, Delivery(KEY, EVENT, ""), 0);
    CreateRunAtomicity(Received0(), RunSeed(KEY, EVENT, intents), 1, run, ids);
  }
}
