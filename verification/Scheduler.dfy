/** The scheduler use cases over the two stores: dispatch, collection and
    ingestion (internal/run/scheduler). A port that fails is an input. */
module Scheduler {
  import opened Prelude
  import opened RunModel
  import S = StoreSpec
  import opened StoreInvariants
  import opened StoreGrowth
  import H = StoreHistory
  import opened DurableStores
  import P = Protocol
  import Text
  import C = StoreClaims

  datatype Fault = NoFault | CreateFails | AckFails

  datatype DispatchOutcome = Dispatched | UnknownJob | NotDispatchable | CreateError | AckError

  predicate ValidIntent(j: JobIntent) {
    Text.Trim(j.jobKey) != "" && Text.Trim(j.runnerClass) != ""
  }

  datatype IngestOutcome = Bound(runId: RunID, created: bool) | NothingToRun | CompileError | InvalidIntent | CreateFailed(out: S.CreateOutcome)

  /** The jobs a collection pass acts on. */
  function Ready(s: S.Store): set<JobRunID> {
    set id | id in s.jobs && S.GCReady(s, id)
  }

  function Ids(recs: seq<JobRecord>): set<JobRunID> {
    set i | 0 <= i < |recs| :: recs[i].id
  }

  /** Which call of a collection pass fails, if any: the listing, or a deletion
      or marking at a position of the list. */
  datatype CollectFault = CollectsWell | ListFails | DeleteFails(pos: nat) | MarkFails(pos: nat)

  /** How many jobs of a list of n are deleted, and marked. */
  function Deletions(fault: CollectFault, n: nat): (r: nat)
    ensures r <= n
  {
    match fault
    case CollectsWell => n
    case ListFails => 0
    case DeleteFails(p) => if p < n then p else n
    case MarkFails(p) => if p < n then p + 1 else n
  }

  function Marks(fault: CollectFault, n: nat): (r: nat)
    ensures r <= Deletions(fault, n) <= r + 1
  {
    match fault
    case CollectsWell => n
    case ListFails => 0
    case DeleteFails(p) => if p < n then p else n
    case MarkFails(p) => if p < n then p else n
  }

  /** The list is the jobs ready for collection, each once. */
  ghost predicate ListOfReady(s: S.Store, ready: seq<JobRecord>) {
    Ids(ready) == Ready(s) && Once(ready)
  }

  /** The jobs with the uncollected ones of `hit` marked, each at its own time. */
  function Swept(jobs: S.Jobs, hit: set<JobRunID>, clock: Clock): S.Jobs {
    map id | id in jobs :: if id in hit && jobs[id].collectedAt.None? then jobs[id].(collectedAt := Some(clock(id))) else jobs[id]
  }

  lemma SweptNone(jobs: S.Jobs, clock: Clock)
    ensures Swept(jobs, {}, clock) == jobs
  {}

  lemma SweptStep(jobs: S.Jobs, hit: set<JobRunID>, id: JobRunID, clock: Clock)
    ensures Swept(jobs, hit + {id}, clock) ==
            (if id in jobs && Swept(jobs, hit, clock)[id].collectedAt.None?
             then Swept(jobs, hit, clock)[id := Swept(jobs, hit, clock)[id].(collectedAt := Some(clock(id)))]
             else Swept(jobs, hit, clock))
  {}

  /** What is marked is no longer ready; the rest still is. */
  lemma ReadyAfter(s: S.Store, hit: set<JobRunID>, clock: Clock)
    ensures Ready(s.(jobs := Swept(s.jobs, hit, clock))) == Ready(s) - hit
  {}

  /** After a pass with any fault, a pass without one leaves every job that was
      ready marked, with no object, whatever lists the two were given. */
  lemma CollectionConverges(s: S.Store, objects: map<JobRunID, S.ActiveObject>, fault: CollectFault, ready: seq<JobRecord>,
                            more: seq<JobRecord>, clock: Clock, later: Clock)
    requires ListOfReady(s, ready)
    requires ListOfReady(s.(jobs := Swept(s.jobs, Ids(ready[..Marks(fault, |ready|)]), clock)), more)
    ensures var a := Ids(ready[..Marks(fault, |ready|)]);
            var t := s.(jobs := Swept(Swept(s.jobs, a, clock), Ids(more), later));
            && Ready(t) == {}
            && (objects - Ids(ready[..Deletions(fault, |ready|)])) - Ids(more) == objects - Ready(s)
            && forall id :: id in Ready(s) ==> t.jobs[id].collectedAt == Some(if id in a then clock(id) else later(id))
  {
    var a, d := Ids(ready[..Marks(fault, |ready|)]), Ids(ready[..Deletions(fault, |ready|)]);
    var u := s.(jobs := Swept(s.jobs, a, clock));
    ReadyAfter(s, a, clock);
    ReadyAfter(u, Ids(more), later);
    PrefixIds(ready, Marks(fault, |ready|), Deletions(fault, |ready|));
    PrefixIds(ready, Deletions(fault, |ready|), |ready|);
    assert ready[..|ready|] == ready;
    assert a <= d <= Ready(s);
  }

  /** Where the marking of a job fails, its object is gone and the job is still ready;
      where its deletion fails, its object is still there. */
  lemma CutShort(s: S.Store, objects: map<JobRunID, S.ActiveObject>, fault: CollectFault, ready: seq<JobRecord>, clock: Clock)
    requires ListOfReady(s, ready) && (fault.MarkFails? || fault.DeleteFails?) && fault.pos < |ready|
    ensures var id := ready[fault.pos].id;
            var left := objects - Ids(ready[..Deletions(fault, |ready|)]);
            && S.GCReady(s.(jobs := Swept(s.jobs, Ids(ready[..Marks(fault, |ready|)]), clock)), id)
            && (fault.MarkFails? ==> id !in left)
            && (fault.DeleteFails? && id in objects ==> id in left)
  {
    var p := fault.pos;
    var id := ready[p].id;
    IdsStep(ready, p);
    assert id in Ids(ready) && id !in Ids(ready[..p]);
    ReadyAfter(s, Ids(ready[..p]), clock);
    assert id in Ready(s) - Ids(ready[..p]);
  }

  lemma PrefixIds(recs: seq<JobRecord>, i: nat, j: nat)
    requires i <= j <= |recs|
    ensures Ids(recs[..i]) <= Ids(recs[..j])
  {
    forall id | id in Ids(recs[..i])
      ensures id in Ids(recs[..j])
    {
      var k :| 0 <= k < i && recs[..i][k].id == id;
      assert recs[..j][k].id in Ids(recs[..j]);
    }
  }

  lemma IdsStep(recs: seq<JobRecord>, i: nat)
    requires i < |recs|
    ensures Ids(recs[..i + 1]) == Ids(recs[..i]) + {recs[i].id}
  {
    var a, b := recs[..i], recs[..i + 1];
    assert forall k :: 0 <= k < i ==> a[k] == b[k];
    assert b[i].id in Ids(b);
    forall id | id in Ids(a)
      ensures id in Ids(b)
    {
      var k :| 0 <= k < i && a[k].id == id;
      assert b[k].id in Ids(b);
    }
  }

  lemma IdsAreReady(s: S.Store, recs: seq<JobRecord>)
    requires forall i :: 0 <= i < |recs| ==> S.GCReady(s, recs[i].id)
    requires forall id :: S.GCReady(s, id) ==> Names(recs, id)
    ensures Ids(recs) == Ready(s)
  {
    forall id | id in Ready(s)
      ensures id in Ids(recs)
    {
      assert Names(recs, id);
    }
  }

  lemma {:induction false} IdsCount(recs: seq<JobRecord>)
    requires Once(recs)
    ensures |Ids(recs)| == |recs|
  {
    if recs != [] {
      var n := |recs| - 1;
      IdsCount(recs[..n]);
      IdsStep(recs, n);
      assert recs[..n + 1] == recs;
      assert recs[n].id !in Ids(recs[..n]);
    }
  }

  function ObjectsAfter(objects: map<JobRunID, S.ActiveObject>, id: JobRunID, fault: Fault): map<JobRunID, S.ActiveObject> {
    if fault.CreateFails? || id in objects then objects else objects[id := S.ObjectOf(id)]
  }

  /** The store after dispatching the claimed job, or after giving the claim back. */
  function StoreAfter(u: S.Store, id: JobRunID, obj: S.ActiveObject, now: Time, fault: Fault): S.Store {
    if fault.NoFault? then S.AckDispatched(u, id, obj, now) else S.ReleaseClaim(u, id)
  }

  function OutcomeOf(fault: Fault): DispatchOutcome {
    match fault
    case NoFault => Dispatched
    case CreateFails => CreateError
    case AckFails => AckError
  }

  predicate AllValid(jobs: seq<JobIntent>) {
    forall i :: 0 <= i < |jobs| ==> ValidIntent(jobs[i])
  }

  /** What ingestion answers, given the store with the delivery recorded. */
  function IngestAnswer(s: S.Store, d: Delivery, compiled: Option<seq<JobIntent>>, now: Time, run: RunID): IngestOutcome
    requires d.key in s.deliveries
  {
    if s.deliveries[d.key].runId.Some? then Bound(s.deliveries[d.key].runId.value, false)
    else if compiled.None? then CompileError
    else if !AllValid(compiled.value) then InvalidIntent
    else if compiled.value == [] then NothingToRun
    else
      match S.CreateOutcomeOf(s, RunSeed(d.key, d.event, compiled.value), now, run)
      case Created(made) => Bound(made.id, true)
      case Existing(made) => Bound(made.id, false)
      case refused => CreateFailed(refused)
  }

  /** Only valid jobs of an unbound delivery reach the store. */
  ghost function IngestStore(s: S.Store, d: Delivery, compiled: Option<seq<JobIntent>>, now: Time, run: RunID, ids: seq<JobRunID>): S.Store
    requires d.key in s.deliveries
    requires compiled.Some? ==> S.FreshIds(s, RunSeed(d.key, d.event, compiled.value), run, ids)
  {
    if s.deliveries[d.key].runId.Some? || compiled.None? || !AllValid(compiled.value) || compiled.value == [] then s
    else S.CreateRun(s, RunSeed(d.key, d.event, compiled.value), now, run, ids)
  }

  /** The job does not name itself or its runner class. */
  predicate Unnamed(j: JobIntent) {
    Text.Trim(j.jobKey) == "" || Text.Trim(j.runnerClass) == ""
  }

  /** Which delivery gets which answer. */
  lemma IngestAnswers(s: S.Store, d: Delivery, compiled: Option<seq<JobIntent>>, now: Time, run: RunID)
    requires Valid(s) && d.key in s.deliveries
    ensures var out := IngestAnswer(s, d, compiled, now, run);
            var unbound := s.deliveries[d.key].runId.None?;
            && (!unbound <==> out.Bound? && !out.created)
            && (!unbound ==> s.deliveries[d.key].runId == Some(out.runId))
            && (out == CompileError <==> unbound && compiled.None?)
            && (out == InvalidIntent <==> unbound && compiled.Some? && exists i :: 0 <= i < |compiled.value| && Unnamed(compiled.value[i]))
            && (out == NothingToRun <==> unbound && compiled == Some([]))
            && (out == Bound(run, true) <==> unbound && compiled.Some? && compiled.value != []
                                             && S.DistinctKeys(compiled.value) && forall i :: 0 <= i < |compiled.value| ==> !Unnamed(compiled.value[i]))
  {
    if compiled.Some? { S.DistinctPrefixMeaning(compiled.value, |compiled.value|); }
    if s.deliveries[d.key].runId.Some? { assert RunOk(s.runs, s.runJobs, s.deliveries[d.key].runId.value); }
  }

  class Scheduler {
    const durable: DurableStore
    const active: ActiveStore

    constructor (durable: DurableStore, active: ActiveStore)
      ensures this.durable == durable && this.active == active
    {
      this.durable, this.active := durable, active;
    }

    /** The uid table only ever holds the uid derived from the name. */
    ghost predicate Uids()
      reads active
    {
      forall k :: k in active.uids ==> active.uids[k] == "uid-" + k
    }

    /** Check, create-or-get, ack. A job that cannot be dispatched never gets an
        object; a fault leaves at worst the object, to be found by the replay. */
    method Dispatch(id: JobRunID, now: Time, fault: Fault) returns (out: DispatchOutcome)
      requires Uids()
      modifies durable, active
      ensures Uids()
      ensures !P.Dispatchable(old(durable.View()), id) ==>
                && out == (if id in old(durable.jobs) then NotDispatchable else UnknownJob)
                && durable.View() == old(durable.View()) && active.objects == old(active.objects)
      ensures P.Dispatchable(old(durable.View()), id) && fault.CreateFails? ==>
                out == CreateError && durable.View() == old(durable.View()) && active.objects == old(active.objects)
      ensures P.Dispatchable(old(durable.View()), id) && !fault.CreateFails? ==>
                && active.objects == (if id in old(active.objects) then old(active.objects)
                                      else old(active.objects)[id := S.ObjectOf(id)])
                && active.created == old(active.created) + (if id in old(active.objects) then 0 else 1)
      ensures P.Dispatchable(old(durable.View()), id) && fault.AckFails? ==>
                out == AckError && durable.View() == old(durable.View())
      ensures P.Dispatchable(old(durable.View()), id) && fault.NoFault? ==>
                var obj := S.ActiveObject(S.CRName(id), active.objects[id].uid);
                && durable.View() == S.AckDispatched(old(durable.View()), id, obj, now)
                && out == (if S.AckOutcomeOf(old(durable.View()), id, obj).Acked? then Dispatched else AckError)
    {
      if id !in durable.jobs {
        return UnknownJob;
      }
      var st := durable.jobs[id].status;
      if !st.JobQueued? && !st.JobDispatched? {
        return NotDispatchable;
      }
      if fault.CreateFails? {
        return CreateError;
      }
      var obj := active.CreateOrGet(id);
      if fault.AckFails? {
        return AckError;
      }
      var acked := durable.AckDispatched(id, S.ActiveObject(S.CRName(id), obj.uid), now);
      out := if acked.Acked? then Dispatched else AckError;
    }

    /** Claims one job and dispatches it; on failure the claim is given back. The
        job is the one the claim picks from the store's queue q. */
    method DispatchNext(clock: Clock, now: Time, fault: Fault) returns (got: Option<JobRecord>, out: DispatchOutcome, ghost q: seq<JobRunID>)
      requires Uids() && Valid(durable.View())
      modifies durable, active
      ensures Uids() && Valid(durable.View())
      ensures S.IsQueue(old(durable.jobs), S.Candidates(old(durable.View())), q) && S.Walkable(old(durable.View()), q)
      ensures var (u, pick) := S.ClaimFrom(old(durable.View()), q, clock);
              match pick
              case None =>
                got == None && durable.View() == u && active.objects == old(active.objects)
              case Some(id) =>
                && id in u.jobs && got == Some(u.jobs[id]) && got.value.id == id && out == OutcomeOf(fault)
                && active.objects == ObjectsAfter(old(active.objects), id, fault)
                && (fault.NoFault? ==> id in active.objects)
                && id in durable.jobs && id !in durable.claimed
                && (fault.NoFault? ==> durable.jobs[id].status == JobDispatched && durable.jobs[id].activeName == S.CRName(id))
                && (!fault.NoFault? ==> durable.jobs[id] == u.jobs[id])
                && durable.View() ==
                   StoreAfter(u, id, S.ActiveObject(S.CRName(id), if id in active.objects then active.objects[id].uid else ""), now, fault)
    {
      got, q := durable.ClaimNextQueuedJob(clock);
      if got.None? {
        out := UnknownJob;
        return;
      }
      ghost var s := durable.View();
      ClaimedJob(old(durable.View()), q, clock, s);
      var id := got.value.id;
      out := Dispatch(id, now, fault);
      if out.Dispatched? {
        AckKeeps(s, id, S.ActiveObject(S.CRName(id), active.objects[id].uid), now);
      } else {
        durable.ReleaseClaim(id);
        ReleaseKeeps(s, id);
      }
    }

    /** Deletes the object of every job that is ready for it, then records that,
        up to the first call that fails. Nothing but the collection mark changes
        in the durable store. */
    method Collect(clock: Clock, fault: CollectFault) returns (collected: nat, ok: bool, ghost ready: seq<JobRecord>)
      requires Valid(durable.View())
      modifies durable`jobs, active`objects, active`deleteCalls
      ensures ListOfReady(old(durable.View()), ready)
      ensures collected == Marks(fault, |ready|)
      ensures durable.jobs == Swept(old(durable.jobs), Ids(ready[..collected]), clock)
      ensures active.objects == old(active.objects) - Ids(ready[..Deletions(fault, |ready|)])
      ensures ok <==> !fault.ListFails? && collected == |old(Ready(durable.View()))|
    {
      var listed := durable.ListGCReadyJobs();
      ready := listed;
      IdsAreReady(durable.View(), ready);
      IdsCount(ready);
      if fault.ListFails? {
        SweptNone(durable.jobs, clock);
        return 0, false, ready;
      }
      collected, ok := Sweep(listed, clock, fault);
    }

    method Sweep(ready: seq<JobRecord>, clock: Clock, fault: CollectFault) returns (collected: nat, ok: bool)
      requires !fault.ListFails?
      modifies durable`jobs, active`objects, active`deleteCalls
      ensures collected == Marks(fault, |ready|) && (ok <==> collected == |ready|)
      ensures durable.jobs == Swept(old(durable.jobs), Ids(ready[..collected]), clock)
      ensures active.objects == old(active.objects) - Ids(ready[..Deletions(fault, |ready|)])
    {
      collected := 0;
      SweptNone(durable.jobs, clock);
      for i := 0 to |ready|
        invariant collected == i && (fault.CollectsWell? || i <= fault.pos)
        invariant durable.jobs == Swept(old(durable.jobs), Ids(ready[..i]), clock)
        invariant active.objects == old(active.objects) - Ids(ready[..i])
      {
        if fault == DeleteFails(i) {
          return collected, false;
        }
        IdsStep(ready, i);
        SweptStep(old(durable.jobs), Ids(ready[..i]), ready[i].id, clock);
        active.Delete(ready[i].id);
        if fault == MarkFails(i) {
          return collected, false;
        }
        var found := durable.MarkCollected(ready[i].id, clock(ready[i].id));
        collected := collected + 1;
      }
      ok := true;
    }

    /** Records the delivery, compiles it and creates its run. `compiled` is what
        the compiler returns, None for an error; it is ignored for a delivery
        that already has a run. */
    method Ingest(d: Delivery, compiled: Option<seq<JobIntent>>, now: Time, runId: RunID, ids: seq<JobRunID>)
      returns (out: IngestOutcome)
      requires Valid(durable.View())
      requires compiled.Some? ==> S.FreshIds(durable.View(), RunSeed(d.key, d.event, compiled.value), runId, ids)
      modifies durable
      ensures Valid(durable.View()) && Grows(old(durable.View()), durable.View()) && d.key in durable.deliveries
      ensures var s := S.RecordDelivery(old(durable.View()), d, now);
              && out == IngestAnswer(s, d, compiled, now, runId)
              && durable.View() == IngestStore(s, d, compiled, now, runId, ids)
      ensures d.key in old(durable.deliveries) && old(durable.deliveries)[d.key].runId.Some? ==>
                out == Bound(old(durable.deliveries)[d.key].runId.value, false) && durable.View() == old(durable.View())
      ensures out.Bound? ==> durable.deliveries[d.key].runId == Some(out.runId) && out.runId in durable.runs
      ensures out.Bound? ==> (out.created <==> !(d.key in old(durable.deliveries) && old(durable.deliveries)[d.key].runId.Some?))
      ensures !out.Bound? ==> durable.deliveries[d.key].runId.None?
    {
      var rec, _ := durable.RecordDelivery(d, now);
      ghost var s := durable.View();
      RecordKeeps(old(durable.View()), d, now);
      if rec.runId.Some? {
        return Bound(rec.runId.value, false);
      }
      if compiled.None? {
        return CompileError;
      }
      out := CreateFor(d, compiled.value, now, runId, ids);
      ghost var seed := RunSeed(d.key, d.event, compiled.value);
      CreateKeeps(s, seed, now, runId, ids);
      GrowsReflexive(s);
      GrowsTransitive(old(durable.View()), s, durable.View());
      Created(s, seed, now, runId, ids);
    }

    /** Validates the compiled jobs and creates the run. */
    method CreateFor(d: Delivery, jobs: seq<JobIntent>, now: Time, runId: RunID, ids: seq<JobRunID>) returns (out: IngestOutcome)
      requires S.FreshIds(durable.View(), RunSeed(d.key, d.event, jobs), runId, ids)
      modifies durable
      ensures if AllValid(jobs) && jobs != [] then
                var seed := RunSeed(d.key, d.event, jobs);
                && durable.View() == S.CreateRun(old(durable.View()), seed, now, runId, ids)
                && match S.CreateOutcomeOf(old(durable.View()), seed, now, runId) {
                     case Created(run) => out == Bound(run.id, true)
                     case Existing(run) => out == Bound(run.id, false)
                     case made => out == CreateFailed(made)
                   }
              else durable.View() == old(durable.View()) && out == if AllValid(jobs) then NothingToRun else InvalidIntent
    {
      for i := 0 to |jobs|
        invariant forall k :: 0 <= k < i ==> ValidIntent(jobs[k])
      {
        if !ValidIntent(jobs[i]) {
          return InvalidIntent;
        }
      }
      if jobs == [] {
        return NothingToRun;
      }
      var made := durable.CreateRun(RunSeed(d.key, d.event, jobs), now, runId, ids);
      match made {
        case Created(run) => out := Bound(run.id, true);
        case Existing(run) => out := Bound(run.id, false);
        case _ => out := CreateFailed(made);
      }
    }
  }

  /** For a recorded, unbound delivery the creation either binds it or leaves it unbound. */
  lemma Created(s: S.Store, seed: RunSeed, now: Time, run: RunID, ids: seq<JobRunID>)
    requires S.FreshIds(s, seed, run, ids) && seed.delivery in s.deliveries && s.deliveries[seed.delivery].runId.None?
    ensures var t, out := S.CreateRun(s, seed, now, run, ids), S.CreateOutcomeOf(s, seed, now, run);
            && !out.Existing? && !out.RunMissing? && seed.delivery in t.deliveries
            && (out.Created? ==> t.deliveries[seed.delivery].runId == Some(run) && run in t.runs && out.run.id == run)
            && (!out.Created? ==> t.deliveries == s.deliveries)
  {}

  /** The claimed job is a queued job stored under its own id, never dispatched before. */
  lemma ClaimedJob(s: S.Store, q: seq<JobRunID>, clock: Clock, t: S.Store)
    requires Valid(s) && H.Legal(s, H.OpClaim(q, clock)) && t == H.Step(s, H.OpClaim(q, clock))
    ensures S.Walkable(s, q)
    ensures S.ClaimFrom(s, q, clock).1.Some? ==>
              var id := S.ClaimFrom(s, q, clock).1.value;
              id in t.jobs && t.jobs[id].id == id && t.jobs[id].status.JobQueued?
  {
    C.HandedOutIsReady(s, q, clock);
    var got := S.ClaimFrom(s, q, clock).1;
    if got.Some? {
      assert JobOk(t.runs.Keys, t.runJobs, t.jobs, got.value);
    }
  }
}
