/** The event of a run beside the event of its delivery: the ingester that
    creates the run brings its own copy. */
module ProtocolEvents {
  import opened Prelude
  import opened RunModel
  import opened StoreSpec
  import opened StoreInvariants
  import opened StoreGrowth
  import opened StoreHistory
  import opened StoreWitness
  import opened Protocol
  import opened ProtocolTheorems
  import opened ProtocolLeaks

  /** The run of the delivery was created from this event. */
  predicate RanOn(s: Store, k: DeliveryKey, e: Event) {
    && IsBound(s.deliveries, k)
    && s.deliveries[k].runId.value in s.runs && s.runs[s.deliveries[k].runId.value].event == e
  }

  /** The event an ingester carries for the delivery, if any, is this one. */
  predicate Carries(p: Ingesting, k: DeliveryKey, e: Event) {
    match p
    case Recorded(d) => d.key == k ==> d.event == e
    case Compiled(seed) => seed.delivery == k ==> seed.event == e
    case Reporting(_, _) => true
  }

  ghost predicate OneEvent(x: World, k: DeliveryKey, e: Event) {
    && (k in x.store.deliveries ==> x.store.deliveries[k].event == e)
    && (IsBound(x.store.deliveries, k) ==> RanOn(x.store, k, e))
    && (forall w {:trigger x.ingesters[w]} :: w in x.ingesters ==> Carries(x.ingesters[w], k, e))
  }

  /** Every receipt of the delivery brings this event. */
  predicate Brings(a: Action, k: DeliveryKey, e: Event) {
    a.IngestRecord? && a.d.key == k ==> a.d.event == e
  }

  // ---------------------------------------------------------------- one step

  lemma CallDeliveries(x: World, op: Op)
    requires Valid(x.store) && Enabled(x, Call(op))
    ensures Next(x, Call(op)).store.deliveries == x.store.deliveries
  {
    QuietCall(x.store, op, Step(x.store, op));
  }

  lemma DeliveriesSame(x: World, a: Action)
    requires Inv(x) && Enabled(x, a) && !a.IngestRecord? && !a.IngestCreate?
    ensures Next(x, a).store.deliveries == x.store.deliveries
  {
    StoreAfterIs(x, a);
    if a.Call? { CallDeliveries(x, a.op); }
  }

  lemma RunKept(s: Store, t: Store, k: DeliveryKey, e: Event)
    requires Grows(s, t) && RanOn(s, k, e)
    ensures RanOn(t, k, e)
  {
    assert DeliveryGrows(s.deliveries[k], t.deliveries[k]);
    assert RunGrows(s.runs[s.deliveries[k].runId.value], t.runs[s.deliveries[k].runId.value]);
  }

  lemma CreatedOn(s: Store, seed: RunSeed, now: Time, run: RunID, ids: seq<JobRunID>, k: DeliveryKey)
    requires FreshIds(s, seed, run, ids) && !IsBound(s.deliveries, k)
    ensures var t := CreateRun(s, seed, now, run, ids);
            && (k in t.deliveries <==> k in s.deliveries) && (k in s.deliveries ==> t.deliveries[k].event == s.deliveries[k].event)
            && (IsBound(t.deliveries, k) ==> seed.delivery == k && RanOn(t, k, seed.event))
  {}

  lemma StoreOneEvent(x: World, a: Action, k: DeliveryKey, e: Event)
    requires Inv(x) && Enabled(x, a) && OneEvent(x, k, e) && Brings(a, k, e)
    ensures var t := Next(x, a).store;
            (k in t.deliveries ==> t.deliveries[k].event == e) && (IsBound(t.deliveries, k) ==> RanOn(t, k, e))
  {
    var t := Next(x, a).store;
    NextGrows(x, a);
    if IsBound(x.store.deliveries, k) {
      RunKept(x.store, t, k, e);
      assert DeliveryGrows(x.store.deliveries[k], t.deliveries[k]);
    } else if a.IngestCreate? {
      StoreAfterIs(x, a);
      assert Carries(x.ingesters[a.w], k, e);
      CreatedOn(x.store, x.ingesters[a.w].seed, a.now, a.run, a.ids, k);
    } else if a.IngestRecord? {
      StoreAfterIs(x, a);
    } else {
      DeliveriesSame(x, a);
    }
  }

  lemma IngestersOneEvent(x: World, a: Action, k: DeliveryKey, e: Event, w: Worker)
    requires Inv(x) && Enabled(x, a) && OneEvent(x, k, e) && Brings(a, k, e) && w in Next(x, a).ingesters
    ensures Carries(Next(x, a).ingesters[w], k, e)
  {
    assert w in x.ingesters ==> Carries(x.ingesters[w], k, e);
    if !Ingests(a) {
      IngestersSame(x, a);
    } else {
      match a
      case IngestRecord(v, d, now) => ReceiveCarries(x, v, d, now, k, e, w);
      case IngestCompile(v, jobs) =>
        assert Carries(x.ingesters[v], k, e);
        CompileCarries(x, v, x.ingesters[v].d, jobs, k, e, w);
      case IngestCreate(v, now, run, ids) =>
      case IngestReport(v) =>
      case Vanish(v) =>
    }
  }

  lemma ReceiveCarries(x: World, v: Worker, d: Delivery, now: Time, k: DeliveryKey, e: Event, w: Worker)
    requires (w in x.ingesters ==> Carries(x.ingesters[w], k, e)) && (d.key == k ==> d.event == e)
    ensures w in Receive(x, v, d, now).ingesters ==> Carries(Receive(x, v, d, now).ingesters[w], k, e)
  {}

  lemma CompileCarries(x: World, v: Worker, d: Delivery, jobs: seq<JobIntent>, k: DeliveryKey, e: Event, w: Worker)
    requires (w in x.ingesters ==> Carries(x.ingesters[w], k, e)) && (d.key == k ==> d.event == e)
    ensures w in Compile(x, v, d, jobs).ingesters ==> Carries(Compile(x, v, d, jobs).ingesters[w], k, e)
  {}

  lemma OneEventStays(x: World, a: Action, k: DeliveryKey, e: Event)
    requires Inv(x) && Enabled(x, a) && OneEvent(x, k, e) && Brings(a, k, e)
    ensures OneEvent(Next(x, a), k, e)
  {
    var y := Next(x, a);
    StoreOneEvent(x, a, k, e);
    forall w | w in y.ingesters
      ensures Carries(y.ingesters[w], k, e)
    {
      IngestersOneEvent(x, a, k, e, w);
    }
  }

  lemma {:induction false} OneEventAlong(x: World, actions: seq<Action>, y: World, k: DeliveryKey, e: Event)
    requires Inv(x) && Reaches(x, actions, y) && OneEvent(x, k, e) && forall i :: 0 <= i < |actions| ==> Brings(actions[i], k, e)
    ensures OneEvent(y, k, e)
    decreases |actions|
  {
    if actions != [] {
      var z := ReachesSplit(x, actions, y);
      OneEventStays(x, actions[0], k, e);
      OneEventAlong(z, actions[1..], y, k, e);
    }
  }

  /** Where all receipts of a delivery bring one event, its run was created from
      that event, and the delivery keeps it too. */
  lemma RunHasDeliveredEvent(actions: seq<Action>, x: World, k: DeliveryKey, e: Event, r: RunID)
    requires Reachable(actions, x) && forall i :: 0 <= i < |actions| ==> Brings(actions[i], k, e)
    requires r in x.store.runs && x.store.runs[r].delivery == k
    ensures k in x.store.deliveries && x.store.runs[r].event == x.store.deliveries[k].event == e
  {
    StartOk();
    ReachableKeeps(actions, x);
    OneEventAlong(Start, actions, x, k, e);
    assert x.store.deliveries[k].runId == Some(r);
  }

  // ---------------------------------------------------------------- exactly when

  /** An ingester about to create the run of an unbound delivery. */
  ghost predicate AboutToCreate(x: World, w: Worker, seed: RunSeed) {
    && w in x.ingesters && x.ingesters[w] == Compiled(seed) && seed.delivery in x.store.deliveries
    && x.store.deliveries[seed.delivery].runId.None? && seed.jobs != [] && DistinctKeys(seed.jobs)
  }

  lemma Commits(s: Store, seed: RunSeed, now: Time, run: RunID, ids: seq<JobRunID>)
    requires FreshIds(s, seed, run, ids) && Writes(s, seed) && DistinctKeys(seed.jobs)
    ensures var t := CreateRun(s, seed, now, run, ids);
            && seed.delivery in t.deliveries && t.deliveries[seed.delivery].runId == Some(run)
            && t.deliveries[seed.delivery].event == s.deliveries[seed.delivery].event && RanOn(t, seed.delivery, seed.event)
  {
    DistinctPrefixMeaning(seed.jobs, |seed.jobs|);
  }

  /** Ever after its creation, the run's event is its delivery's exactly when the
      ingester that created it carried the event first recorded. */
  lemma EventsAgreeIff(x: World, w: Worker, seed: RunSeed, now: Time, run: RunID, ids: seq<JobRunID>, after: seq<Action>, z: World)
    requires Inv(x) && AboutToCreate(x, w, seed) && FreshIds(x.store, seed, run, ids)
    requires Reaches(x, [IngestCreate(w, now, run, ids)] + after, z)
    ensures run in z.store.runs && seed.delivery in z.store.deliveries && z.store.runs[run].delivery == seed.delivery
    ensures z.store.runs[run].event == z.store.deliveries[seed.delivery].event <==>
            seed.event == x.store.deliveries[seed.delivery].event
  {
    var k, a := seed.delivery, IngestCreate(w, now, run, ids);
    var y := ReachesSplit(x, [a] + after, z);
    assert ([a] + after)[1..] == after;
    StoreAfterIs(x, a);
    Commits(x.store, seed, now, run, ids);
    ReachesGrow(y, after, z);
    ReachesKeep(y, after, z);
    RunKept(y.store, z.store, k, seed.event);
    assert DeliveryGrows(y.store.deliveries[k], z.store.deliveries[k]);
  }

  // ---------------------------------------------------------------- two receipts, two events

  const OTHER := Event("github", "push", "d1", "o", "r", "main", "def", "me")

  /** A second receipt of the same key with another event. */
  lemma ReceivesAgain(first: seq<Action>, u: World, d: Delivery) returns (actions: seq<Action>, x: World)
    requires Reachable(first, u) && Inv(u) && 1 !in u.ingesters && d.key in u.store.deliveries && u.store.deliveries[d.key].runId.None?
    ensures Reachable(actions, x) && Inv(x) && x.store == u.store && x.ingesters == u.ingesters[1 := Recorded(d)]
  {
    actions, x := Further(first, u, IngestRecord(1, d, 1));
  }

  lemma CompilesAgain(first: seq<Action>, u: World, d: Delivery, intents: seq<JobIntent>) returns (actions: seq<Action>, x: World)
    requires Reachable(first, u) && Inv(u) && 1 in u.ingesters && u.ingesters[1] == Recorded(d) && intents != []
    ensures Reachable(actions, x) && Inv(x) && x.store == u.store
    ensures 1 in x.ingesters && x.ingesters[1] == Compiled(RunSeed(d.key, d.event, intents))
  {
    actions, x := Further(first, u, IngestCompile(1, intents));
  }

  lemma CreatesAgain(first: seq<Action>, u: World, seed: RunSeed, run: RunID, ids: seq<JobRunID>) returns (actions: seq<Action>, x: World)
    requires Reachable(first, u) && Inv(u) && AboutToCreate(u, 1, seed) && FreshIds(u.store, seed, run, ids)
    ensures Reachable(actions, x) && Inv(x)
    ensures run in x.store.runs && seed.delivery in x.store.deliveries && x.store.runs[run].delivery == seed.delivery
    ensures x.store.runs[run].event == x.store.deliveries[seed.delivery].event <==>
            seed.event == u.store.deliveries[seed.delivery].event
  {
    var a := IngestCreate(1, 2, run, ids);
    actions, x := Further(first, u, a);
    var y := ReachesOne(u, a);
    assert [a] + [] == [a];
    EventsAgreeIff(u, 1, seed, 2, run, ids, [], x);
  }

  lemma PartsFrom(first: seq<Action>, u: World, d: Delivery, intent: JobIntent, run: RunID, id: JobRunID)
    returns (actions: seq<Action>, x: World)
    requires Reachable(first, u) && Inv(u) && 1 !in u.ingesters && d.key in u.store.deliveries && u.store.deliveries[d.key].runId.None?
    requires FreshIds(u.store, RunSeed(d.key, d.event, [intent]), run, [id]) && d.event != u.store.deliveries[d.key].event
    ensures Reachable(actions, x) && Inv(x) && run in x.store.runs && x.store.runs[run].delivery == d.key
    ensures d.key in x.store.deliveries && x.store.runs[run].event != x.store.deliveries[d.key].event
  {
    var a1, u1 := ReceivesAgain(first, u, d);
    var a2, u2 := CompilesAgain(a1, u1, d, [intent]);
    actions, x := CreatesAgain(a2, u2, RunSeed(d.key, d.event, [intent]), run, [id]);
  }

  /** A run whose event is not its delivery's is reachable: the key comes twice,
      with two events, and the second ingester creates the run. */
  lemma EventsPartReachable() returns (actions: seq<Action>, x: World, r: RunID)
    ensures Reachable(actions, x) && r in x.store.runs && x.store.runs[r].delivery in x.store.deliveries
    ensures x.store.runs[r].event != x.store.deliveries[x.store.runs[r].delivery].event
  {
    r := "R";
    var intent := JobIntent("build", "linux", [], map[], "", "");
    var first, u := CompilesOne([intent]);
    OtherFresh(r, "A", intent);
    actions, x := PartsFrom(first, u, Delivery(KEY, OTHER, ""), intent, r, "A");
  }

  lemma OtherFresh(run: RunID, id: JobRunID, intent: JobIntent)
    ensures FreshIds(Received0(), RunSeed(KEY, OTHER, [intent]), run, [id])
    ensures KEY in Received0().deliveries && Received0().deliveries[KEY].runId.None? && OTHER != Received0().deliveries[KEY].event
  {}
}
