/** The server's loop over deferred conditions (internal/server/server.go) on a
    store that does not fail. Every projection reads the clock anew, and every
    pass asks the evaluator anew. */
module DeferredLoop {
  import opened Prelude
  import opened RunModel
  import S = StoreSpec
  import opened StoreInvariants
  import opened DurableStores
  import H = StoreHistory
  import opened Deferral
  import opened Undated

  /** qs holds the records of exactly the queued jobs of run r, each once. */
  ghost predicate GroupOf(s: S.Store, r: RunID, qs: seq<JobRecord>) {
    && (forall i :: 0 <= i < |qs| ==> QueuedRecord(s, qs[i]) && qs[i].runId == r)
    && (forall i, j :: 0 <= i < j < |qs| ==> qs[i].id != qs[j].id)
    && (forall id {:trigger Names(qs, id)} :: id in QueuedIds(s.jobs) && s.jobs[id].runId == r ==> Names(qs, id))
  }

  predicate QueuedRecord(s: S.Store, j: JobRecord) {
    j.id in s.jobs && s.jobs[j.id] == j && j.status.JobQueued?
  }

  /** The decided jobs among the first i of the group. */
  ghost function Hits(s: S.Store, qs: seq<JobRecord>, i: nat, verdict: Verdict): (r: set<JobRunID>)
    requires i <= |qs|
    ensures r <= Decided(s, verdict)
    ensures forall id :: id in r ==> Names(qs[..i], id)
  {
    if i == 0 then {}
    else
      var before := Hits(s, qs, i - 1, verdict);
      assert qs[..i] == qs[..i - 1] + [qs[i - 1]];
      assert forall id :: Names(qs[..i - 1], id) ==> Names(qs[..i], id) by { NamesConcat(qs[..i - 1], [qs[i - 1]]); }
      assert Names(qs[..i], qs[i - 1].id) by { assert qs[..i][i - 1].id == qs[i - 1].id; }
      if qs[i - 1].id in Decided(s, verdict) then before + {qs[i - 1].id} else before
  }

  function DecidedIn(s: S.Store, rs: set<RunID>, verdict: Verdict): set<JobRunID> {
    set id | id in Decided(s, verdict) && s.jobs[id].runId in rs
  }

  lemma {:induction false} HitsHave(s: S.Store, qs: seq<JobRecord>, i: nat, k: nat, verdict: Verdict)
    requires k < i <= |qs| && qs[k].id in Decided(s, verdict)
    ensures qs[k].id in Hits(s, qs, i, verdict)
  {
    if k < i - 1 { HitsHave(s, qs, i - 1, k, verdict); }
  }

  lemma HitsAll(s: S.Store, r: RunID, qs: seq<JobRecord>, verdict: Verdict)
    requires GroupOf(s, r, qs)
    ensures Hits(s, qs, |qs|, verdict) == DecidedIn(s, {r}, verdict)
  {
    assert qs[..|qs|] == qs;
    forall id | id in DecidedIn(s, {r}, verdict)
      ensures id in Hits(s, qs, |qs|, verdict)
    {
      DecidedMeaning(s, id, verdict);
      assert Names(qs, id);
      var k :| 0 <= k < |qs| && qs[k].id == id;
      HitsHave(s, qs, |qs|, k, verdict);
    }
    forall id | id in Hits(s, qs, |qs|, verdict)
      ensures id in DecidedIn(s, {r}, verdict)
    {
      var k :| 0 <= k < |qs| && qs[k].id == id;
      assert QueuedRecord(s, qs[k]);
    }
  }

  lemma NotHitYet(s: S.Store, r: RunID, qs: seq<JobRecord>, i: nat, verdict: Verdict)
    requires GroupOf(s, r, qs) && i < |qs|
    ensures qs[i].id !in Hits(s, qs, i, verdict)
  {
    assert !Names(qs[..i], qs[i].id);
  }

  /** Closing jobs of other runs leaves a run's records and event alone. */
  lemma SiblingsUntouched(s: S.Store, done: set<JobRunID>, r: RunID, verdict: Verdict, now: Time)
    requires Shape(s) && r in s.runs && forall id :: id in done && id in s.jobs ==> s.jobs[id].runId != r
    ensures var t := After(s, done, verdict, now);
            r in t.runs && t.runs[r].event == s.runs[r].event && Siblings(t, r) == Siblings(s, r)
  {
    assert ListOk(s.runJobs, s.jobs, r);
  }

  lemma NothingInOtherRuns(s: S.Store, r: RunID, verdict: Verdict)
    requires r !in s.runs
    ensures DecidedIn(s, {r}, verdict) == {}
  {}

  lemma DecidedJoin(s: S.Store, rs: set<RunID>, r: RunID, verdict: Verdict)
    ensures DecidedIn(s, rs + {r}, verdict) == DecidedIn(s, rs, verdict) + DecidedIn(s, {r}, verdict)
  {}

  /** Every queued record is in the list, each once. */
  ghost predicate QueuedList(s: S.Store, queued: seq<JobRecord>) {
    && (forall i :: 0 <= i < |queued| ==> QueuedRecord(s, queued[i]))
    && (forall i, j :: 0 <= i < j < |queued| ==> queued[i].id != queued[j].id)
    && (forall id {:trigger Names(queued, id)} :: id in QueuedIds(s.jobs) ==> Names(queued, id))
  }

  function OfRun(queued: seq<JobRecord>, r: RunID): (qs: seq<JobRecord>)
    ensures forall j :: j in qs <==> j in queued && j.runId == r
  {
    if queued == [] then []
    else
      var n := |queued| - 1;
      assert queued == queued[..n] + [queued[n]];
      OfRun(queued[..n], r) + (if queued[n].runId == r then [queued[n]] else [])
  }

  lemma {:induction false} OfRunOnce(queued: seq<JobRecord>, r: RunID)
    requires forall i, j :: 0 <= i < j < |queued| ==> queued[i].id != queued[j].id
    ensures forall i, j :: 0 <= i < j < |OfRun(queued, r)| ==> OfRun(queued, r)[i].id != OfRun(queued, r)[j].id
  {
    if queued != [] {
      var n := |queued| - 1;
      OfRunOnce(queued[..n], r);
      var qs := OfRun(queued[..n], r);
      forall i | 0 <= i < |qs|
        ensures qs[i].id != queued[n].id
      {
        assert qs[i] in queued[..n];
      }
    }
  }

  lemma OfRunIsGroup(s: S.Store, queued: seq<JobRecord>, r: RunID)
    requires QueuedList(s, queued)
    ensures GroupOf(s, r, OfRun(queued, r))
  {
    var qs := OfRun(queued, r);
    OfRunOnce(queued, r);
    forall i | 0 <= i < |qs|
      ensures QueuedRecord(s, qs[i]) && qs[i].runId == r
    {
      assert qs[i] in qs && qs[i] in queued;
    }
    forall id | id in QueuedIds(s.jobs) && s.jobs[id].runId == r
      ensures Names(qs, id)
    {
      assert Names(queued, id);
      var k :| 0 <= k < |queued| && queued[k].id == id;
      assert QueuedRecord(s, queued[k]) && queued[k] in qs;
      var m :| 0 <= m < |qs| && qs[m] == queued[k];
      assert qs[m].id == id;
    }
  }

  lemma OfRunNext(queued: seq<JobRecord>, n: nat)
    requires n < |queued|
    ensures forall r :: OfRun(queued[..n + 1], r) ==
                        OfRun(queued[..n], r) + (if queued[n].runId == r then [queued[n]] else [])
  {
    assert queued[..n + 1][..n] == queued[..n];
  }

  ghost predicate Grouped(byRun: map<RunID, seq<JobRecord>>, queued: seq<JobRecord>) {
    forall r {:trigger OfRun(queued, r)} ::
      (r in byRun <==> OfRun(queued, r) != []) && (r in byRun ==> byRun[r] == OfRun(queued, r))
  }

  lemma GroupedNext(byRun: map<RunID, seq<JobRecord>>, queued: seq<JobRecord>, n: nat)
    requires n < |queued| && Grouped(byRun, queued[..n])
    ensures var j := queued[n];
            Grouped(byRun[j.runId := (if j.runId in byRun then byRun[j.runId] else []) + [j]], queued[..n + 1])
  {
    var j := queued[n];
    var next := byRun[j.runId := (if j.runId in byRun then byRun[j.runId] else []) + [j]];
    OfRunNext(queued, n);
    forall r
      ensures r in next <==> OfRun(queued[..n + 1], r) != []
      ensures r in next ==> next[r] == OfRun(queued[..n + 1], r)
    {
      assert r in byRun <==> OfRun(queued[..n], r) != [];
    }
  }

  method GroupByRun(queued: seq<JobRecord>) returns (byRun: map<RunID, seq<JobRecord>>)
    ensures Grouped(byRun, queued)
  {
    byRun := map[];
    for n := 0 to |queued|
      invariant Grouped(byRun, queued[..n])
    {
      var j := queued[n];
      GroupedNext(byRun, queued, n);
      byRun := byRun[j.runId := (if j.runId in byRun then byRun[j.runId] else []) + [j]];
    }
    assert queued[..|queued|] == queued;
  }

  method NeedsReady(needs: seq<string>, all: seq<JobRecord>) returns (ready: bool)
    ensures ready == NeedsEnded(needs, all)
  {
    ready := true;
    for d := 0 to |needs|
      invariant ready == NeedsEnded(needs[..d], all)
    {
      ghost var before := ready;
      for k := 0 to |all|
        invariant ready == before
        invariant forall i :: 0 <= i < k && all[i].intent.jobKey == needs[d] ==> all[i].status.IsTerminal()
      {
        if all[k].intent.jobKey == needs[d] && !all[k].status.IsTerminal() {
          ready := false;
          break;
        }
      }
      assert needs[..d + 1] == needs[..d] + [needs[d]];
    }
    assert needs[..|needs|] == needs;
  }

  // ---------------------------------------------------------------- one pass, step by step

  function Project(t: S.Store, id: JobRunID, phase: Option<Phase>, now: Time): S.Store {
    if phase.None? || (id in t.jobs && !S.ListedExist(t.runJobs, t.jobs.Keys, t.jobs[id].runId)) then t
    else S.ApplyObserved(t, id, phase.value, now)
  }

  /** Projecting at any time is, up to times, projecting; nothing is lost. */
  lemma ProjectKeeps(t: S.Store, id: JobRunID, phase: Option<Phase>, now: Time)
    requires Valid(t)
    ensures id in t.jobs ==> S.ListedExist(t.runJobs, t.jobs.Keys, t.jobs[id].runId)
    ensures Valid(Project(t, id, phase, now)) && Grows(t, Project(t, id, phase, now))
    ensures UndatedStore(Project(t, id, phase, now)) == Project(UndatedStore(t), id, phase, 0)
  {
    ObserveKeeps(t, id, if phase.Some? then phase.value else PhasePending, now);
    if phase.None? { GrowsReflexive(t); } else { UndatedApply(t, id, phase.value, now); }
  }

  /** The first i jobs of a run's group judged and closed in turn. */
  function PassOver(t: S.Store, event: Event, qs: seq<JobRecord>, all: seq<JobRecord>, verdict: Verdict, now: Time, i: nat): S.Store
    requires i <= |qs|
  {
    if i == 0 then t
    else Project(PassOver(t, event, qs, all, verdict, now, i - 1), qs[i - 1].id, Judge(event, qs[i - 1], all, verdict), now)
  }

  predicate AnyHit(event: Event, qs: seq<JobRecord>, all: seq<JobRecord>, verdict: Verdict, i: nat)
    requires i <= |qs|
  {
    exists k :: 0 <= k < i && Judge(event, qs[k], all, verdict).Some?
  }

  function RunPass(t: S.Store, r: RunID, qs: seq<JobRecord>, verdict: Verdict, now: Time): S.Store {
    if r !in t.runs then t else PassOver(t, t.runs[r].event, qs, Siblings(t, r), verdict, now, |qs|)
  }

  predicate Closes(t: S.Store, r: RunID, qs: seq<JobRecord>, verdict: Verdict) {
    r in t.runs && AnyHit(t.runs[r].event, qs, Siblings(t, r), verdict, |qs|)
  }

  /** The decided jobs of a run's first i queued ones have been closed on top of `done`. */
  ghost predicate ClosedSoFar(s: S.Store, done: set<JobRunID>, qs: seq<JobRecord>, i: nat, verdict: Verdict, now: Time, t: S.Store)
    requires i <= |qs|
  {
    t == After(s, done + Hits(s, qs, i, verdict), verdict, now)
  }

  lemma {:induction false} PassOverIsAfter(s: S.Store, done: set<JobRunID>, t: S.Store, r: RunID, qs: seq<JobRecord>,
                                           event: Event, all: seq<JobRecord>, verdict: Verdict, now: Time, i: nat)
    requires Valid(s) && GroupOf(s, r, qs) && i <= |qs| && done <= Decided(s, verdict)
    requires r in s.runs && event == s.runs[r].event && all == Siblings(s, r)
    requires t == After(s, done, verdict, now) && forall id :: id in done ==> s.jobs[id].runId != r
    ensures ClosedSoFar(s, done, qs, i, verdict, now, PassOver(t, event, qs, all, verdict, now, i))
  {
    if i == 0 {
      assert done + {} == done;
    } else {
      PassOverIsAfter(s, done, t, r, qs, event, all, verdict, now, i - 1);
      JudgeIsDecision(s, r, qs, i - 1, verdict);
      HitCloses(s, done, r, qs, verdict, now, i - 1, PassOver(t, event, qs, all, verdict, now, i - 1));
    }
  }

  lemma JudgeIsDecision(s: S.Store, r: RunID, qs: seq<JobRecord>, i: nat, verdict: Verdict)
    requires GroupOf(s, r, qs) && r in s.runs && i < |qs|
    ensures Judge(s.runs[r].event, qs[i], Siblings(s, r), verdict) == DecisionOf(s, qs[i].id, verdict)
  {
    assert QueuedRecord(s, qs[i]);
  }

  lemma {:induction false} AnyHitHits(s: S.Store, r: RunID, qs: seq<JobRecord>, verdict: Verdict, i: nat)
    requires GroupOf(s, r, qs) && r in s.runs && i <= |qs|
    ensures AnyHit(s.runs[r].event, qs, Siblings(s, r), verdict, i) <==> Hits(s, qs, i, verdict) != {}
  {
    if i > 0 {
      AnyHitHits(s, r, qs, verdict, i - 1);
      JudgeIsDecision(s, r, qs, i - 1, verdict);
      assert QueuedRecord(s, qs[i - 1]);
    }
  }

  lemma HitCloses(s: S.Store, done: set<JobRunID>, r: RunID, qs: seq<JobRecord>, verdict: Verdict, now: Time, i: nat, u: S.Store)
    requires Valid(s) && GroupOf(s, r, qs) && i < |qs| && done <= Decided(s, verdict)
    requires forall id :: id in done ==> s.jobs[id].runId != r
    requires ClosedSoFar(s, done, qs, i, verdict, now, u)
    ensures ClosedSoFar(s, done, qs, i + 1, verdict, now, Project(u, qs[i].id, DecisionOf(s, qs[i].id, verdict), now))
  {
    var before := done + Hits(s, qs, i, verdict);
    var id := qs[i].id;
    assert QueuedRecord(s, qs[i]);
    if id in Decided(s, verdict) {
      NotHitYet(s, r, qs, i, verdict);
      ProjectCloses(s, before, id, verdict, now, u);
      Regroup(done, Hits(s, qs, i, verdict), id);
    }
  }

  lemma Regroup(a: set<JobRunID>, b: set<JobRunID>, id: JobRunID)
    ensures a + b + {id} == a + (b + {id})
  {}

  lemma ProjectCloses(s: S.Store, done: set<JobRunID>, id: JobRunID, verdict: Verdict, now: Time, u: S.Store)
    requires Valid(s) && done <= Decided(s, verdict) && id in Decided(s, verdict) && id !in done
    requires u == After(s, done, verdict, now)
    ensures Project(u, id, DecisionOf(s, id, verdict), now) == After(s, done + {id}, verdict, now)
  {
    AfterKeeps(s, done, verdict, now);
    StepKeeps(s, done, id, verdict, now, u, After(s, done + {id}, verdict, now));
  }

  lemma RunPassIsAfter(s: S.Store, done: set<JobRunID>, t: S.Store, r: RunID, qs: seq<JobRecord>, verdict: Verdict, now: Time)
    requires Valid(s) && GroupOf(s, r, qs) && done <= Decided(s, verdict)
    requires t == After(s, done, verdict, now) && forall id :: id in done ==> s.jobs[id].runId != r
    ensures RunPass(t, r, qs, verdict, now) == After(s, done + DecidedIn(s, {r}, verdict), verdict, now)
    ensures Closes(t, r, qs, verdict) <==> DecidedIn(s, {r}, verdict) != {}
  {
    if r in s.runs {
      SiblingsUntouched(s, done, r, verdict, now);
      PassOverIsAfter(s, done, t, r, qs, t.runs[r].event, Siblings(t, r), verdict, now, |qs|);
      AnyHitHits(s, r, qs, verdict, |qs|);
      HitsAll(s, r, qs, verdict);
    } else {
      NothingInOtherRuns(s, r, verdict);
      assert done + {} == done;
    }
  }

  /** The runs in rs have been passed over. */
  ghost predicate PassStage(s: S.Store, rs: set<RunID>, progress: bool, verdict: Verdict, now: Time, t: S.Store) {
    t == After(s, DecidedIn(s, rs, verdict), verdict, now) && (progress <==> DecidedIn(s, rs, verdict) != {})
  }

  lemma PassStarts(s: S.Store, all: set<RunID>, verdict: Verdict, now: Time)
    ensures PassStage(s, all - all, false, verdict, now, s)
  {
    AfterNone(s, verdict, now);
    assert DecidedIn(s, all - all, verdict) == {};
  }

  // ---------------------------------------------------------------- lists without times

  lemma {:induction false} OfRunUndated(queued: seq<JobRecord>, r: RunID)
    ensures OfRun(UndatedAll(queued), r) == UndatedAll(OfRun(queued, r))
  {
    if queued != [] {
      var n := |queued| - 1;
      OfRunUndated(queued[..n], r);
      assert UndatedAll(queued)[..n] == UndatedAll(queued[..n]);
      var last := if queued[n].runId == r then [queued[n]] else [];
      UndatedJoin(OfRun(queued[..n], r), last);
      assert UndatedAll(last) == if queued[n].runId == r then [UndatedJob(queued[n])] else [];
    }
  }

  lemma UndatedJoin(a: seq<JobRecord>, b: seq<JobRecord>)
    ensures UndatedAll(a + b) == UndatedAll(a) + UndatedAll(b)
  {}

  function UndatedGroups(byRun: map<RunID, seq<JobRecord>>): map<RunID, seq<JobRecord>> {
    map r | r in byRun :: UndatedAll(byRun[r])
  }

  lemma GroupedUndated(byRun: map<RunID, seq<JobRecord>>, queued: seq<JobRecord>)
    requires Grouped(byRun, queued)
    ensures Grouped(UndatedGroups(byRun), UndatedAll(queued))
  {
    forall r
      ensures r in byRun <==> OfRun(UndatedAll(queued), r) != []
      ensures r in byRun ==> UndatedAll(byRun[r]) == OfRun(UndatedAll(queued), r)
    {
      OfRunUndated(queued, r);
      assert r in byRun <==> OfRun(queued, r) != [];
    }
  }

  lemma QueuedUndated(s: S.Store, queued: seq<JobRecord>)
    requires QueuedList(s, queued)
    ensures QueuedList(UndatedStore(s), UndatedAll(queued))
  {
    var t, u := UndatedStore(s), UndatedAll(queued);
    forall i | 0 <= i < |u|
      ensures QueuedRecord(t, u[i])
    {
      assert QueuedRecord(s, queued[i]);
    }
    forall id | id in QueuedIds(t.jobs)
      ensures Names(u, id)
    {
      assert id in QueuedIds(s.jobs) && Names(queued, id);
      var k :| 0 <= k < |queued| && queued[k].id == id;
      assert u[k].id == id;
    }
  }

  lemma UndatedQueuedIds(jobs: S.Jobs)
    ensures QueuedIds(UndatedJobs(jobs)) == QueuedIds(jobs)
  {}

  lemma PassSteps(s: S.Store, byRun: map<RunID, seq<JobRecord>>, queued: seq<JobRecord>, rs: set<RunID>, r: RunID,
                  progress: bool, verdict: Verdict, now: Time, t: S.Store)
    requires Valid(s) && QueuedList(s, queued) && Grouped(byRun, queued) && r in byRun && r !in rs
    requires PassStage(s, rs, progress, verdict, now, t)
    ensures S.ListedExist(t.runJobs, t.jobs.Keys, r)
    ensures PassStage(s, rs + {r}, progress || Closes(t, r, byRun[r], verdict), verdict, now, RunPass(t, r, byRun[r], verdict, now))
  {
    OfRunIsGroup(s, queued, r);
    assert byRun[r] == OfRun(queued, r);
    RunPassIsAfter(s, DecidedIn(s, rs, verdict), t, r, byRun[r], verdict, now);
    DecidedJoin(s, rs, r, verdict);
    assert r in s.runJobs ==> ListOk(s.runJobs, s.jobs, r);
  }

  ghost predicate Later(t: S.Store, u: S.Store) {
    Valid(u) && Grows(t, u)
  }

  /** One job judged, and closed at whatever time if decided. */
  ghost predicate CloseStep(t: S.Store, event: Event, j: JobRecord, all: seq<JobRecord>, verdict: Verdict, u: S.Store) {
    Later(t, u) && UndatedStore(u) == Project(UndatedStore(t), j.id, Judge(event, j, all, verdict), 0)
  }

  /** The first i jobs of a run's group judged and closed at whatever times. */
  ghost predicate JobsDone(t: S.Store, event: Event, qs: seq<JobRecord>, all: seq<JobRecord>, verdict: Verdict, i: nat,
                           u: S.Store, progress: bool)
    requires i <= |qs|
  {
    && Later(t, u)
    && UndatedStore(u) == PassOver(UndatedStore(t), event, UndatedAll(qs), UndatedAll(all), verdict, 0, i)
    && progress == AnyHit(event, UndatedAll(qs), UndatedAll(all), verdict, i)
  }

  lemma NoneDone(t: S.Store, event: Event, qs: seq<JobRecord>, all: seq<JobRecord>, verdict: Verdict)
    requires Valid(t)
    ensures JobsDone(t, event, qs, all, verdict, 0, t, false)
  {
    GrowsReflexive(t);
  }

  lemma JobDone(t: S.Store, event: Event, qs: seq<JobRecord>, all: seq<JobRecord>, verdict: Verdict, i: nat,
                u: S.Store, progress: bool, v: S.Store)
    requires Timeless(verdict) && i < |qs| && JobsDone(t, event, qs, all, verdict, i, u, progress)
    requires CloseStep(u, event, qs[i], all, verdict, v)
    ensures JobsDone(t, event, qs, all, verdict, i + 1, v, progress || Judge(event, qs[i], all, verdict).Some?)
  {
    UndatedJudge(event, qs[i], all, verdict);
    LaterStill(t, u, v);
  }

  lemma LaterStill(t: S.Store, u: S.Store, v: S.Store)
    requires Later(t, u) && Later(u, v)
    ensures Later(t, v)
  {
    GrowsTransitive(t, u, v);
  }

  /** One run's queued jobs judged on the records read at the start. */
  ghost predicate RunDone(t: S.Store, r: RunID, qs: seq<JobRecord>, verdict: Verdict, u: S.Store, progress: bool) {
    && Later(t, u)
    && UndatedStore(u) == RunPass(UndatedStore(t), r, UndatedAll(qs), verdict, 0)
    && progress == Closes(UndatedStore(t), r, UndatedAll(qs), verdict)
  }

  lemma RunKnown(t: S.Store, r: RunID, qs: seq<JobRecord>, all: seq<JobRecord>, verdict: Verdict, u: S.Store, progress: bool)
    requires r in t.runs && all == Siblings(t, r)
    requires JobsDone(t, t.runs[r].event, qs, all, verdict, |qs|, u, progress)
    ensures RunDone(t, r, qs, verdict, u, progress)
  {
    UndatedSiblings(t, r);
  }

  lemma RunUnknown(t: S.Store, r: RunID, qs: seq<JobRecord>, verdict: Verdict)
    requires Valid(t) && r !in t.runs
    ensures RunDone(t, r, qs, verdict, t, false)
  {
    GrowsReflexive(t);
  }

  class Server {
    const durable: DurableStore
    const clock: nat -> Time
    var ticks: nat

    constructor (durable: DurableStore, clock: nat -> Time)
      ensures this.durable == durable && this.clock == clock && ticks == 0
    {
      this.durable, this.clock, ticks := durable, clock, 0;
    }

    method Now() returns (t: Time)
      modifies this
      ensures t == clock(old(ticks)) && ticks == old(ticks) + 1
    {
      t := clock(ticks);
      ticks := ticks + 1;
    }

    method Decide(event: Event, j: JobRecord, all: seq<JobRecord>, verdict: Verdict) returns (phase: Option<Phase>)
      ensures phase == Judge(event, j, all, verdict)
    {
      if j.intent.condition == "" || !IsDeferred(j.intent.condition) { return None; }
      var ready := NeedsReady(j.intent.dependsOn, all);
      if !ready { return None; }
      var run := verdict(event, j, all);
      if run.None? { return Some(PhaseFailed); }
      phase := if run.value then None else Some(PhaseSkipped);
    }

    /** A decided job is projected at the time the clock shows just then. */
    method CloseOne(j: JobRecord, event: Event, all: seq<JobRecord>, verdict: Verdict) returns (hit: bool)
      requires Valid(durable.View())
      modifies this, durable
      ensures durable.View() == Project(old(durable.View()), j.id, Judge(event, j, all, verdict), clock(old(ticks)))
      ensures CloseStep(old(durable.View()), event, j, all, verdict, durable.View())
      ensures hit == Judge(event, j, all, verdict).Some?
    {
      ProjectKeeps(durable.View(), j.id, Judge(event, j, all, verdict), clock(ticks));
      var phase := Decide(event, j, all, verdict);
      hit := phase.Some?;
      if hit {
        var now := Now();
        var _ := durable.ApplyObserved(j.id, phase.value, now);
      }
    }

    method PassJobs(event: Event, qs: seq<JobRecord>, all: seq<JobRecord>, verdict: Verdict) returns (progress: bool)
      requires Valid(durable.View()) && Timeless(verdict)
      modifies this, durable
      ensures JobsDone(old(durable.View()), event, qs, all, verdict, |qs|, durable.View(), progress)
    {
      progress := false;
      ghost var t := durable.View();
      NoneDone(t, event, qs, all, verdict);
      for i := 0 to |qs|
        invariant JobsDone(t, event, qs, all, verdict, i, durable.View(), progress)
      {
        progress := PassJob(t, event, qs, all, verdict, i, progress);
      }
    }

    method PassJob(ghost t: S.Store, event: Event, qs: seq<JobRecord>, all: seq<JobRecord>, verdict: Verdict, i: nat, progress: bool)
      returns (more: bool)
      requires Timeless(verdict) && i < |qs| && JobsDone(t, event, qs, all, verdict, i, durable.View(), progress)
      modifies this, durable
      ensures JobsDone(t, event, qs, all, verdict, i + 1, durable.View(), more)
    {
      ghost var before := durable.View();
      var hit := CloseOne(qs[i], event, all, verdict);
      JobDone(t, event, qs, all, verdict, i, before, progress, durable.View());
      more := progress || hit;
    }

    method PassRun(r: RunID, qs: seq<JobRecord>, verdict: Verdict) returns (progress: bool)
      requires Valid(durable.View()) && Timeless(verdict) && S.ListedExist(durable.runJobs, durable.jobs.Keys, r)
      modifies this, durable
      ensures RunDone(old(durable.View()), r, qs, verdict, durable.View(), progress)
    {
      ghost var t := durable.View();
      if r !in durable.runs {
        RunUnknown(t, r, qs, verdict);
        return false;
      }
      var event := durable.runs[r].event;
      var listed := durable.ListJobRuns(r);
      var all := listed.value;
      assert all == Siblings(t, r);
      progress := PassJobs(event, qs, all, verdict);
      RunKnown(t, r, qs, all, verdict, durable.View(), progress);
    }

    method Pass(queued: seq<JobRecord>, verdict: Verdict) returns (progress: bool)
      requires Valid(durable.View()) && Timeless(verdict) && QueuedList(durable.View(), queued)
      modifies this, durable
      ensures Later(old(durable.View()), durable.View())
      ensures UndatedStore(durable.View()) == Sweep(UndatedStore(old(durable.View())), verdict, 0)
      ensures progress <==> Decided(UndatedStore(old(durable.View())), verdict) != {}
    {
      ghost var t := durable.View();
      ghost var s, us := UndatedStore(t), UndatedAll(queued);
      UndatedValid(t);
      QueuedUndated(t, queued);
      var byRun := GroupByRun(queued);
      GroupedUndated(byRun, queued);
      ghost var groups := UndatedGroups(byRun);
      var rest := byRun.Keys;
      progress := false;
      PassStarts(s, byRun.Keys, verdict, 0);
      GrowsReflexive(t);
      while rest != {}
        invariant rest <= byRun.Keys && Later(t, durable.View())
        invariant PassStage(s, byRun.Keys - rest, progress, verdict, 0, UndatedStore(durable.View()))
        decreases |rest|
      {
        var r :| r in rest;
        ghost var before := durable.View();
        PassSteps(s, groups, us, byRun.Keys - rest, r, progress, verdict, 0, UndatedStore(before));
        var more := PassRun(r, byRun[r], verdict);
        GrowsTransitive(t, before, durable.View());
        progress := progress || more;
        assert byRun.Keys - (rest - {r}) == byRun.Keys - rest + {r};
        rest := rest - {r};
      }
      assert byRun.Keys - {} == byRun.Keys && groups.Keys == byRun.Keys;
      EveryRunGrouped(s, groups, us, verdict);
    }

    /** Passes until none changes anything, pass p with the answers verdicts(p). */
    method EvaluateDeferredConditions(verdicts: Verdicts)
      requires Valid(durable.View()) && forall p {:trigger verdicts(p)} :: Timeless(verdicts(p))
      modifies this, durable
      ensures Later(old(durable.View()), durable.View())
      ensures Valid(UndatedStore(old(durable.View())))
      ensures UndatedStore(durable.View()) == Settle(UndatedStore(old(durable.View())), verdicts, 0, 0)
    {
      var p := 0;
      ghost var t := durable.View();
      UndatedValid(t);
      GrowsReflexive(t);
      while true
        invariant Later(t, durable.View()) && Valid(UndatedStore(durable.View()))
        invariant Settle(UndatedStore(durable.View()), verdicts, p, 0) == Settle(UndatedStore(t), verdicts, 0, 0)
        decreases |QueuedIds(durable.jobs)|
      {
        ghost var s := durable.View();
        var queued := durable.ListQueuedJobs();
        ghost var q :| IsListing(s.jobs, queued, q);
        ListedQueue(s, queued, q);
        if |queued| == 0 {
          NothingQueued(s, queued, verdicts(p));
          UndatedDecided(s, verdicts(p));
          return;
        }
        var progress := Pass(queued, verdicts(p));
        GrowsTransitive(t, s, durable.View());
        if !progress {
          AfterNone(UndatedStore(s), verdicts(p), 0);
          return;
        }
        PassProgress(s, durable.View(), verdicts(p));
        p := p + 1;
      }
    }
  }

  lemma PassProgress(s: S.Store, t: S.Store, verdict: Verdict)
    requires Valid(s) && Valid(t) && Decided(UndatedStore(s), verdict) != {} && UndatedStore(t) == Sweep(UndatedStore(s), verdict, 0)
    ensures Valid(UndatedStore(t)) && |QueuedIds(t.jobs)| < |QueuedIds(s.jobs)|
  {
    UndatedValid(t);
    SweepShrinks(UndatedStore(s), verdict, 0);
    UndatedQueuedIds(s.jobs);
    UndatedQueuedIds(t.jobs);
  }

  lemma EveryRunGrouped(s: S.Store, byRun: map<RunID, seq<JobRecord>>, queued: seq<JobRecord>, verdict: Verdict)
    requires QueuedList(s, queued) && Grouped(byRun, queued)
    ensures DecidedIn(s, byRun.Keys, verdict) == Decided(s, verdict)
  {
    forall id | id in Decided(s, verdict)
      ensures s.jobs[id].runId in byRun
    {
      DecidedMeaning(s, id, verdict);
      assert Names(queued, id);
      var k :| 0 <= k < |queued| && queued[k].id == id;
      assert QueuedRecord(s, queued[k]) && queued[k] in queued;
      assert queued[k] in OfRun(queued, s.jobs[id].runId);
    }
  }

  lemma ListedQueue(s: S.Store, queued: seq<JobRecord>, q: seq<JobRunID>)
    requires Shape(s) && IsListing(s.jobs, queued, q)
    ensures QueuedList(s, queued)
  {
    forall i | 0 <= i < |q|
      ensures queued[i].id == q[i] && QueuedRecord(s, queued[i])
    {
      assert q[i] in q && JobOk(s.runs.Keys, s.runJobs, s.jobs, q[i]);
    }
    forall i, j | 0 <= i < j < |q|
      ensures queued[i].id != queued[j].id
    {
      H.BeforeIrreflexive(s.jobs, q[i]);
    }
    forall id | id in QueuedIds(s.jobs)
      ensures Names(queued, id)
    {
      assert id in q;
      var k :| 0 <= k < |q| && q[k] == id;
      assert queued[k].id == id;
    }
  }

  lemma NothingQueued(s: S.Store, queued: seq<JobRecord>, verdict: Verdict)
    requires QueuedList(s, queued) && queued == []
    ensures Decided(s, verdict) == {}
  {
    forall id | id in Decided(s, verdict)
      ensures Names(queued, id)
    {
      DecidedMeaning(s, id, verdict);
    }
  }
}
