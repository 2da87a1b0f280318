/** The status a deferred condition sees, told by the attempts of its needs, and
    what jobs under a plain status function settle to
    (internal/server/server.go). */
module NeedsStatus {
  import opened Prelude
  import Txt = Text
  import opened RunModel
  import opened StoreSpec
  import opened StoreInvariants
  import opened Deferral
  import P = Parsing
  import E = Evaluation
  import K = Lookups
  import O = ConditionOutcomes
  import opened JobConditions
  import N = NeedsCompared

  // ---------------------------------------------------------------- what conditions see of it

  /** The records agree on everything about this key that has ended. */
  ghost predicate SameEnds(a: seq<JobRecord>, b: seq<JobRecord>) {
    |a| == |b| && forall i :: 0 <= i < |a| ==>
      b[i].intent == a[i].intent && (a[i].status.IsTerminal() ==> b[i].status == a[i].status)
  }

  lemma {:induction false} SameFirstBad(a: seq<JobRecord>, b: seq<JobRecord>, key: string)
    requires SameEnds(a, b) && forall i :: 0 <= i < |a| && a[i].intent.jobKey == key ==> a[i].status.IsTerminal()
    ensures FirstBad(b, key) == FirstBad(a, key)
  {
    if a != [] {
      assert forall i :: 0 <= i < |a| - 1 ==> a[1..][i] == a[i + 1] && b[1..][i] == b[i + 1];
      SameFirstBad(a[1..], b[1..], key);
    }
  }

  lemma {:induction false} SameStatus(needs: seq<string>, a: seq<JobRecord>, b: seq<JobRecord>)
    requires SameEnds(a, b) && NeedsEnded(needs, a)
    ensures StatusFor(needs, b) == StatusFor(needs, a)
  {
    if needs != [] {
      var n := |needs| - 1;
      SameFirstBad(a, b, needs[n]);
      SameStatus(needs[..n], a, b);
    }
  }

  lemma StillEnded(needs: seq<string>, a: seq<JobRecord>, b: seq<JobRecord>)
    requires SameEnds(a, b) && NeedsEnded(needs, a)
    ensures NeedsEnded(needs, b)
  {
    forall i | 0 <= i < |b| && b[i].intent.jobKey in needs
      ensures b[i].status.IsTerminal()
    {
      assert a[i].status.IsTerminal();
    }
  }

  // ---------------------------------------------------------------- what it settles to

  /** The job waits under this function with all its needs ended. */
  ghost predicate Waits(s: Store, id: JobRunID, fn: string, lib: E.Library) {
    && id in s.jobs && s.jobs[id].status.JobQueued? && s.jobs[id].runId in s.runs
    && PlainCall(s.jobs[id].intent.condition, fn, lib)
    && NeedsEnded(s.jobs[id].intent.dependsOn, Siblings(s, s.jobs[id].runId))
  }

  ghost function SeenStatus(s: Store, id: JobRunID): string
    requires id in s.jobs
  {
    StatusFor(s.jobs[id].intent.dependsOn, Siblings(s, s.jobs[id].runId))
  }

  lemma WaiterDecision(s: Store, id: JobRunID, fn: string, v: Verdict, lib: E.Library)
    requires StatusName(fn) && Waits(s, id, fn, lib) && Possible(v, lib)
    ensures DecisionOf(s, id, v) == if SeenStatus(s, id) == fn then None else Some(PhaseSkipped)
  {
    var j := s.jobs[id];
    var ev, all := s.runs[j.runId].event, Siblings(s, j.runId);
    StatusSays(ev, j, all, lib, v(ev, j, all), fn);
  }

  lemma SweepSameEnds(s: Store, r: RunID, v: Verdict, now: Time)
    requires Valid(s)
    ensures SameEnds(Siblings(s, r), Siblings(Sweep(s, v, now), r))
  {
    AfterKeeps(s, Decided(s, v), v, now);
    var t := Sweep(s, v, now);
    var ids := Listed(s.runJobs, r);
    if ListedExist(s.runJobs, s.jobs.Keys, r) {
      forall i | 0 <= i < |ids|
        ensures t.jobs[ids[i]].intent == s.jobs[ids[i]].intent
        ensures s.jobs[ids[i]].status.IsTerminal() ==> t.jobs[ids[i]].status == s.jobs[ids[i]].status
      {
        assert JobGrows(s.jobs[ids[i]], t.jobs[ids[i]]);
      }
    }
  }

  lemma WaiterStays(s: Store, id: JobRunID, fn: string, v: Verdict, lib: E.Library, now: Time)
    requires Valid(s) && StatusName(fn) && Waits(s, id, fn, lib) && DecisionOf(s, id, v).None?
    ensures var t := Sweep(s, v, now); Waits(t, id, fn, lib) && t.jobs[id] == s.jobs[id] && SeenStatus(t, id) == SeenStatus(s, id)
  {
    var r, needs := s.jobs[id].runId, s.jobs[id].intent.dependsOn;
    SweepSameEnds(s, r, v, now);
    SameStatus(needs, Siblings(s, r), Siblings(Sweep(s, v, now), r));
    StillEnded(needs, Siblings(s, r), Siblings(Sweep(s, v, now), r));
  }

  /** A job under a plain success(), failure() or cancelled() whose needs have ended
      settles exactly so: it stays queued if the status is the one asked for, and is
      skipped if not. */
  lemma {:induction false} StatusSettles(s: Store, id: JobRunID, fn: string, verdicts: Verdicts, p: nat, lib: E.Library, now: Time)
    requires Valid(s) && StatusName(fn) && Waits(s, id, fn, lib) && AllPossible(verdicts, lib)
    ensures var t := Settle(s, verdicts, p, now);
            && id in t.jobs
            && (SeenStatus(s, id) == fn ==> t.jobs[id] == s.jobs[id])
            && (SeenStatus(s, id) != fn ==> t.jobs[id].status == JobSkipped)
    decreases |QueuedIds(s.jobs)|
  {
    var v := verdicts(p);
    WaiterDecision(s, id, fn, v, lib);
    if SeenStatus(s, id) != fn {
      N.DecidedEnds(s, id, verdicts, p, now, PhaseSkipped, JobSkipped);
    } else if Decided(s, v) != {} {
      WaiterStays(s, id, fn, v, lib, now);
      AfterKeeps(s, Decided(s, v), v, now);
      SweepShrinks(s, v, now);
      StatusSettles(Sweep(s, v, now), id, fn, verdicts, p + 1, lib, now);
    }
  }

  /** The status function that asks for a deciding attempt of this status. */
  predicate AsksFor(fn: string, st: JobStatus) {
    (fn == "failure" && st == JobFailed) || (fn == "cancelled" && st == JobCancelled)
  }

  lemma StatusAsked(fn: string, st: JobStatus, needs: seq<string>, all: seq<JobRecord>)
    requires AsksFor(fn, st)
    ensures StatusName(fn) && (StatusFor(needs, all) == fn <==> DecidedBy(needs, all, st))
  {
    StatusIff(needs, all);
  }

  /** So a job under failure() goes on exactly when the attempt that decides its
      needs failed, and one under cancelled() exactly when it was cancelled;
      otherwise it is skipped. */
  lemma BadNeedRunsIff(s: Store, id: JobRunID, fn: string, st: JobStatus, verdicts: Verdicts, lib: E.Library, now: Time)
    requires Valid(s) && AsksFor(fn, st) && Waits(s, id, fn, lib) && AllPossible(verdicts, lib)
    ensures var t := Settle(s, verdicts, 0, now);
            && id in t.jobs
            && t.jobs[id].status == if DecidedBy(s.jobs[id].intent.dependsOn, Siblings(s, s.jobs[id].runId), st) then JobQueued else JobSkipped
  {
    StatusAsked(fn, st, s.jobs[id].intent.dependsOn, Siblings(s, s.jobs[id].runId));
    StatusSettles(s, id, fn, verdicts, 0, lib, now);
  }
}
