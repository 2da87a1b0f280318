/** success() in a deferred condition beside the claim's dependency test: when
    the two agree, and a run in which they do not. */
module NeedsCompared {
  import opened Prelude
  import Txt = Text
  import opened RunModel
  import opened StoreSpec
  import opened StoreInvariants
  import opened StoreGrowth
  import opened StoreHistory
  import opened StoreClaims
  import opened StoreWitness
  import opened Deferral
  import L = Lexing
  import P = Parsing
  import E = Evaluation
  import C = Conditions
  import opened JobConditions

  // ---------------------------------------------------------------- attempts of needs

  predicate BadAttempt(s: Store, r: RunID, k: string, id: JobRunID) {
    id in s.jobs && s.jobs[id].runId == r && Bad(s.jobs[id], k)
  }

  /** A need that no job of the run has as its key. */
  ghost predicate SomeUnknown(s: Store, r: RunID, needs: seq<string>) {
    exists d :: 0 <= d < |needs| && !HasKey(s.byJobKey, r, needs[d])
  }

  /** The newest attempt of a need failed or was cancelled. */
  ghost predicate NewestBad(s: Store, r: RunID, needs: seq<string>) {
    exists d :: 0 <= d < |needs| && HasKey(s.byJobKey, r, needs[d]) && BadAttempt(s, r, needs[d], s.byJobKey[r][needs[d]])
  }

  /** An older attempt of a need did. */
  ghost predicate OlderBad(s: Store, r: RunID, needs: seq<string>) {
    exists d, id :: 0 <= d < |needs| && HasKey(s.byJobKey, r, needs[d])
                    && id != s.byJobKey[r][needs[d]] && BadAttempt(s, r, needs[d], id)
  }

  predicate Undecided(st: JobStatus) { st.JobSkipped? || !st.IsTerminal() }

  /** The newest attempt of a need is skipped or open. */
  ghost predicate NewestUndecided(s: Store, r: RunID, needs: seq<string>) {
    exists d :: 0 <= d < |needs| && HasKey(s.byJobKey, r, needs[d]) && s.byJobKey[r][needs[d]] in s.jobs
                && Undecided(s.jobs[s.byJobKey[r][needs[d]]].status)
  }

  lemma NewestOf(s: Store, r: RunID, k: string)
    requires Valid(s) && HasKey(s.byJobKey, r, k)
    ensures var top := s.byJobKey[r][k]; top in s.jobs && s.jobs[top].runId == r && s.jobs[top].intent.jobKey == k
  {
    assert Ladder(s.jobs, r, k, s.byJobKey[r][k]);
  }

  /** The records of a run are exactly the jobs that belong to it. */
  lemma RecordOf(s: Store, r: RunID, id: JobRunID) returns (i: nat)
    requires Valid(s) && r in s.runs && id in s.jobs && s.jobs[id].runId == r
    ensures i < |Siblings(s, r)| && Siblings(s, r)[i] == s.jobs[id]
  {
    assert JobOk(s.runs.Keys, s.runJobs, s.jobs, id) && ListOk(s.runJobs, s.jobs, r);
    i :| 0 <= i < |Listed(s.runJobs, r)| && Listed(s.runJobs, r)[i] == id;
  }

  lemma JobOf(s: Store, r: RunID, i: nat) returns (id: JobRunID)
    requires Valid(s) && r in s.runs && i < |Siblings(s, r)|
    ensures id in s.jobs && s.jobs[id].runId == r && s.jobs[id] == Siblings(s, r)[i]
  {
    assert ListOk(s.runJobs, s.jobs, r);
    id := Listed(s.runJobs, r)[i];
  }

  ghost predicate SomeBad(s: Store, r: RunID, needs: seq<string>) {
    exists d, id :: 0 <= d < |needs| && BadAttempt(s, r, needs[d], id)
  }

  lemma StatusInStore(s: Store, r: RunID, needs: seq<string>)
    requires Valid(s) && r in s.runs
    ensures StatusFor(needs, Siblings(s, r)) == "success" <==> !SomeBad(s, r, needs)
  {
    var all := Siblings(s, r);
    StatusSuccessIff(needs, all);
    if SomeBad(s, r, needs) {
      var d, id :| 0 <= d < |needs| && BadAttempt(s, r, needs[d], id);
      var i := RecordOf(s, r, id);
      assert Bad(all[i], needs[d]);
    } else if exists d, i :: 0 <= d < |needs| && 0 <= i < |all| && Bad(all[i], needs[d]) {
      var d, i :| 0 <= d < |needs| && 0 <= i < |all| && Bad(all[i], needs[d]);
      var id := JobOf(s, r, i);
      assert BadAttempt(s, r, needs[d], id);
    }
  }

  lemma BadSplits(s: Store, r: RunID, needs: seq<string>)
    requires Valid(s) && r in s.runs
    ensures SomeBad(s, r, needs) <==> NewestBad(s, r, needs) || OlderBad(s, r, needs)
  {
    if SomeBad(s, r, needs) {
      var d, id :| 0 <= d < |needs| && BadAttempt(s, r, needs[d], id);
      assert Keyed(s.jobs, s.byJobKey, id) && HasKey(s.byJobKey, r, needs[d]);
    }
  }

  lemma SucceededSplits(s: Store, r: RunID, needs: seq<string>)
    requires Valid(s)
    ensures AllSucceeded(s, r, needs) <==>
            !NewestBad(s, r, needs) && !NewestUndecided(s, r, needs) && !SomeUnknown(s, r, needs)
  {
    forall d | 0 <= d < |needs| && HasKey(s.byJobKey, r, needs[d])
      ensures s.byJobKey[r][needs[d]] in s.jobs
      ensures NewestHas(s, r, needs[d], JobSucceeded) <==>
              !BadAttempt(s, r, needs[d], s.byJobKey[r][needs[d]]) && !Undecided(s.jobs[s.byJobKey[r][needs[d]]].status)
    {
      NewestOf(s, r, needs[d]);
    }
    if !AllSucceeded(s, r, needs) {
      var d :| 0 <= d < |needs| && !NewestHas(s, r, needs[d], JobSucceeded);
      assert HasKey(s.byJobKey, r, needs[d]) || SomeUnknown(s, r, needs);
    }
  }

  /** success() and the claim's test agree exactly when some newest attempt
      failed or was cancelled, or when an older one did just if some newest one
      is skipped or open or some need is unknown. */
  lemma StatusAgreesIff(s: Store, r: RunID, needs: seq<string>)
    requires Valid(s) && r in s.runs
    ensures (StatusFor(needs, Siblings(s, r)) == "success" <==> AllSucceeded(s, r, needs)) <==>
            NewestBad(s, r, needs) || (OlderBad(s, r, needs) <==> NewestUndecided(s, r, needs) || SomeUnknown(s, r, needs))
  {
    StatusInStore(s, r, needs);
    BadSplits(s, r, needs);
    SucceededSplits(s, r, needs);
  }

  // ---------------------------------------------------------------- where they part

  /** A queued job under success() with a failed or cancelled attempt among its
      ended needs is skipped, however the newest attempts went. */
  lemma BadAttemptSkips(s: Store, id: JobRunID, verdicts: Verdicts, lib: E.Library, now: Time)
    requires Valid(s) && AllPossible(verdicts, lib)
    requires id in s.jobs && s.jobs[id].status.JobQueued? && s.jobs[id].runId in s.runs
    requires PlainCall(s.jobs[id].intent.condition, "success", lib)
    requires NeedsEnded(s.jobs[id].intent.dependsOn, Siblings(s, s.jobs[id].runId))
    requires SomeBad(s, s.jobs[id].runId, s.jobs[id].intent.dependsOn)
    ensures var t := Settle(s, verdicts, 0, now); id in t.jobs && t.jobs[id].status.JobSkipped?
  {
    var j := s.jobs[id];
    var ev, all := s.runs[j.runId].event, Siblings(s, j.runId);
    StatusSays(ev, j, all, lib, verdicts(0)(ev, j, all), "success");
    StatusInStore(s, j.runId, j.intent.dependsOn);
    assert DecisionOf(s, id, verdicts(0)) == Some(PhaseSkipped);
    DecidedEnds(s, id, verdicts, 0, now, PhaseSkipped, JobSkipped);
  }

  /** The end a decision gives a job. */
  predicate EndsAs(phase: Phase, st: JobStatus) {
    (phase == PhaseSkipped && st == JobSkipped) || (phase == PhaseFailed && st == JobFailed)
  }

  lemma SweepEnds(s: Store, id: JobRunID, verdict: Verdict, now: Time, phase: Phase, st: JobStatus)
    requires id in s.jobs && DecisionOf(s, id, verdict) == Some(phase) && EndsAs(phase, st)
    ensures Decided(s, verdict) != {}
    ensures var u := Sweep(s, verdict, now); id in u.jobs && u.jobs[id].status == st
  {
    assert id in Decided(s, verdict);
    assert JobAfter(s, Decided(s, verdict), verdict, now, id) == ClosedJob(s.jobs[id], phase, now);
  }

  lemma SettleFreezes(u: Store, id: JobRunID, verdicts: Verdicts, p: nat, now: Time)
    requires Valid(u) && id in u.jobs && u.jobs[id].status.IsTerminal()
    ensures var t := Settle(u, verdicts, p, now); id in t.jobs && t.jobs[id].status == u.jobs[id].status
  {
    SettleGrows(u, verdicts, p, now);
    assert JobGrows(u.jobs[id], Settle(u, verdicts, p, now).jobs[id]);
  }

  lemma DecidedEnds(s: Store, id: JobRunID, verdicts: Verdicts, p: nat, now: Time, phase: Phase, st: JobStatus)
    requires Valid(s) && id in s.jobs && DecisionOf(s, id, verdicts(p)) == Some(phase) && EndsAs(phase, st)
    ensures var t := Settle(s, verdicts, p, now); id in t.jobs && t.jobs[id].status == st
  {
    SweepEnds(s, id, verdicts(p), now, phase, st);
    AfterKeeps(s, Decided(s, verdicts(p)), verdicts(p), now);
    SweepShrinks(s, verdicts(p), now);
    SettleFreezes(Sweep(s, verdicts(p), now), id, verdicts, p + 1, now);
  }

  lemma RetriedReady(t: Store, r: RunID, first: JobIntent, second: JobIntent, a: JobRunID, b: JobRunID, c: JobRunID, needs: seq<string>)
    requires Valid(t) && RetriedRun(t, r, first, second, a, b, c, JobFailed, JobSucceeded) && first.jobKey != second.jobKey
    requires needs == [first.jobKey] && second.dependsOn == needs
    ensures AllSucceeded(t, r, needs) && SomeBad(t, r, needs) && NeedsEnded(needs, Siblings(t, r))
  {
    assert BadAttempt(t, r, needs[0], a);
    assert ListOk(t.runJobs, t.jobs, r);
    var all := Siblings(t, r);
    assert |all| == 3 && all[0] == t.jobs[a] && all[1] == t.jobs[b] && all[2] == t.jobs[c];
  }

  /** A reachable run in which the need is ready for the claim, success() is false
      and the job is skipped: the need failed once and then succeeded. */
  lemma RetriedNeedSkips(cond: string, verdicts: Verdicts, lib: E.Library, now: Time) returns (ops: seq<Op>, t: Store, id: JobRunID)
    requires AllPossible(verdicts, lib) && PlainCall(cond, "success", lib)
    ensures From(ops, t) && Valid(t) && id in t.jobs && t.jobs[id].runId in t.runs && t.jobs[id].intent.condition == cond
    ensures ScanDeps(t, t.jobs[id].runId, t.jobs[id].intent.dependsOn) == DepsReady
    ensures StatusFor(t.jobs[id].intent.dependsOn, Siblings(t, t.jobs[id].runId)) != "success"
    ensures id in Settle(t, verdicts, 0, now).jobs && Settle(t, verdicts, 0, now).jobs[id].status.JobSkipped?
  {
    var k, r := "build", "R";
    var needs := [k];
    var first, second := JobIntent(k, "linux", [], map[], "", ""), JobIntent("test", "linux", needs, map[], "", cond);
    id := "B";
    ops, t := FailsThenSucceeds(r, first, second, "A", id, "C");
    FromValid(ops, t);
    RetriedReady(t, r, first, second, "A", id, "C", needs);
    RetriedSkips(t, id, r, needs, verdicts, lib, now);
  }

  lemma RetriedSkips(t: Store, id: JobRunID, r: RunID, needs: seq<string>, verdicts: Verdicts, lib: E.Library, now: Time)
    requires Valid(t) && AllPossible(verdicts, lib) && r in t.runs
    requires id in t.jobs && t.jobs[id].runId == r && t.jobs[id].status == JobQueued && t.jobs[id].intent.dependsOn == needs
    requires PlainCall(t.jobs[id].intent.condition, "success", lib)
    requires AllSucceeded(t, r, needs) && SomeBad(t, r, needs) && NeedsEnded(needs, Siblings(t, r))
    ensures ScanDeps(t, r, needs) == DepsReady && StatusFor(needs, Siblings(t, r)) != "success"
    ensures id in Settle(t, verdicts, 0, now).jobs && Settle(t, verdicts, 0, now).jobs[id].status.JobSkipped?
  {
    ScanDepsMeaning(t, r, needs);
    StatusInStore(t, r, needs);
    BadAttemptSkips(t, id, verdicts, lib, now);
  }

  lemma CallText(fn: string, s: string)
    requires StatusName(fn) && s == fn + ("(" + (")" + ""))
    ensures s != "" && IsDeferred(s) && Txt.Trim(s) == s && !Txt.Contains(s, "${{") && Txt.Lower(fn) == fn && L.IsIdent(fn)
  {
    assert Txt.Lower(s) == s && Txt.Trim(s) == s;
    CallIsDeferred(fn, fn + "(", s);
    C.AbsentCharacter(s, "${{", 0);
  }

  lemma CallIsDeferred(fn: string, m: string, s: string)
    requires StatusName(fn) && m == fn + "(" && |m| <= |s| && s[..|m|] == m && Txt.Lower(s) == s
    ensures IsDeferred(s)
  {
    assert s[0..0 + |m|] == m;
    assert Txt.OccursAt(s, m, 0);
    assert m == "success(" || m == "failure(" || m == "cancelled(";
  }

  lemma CallParsed(fn: string, floats: L.Floats)
    requires L.IsIdent(fn) && fn != "null" && fn != "true" && fn != "false"
    ensures P.Parse(fn + ("(" + (")" + "")), floats) == Ok(P.Call(fn, []))
  {
    assert L.Lex("", floats) == Ok([]);
    C.CallLexes(fn, "", floats);
    var ts := [L.Ident(fn), L.Punct("("), L.Punct(")")];
    assert [L.Ident(fn)] + ([L.Punct("(")] + ([L.Punct(")")] + [])) == ts;
    CallTokens(ts, fn);
  }

  /** Such conditions exist: the call of a status function as it is written. */
  lemma PlainCallExists(fn: string, s: string, lib: E.Library)
    requires StatusName(fn) && s == fn + ("(" + (")" + ""))
    ensures PlainCall(s, fn, lib)
  {
    CallText(fn, s);
    CallParsed(fn, E.FloatsOf(lib));
  }

  lemma CallTokens(ts: P.Tokens, fn: string)
    requires ts == [L.Ident(fn), L.Punct("("), L.Punct(")")] && fn != "null" && fn != "true" && fn != "false"
    ensures P.ParseTokens(ts) == Ok(P.Call(fn, []))
  {
    var n := P.Call(fn, []);
    assert ts[1..] == [L.Punct("("), L.Punct(")")] && ts[1..][1..] == [L.Punct(")")] && ts[1..][1..][1..] == [];
    assert P.ParseCall(fn, ts[1..][1..]) == P.Good(n, []);
    assert P.ParsePrimary(ts) == P.Good(n, []);
    assert P.ParsePostfix(ts) == P.Good(n, []);
    assert P.ParseUnary(ts) == P.Good(n, []);
    assert P.ParseCompare(ts) == P.Good(n, []);
    assert P.ParseAnd(ts) == P.Good(n, []);
    assert P.ParseOr(ts) == P.Good(n, []);
  }
}
