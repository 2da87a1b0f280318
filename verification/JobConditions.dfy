/** Job conditions at scheduling time: the environment they see
    (internal/server/server.go) and what settling the deferred ones means. */
module JobConditions {
  import opened Prelude
  import Txt = Text
  import opened RunModel
  import S = StoreSpec
  import I = StoreInvariants
  import opened Deferral
  import opened Parsing
  import opened Evaluation
  import opened Conditions
  import opened Lookups
  import opened ConditionOutcomes
  import opened Undated

  // ---------------------------------------------------------------- the environment

  function ResultName(status: JobStatus): string {
    match status
    case JobSucceeded => "success"
    case JobFailed => "failure"
    case JobCancelled => "cancelled"
    case JobSkipped => "skipped"
    case _ => "pending"
  }

  function ResultObject(status: JobStatus): Value {
    VObject(map["result" := VString(ResultName(status))])
  }

  /** i is the last record of that key. */
  predicate IsLast(all: seq<JobRecord>, key: string, i: int) {
    && 0 <= i < |all| && all[i].intent.jobKey == key
    && forall k :: i < k < |all| ==> all[k].intent.jobKey != key
  }

  /** The needs context holds, for a key, the result of its last listed record. */
  ghost predicate NeedsAt(needs: map<string, Value>, all: seq<JobRecord>, key: string) {
    && (key in needs <==> exists i :: IsLast(all, key, i))
    && (forall i :: IsLast(all, key, i) && key in needs ==> needs[key] == ResultObject(all[i].status))
  }

  predicate Bad(j: JobRecord, key: string) {
    j.intent.jobKey == key && (j.status.JobFailed? || j.status.JobCancelled?)
  }

  /** The first failed or cancelled record of a key. */
  function FirstBad(all: seq<JobRecord>, key: string): (r: Option<JobStatus>)
    ensures r.None? <==> forall i :: 0 <= i < |all| ==> !Bad(all[i], key)
    ensures r.Some? ==> r.value.JobFailed? || r.value.JobCancelled?
  {
    if all == [] then None
    else if Bad(all[0], key) then Some(all[0].status)
    else FirstBad(all[1..], key)
  }

  /** The status the status functions see: decided by the last need with a bad record. */
  function StatusFor(needs: seq<string>, all: seq<JobRecord>): string {
    if needs == [] then "success"
    else
      match FirstBad(all, needs[|needs| - 1])
      case Some(JobCancelled) => "cancelled"
      case Some(_) => "failure"
      case None => StatusFor(needs[..|needs| - 1], all)
  }

  /** success() holds exactly when no listed attempt of a needed job, however
      old, failed or was cancelled; a skipped need does not count against it. */
  lemma {:induction false} StatusSuccessIff(needs: seq<string>, all: seq<JobRecord>)
    ensures StatusFor(needs, all) == "success" <==>
            forall d, i :: 0 <= d < |needs| && 0 <= i < |all| ==> !Bad(all[i], needs[d])
  {
    if needs != [] {
      var n := |needs| - 1;
      StatusSuccessIff(needs[..n], all);
      if FirstBad(all, needs[n]).Some? {
        var i :| 0 <= i < |all| && Bad(all[i], needs[n]);
      } else if StatusFor(needs[..n], all) == "success" {
        forall d, i | 0 <= d < |needs| && 0 <= i < |all|
          ensures !Bad(all[i], needs[d])
        {
          assert d < n ==> needs[d] == needs[..n][d];
        }
      } else {
        var d, i :| 0 <= d < n && 0 <= i < |all| && Bad(all[i], needs[..n][d]);
        assert Bad(all[i], needs[d]);
      }
    }
  }

  // ---------------------------------------------------------------- which attempt decides

  predicate EndedBadly(j: JobRecord, key: string) {
    j.intent.jobKey == key && (j.status == JobFailed || j.status == JobCancelled)
  }

  /** Record i is the first attempt of need d, in list order, that failed or was
      cancelled, and no later need has such an attempt. */
  ghost predicate Decides(needs: seq<string>, all: seq<JobRecord>, d: int, i: int) {
    && 0 <= d < |needs| && 0 <= i < |all| && EndedBadly(all[i], needs[d])
    && (forall k :: 0 <= k < i ==> !EndedBadly(all[k], needs[d]))
    && (forall e, k :: d < e < |needs| && 0 <= k < |all| ==> !EndedBadly(all[k], needs[e]))
  }

  lemma {:induction false} FirstBadAt(all: seq<JobRecord>, key: string) returns (i: nat)
    requires FirstBad(all, key).Some?
    ensures i < |all| && EndedBadly(all[i], key) && all[i].status == FirstBad(all, key).value
    ensures forall k :: 0 <= k < i ==> !EndedBadly(all[k], key)
  {
    if Bad(all[0], key) {
      i := 0;
    } else {
      var k := FirstBadAt(all[1..], key);
      i := k + 1;
      assert forall j :: 0 < j < i ==> all[j] == all[1..][j - 1];
    }
  }

  /** The attempt that decides has this status. */
  ghost predicate DecidedBy(needs: seq<string>, all: seq<JobRecord>, st: JobStatus) {
    exists d, i :: Decides(needs, all, d, i) && all[i].status == st
  }

  /** There is at most one deciding attempt. */
  lemma DecidesOnce(needs: seq<string>, all: seq<JobRecord>, d: int, i: int, e: int, k: int)
    requires Decides(needs, all, d, i) && Decides(needs, all, e, k)
    ensures needs[d] == needs[e] && i == k
  {}

  /** The attempt at i of need d explains the status, or nothing is there to explain. */
  ghost predicate Explains(needs: seq<string>, all: seq<JobRecord>, status: string, d: int, i: int) {
    || (status == "failure" && Decides(needs, all, d, i) && all[i].status == JobFailed)
    || (status == "cancelled" && Decides(needs, all, d, i) && all[i].status == JobCancelled)
    || (status == "success" && forall e, k :: 0 <= e < |needs| && 0 <= k < |all| ==> !EndedBadly(all[k], needs[e]))
  }

  lemma {:induction false} DecidingAttempt(needs: seq<string>, all: seq<JobRecord>) returns (d: nat, i: nat)
    ensures Explains(needs, all, StatusFor(needs, all), d, i)
  {
    d, i := 0, 0;
    if needs != [] {
      var n := |needs| - 1;
      if FirstBad(all, needs[n]).Some? {
        d := n;
        i := FirstBadAt(all, needs[n]);
      } else {
        d, i := DecidingAttempt(needs[..n], all);
        NotBadLast(needs, all, n);
        ExplainsMore(needs, all, StatusFor(needs[..n], all), d, i);
      }
    }
  }

  lemma ExplainsMore(needs: seq<string>, all: seq<JobRecord>, status: string, d: int, i: int)
    requires needs != [] && Explains(needs[..|needs| - 1], all, status, d, i)
    requires forall k :: 0 <= k < |all| ==> !EndedBadly(all[k], needs[|needs| - 1])
    ensures Explains(needs, all, status, d, i)
  {
    var n := |needs| - 1;
    assert forall e :: 0 <= e < n ==> needs[..n][e] == needs[e];
    forall e, k | 0 <= e < |needs| && 0 <= k < |all| && (status == "success" || e > d)
      ensures !EndedBadly(all[k], needs[e])
    {
      if e < n { assert !EndedBadly(all[k], needs[..n][e]); }
    }
  }

  lemma NotBadLast(needs: seq<string>, all: seq<JobRecord>, n: nat)
    requires n < |needs| && FirstBad(all, needs[n]).None?
    ensures forall k :: 0 <= k < |all| ==> !EndedBadly(all[k], needs[n])
  {
    forall k | 0 <= k < |all|
      ensures !EndedBadly(all[k], needs[n])
    {
      assert !Bad(all[k], needs[n]);
    }
  }

  /** The status is "failure" exactly when the deciding attempt failed, "cancelled"
      exactly when it was cancelled, and "success" exactly when there is none. */
  lemma StatusIff(needs: seq<string>, all: seq<JobRecord>)
    ensures StatusFor(needs, all) == "failure" <==> DecidedBy(needs, all, JobFailed)
    ensures StatusFor(needs, all) == "cancelled" <==> DecidedBy(needs, all, JobCancelled)
    ensures StatusFor(needs, all) == "success" <==> !exists d, i :: Decides(needs, all, d, i)
  {
    var d, i := DecidingAttempt(needs, all);
    forall e, k | Decides(needs, all, e, k)
      ensures StatusFor(needs, all) != "success" && i == k
    {
      assert EndedBadly(all[k], needs[e]);
      DecidesOnce(needs, all, d, i, e, k);
    }
  }

  // ---------------------------------------------------------------- the contexts

  function GithubContext(ev: Event): Value {
    VObject(map[
      "event_name" := VString(ev.name), "ref" := VString(ev.ref), "sha" := VString(ev.sha), "actor" := VString(ev.actor),
      "repository" := VObject(map["owner" := VString(ev.owner), "name" := VString(ev.repo),
                                  "full_name" := VString(ev.owner + "/" + ev.repo)])])
  }

  function EnvOf(ev: Event, needs: map<string, Value>, status: string): Env {
    Env(map[], None)
      .With("github", GithubContext(ev))
      .With("needs", VObject(needs))
      .With("job", VObject(map["status" := VString(status)]))
      .With(STATUS, VString(status))
  }

  function NeedsMap(all: seq<JobRecord>): map<string, Value> {
    if all == [] then map[]
    else
      var j := all[|all| - 1];
      NeedsMap(all[..|all| - 1])[j.intent.jobKey := ResultObject(j.status)]
  }

  lemma {:induction false} NeedsLastWins(all: seq<JobRecord>, key: string)
    ensures NeedsAt(NeedsMap(all), all, key)
  {
    if all != [] {
      var n := |all| - 1;
      var front := all[..n];
      NeedsLastWins(front, key);
      if all[n].intent.jobKey == key {
        assert IsLast(all, key, n);
      } else {
        forall i
          ensures IsLast(all, key, i) <==> IsLast(front, key, i)
        {
          assert forall k :: 0 <= k < n ==> all[k] == front[k];
        }
      }
    }
  }

  function ConditionEnv(ev: Event, j: JobRecord, all: seq<JobRecord>): Env {
    EnvOf(ev, NeedsMap(all), StatusFor(j.intent.dependsOn, all))
  }

  method JobConditionEnv(ev: Event, j: JobRecord, all: seq<JobRecord>) returns (env: Env)
    ensures env == ConditionEnv(ev, j, all)
    ensures Evaluation.JobStatus(env) == "failure" <==> DecidedBy(j.intent.dependsOn, all, JobFailed)
    ensures Evaluation.JobStatus(env) == "cancelled" <==> DecidedBy(j.intent.dependsOn, all, JobCancelled)
  {
    StatusSeen(ev, j, all);
    var needs: map<string, Value> := map[];
    for n := 0 to |all|
      invariant needs == NeedsMap(all[..n])
    {
      assert all[..n + 1][..n] == all[..n];
      needs := needs[all[n].intent.jobKey := ResultObject(all[n].status)];
    }
    assert all[..|all|] == all;
    var status := NeedsStatus(j.intent.dependsOn, all);
    env := EnvOf(ev, needs, status);
  }

  method NeedsStatus(deps: seq<string>, all: seq<JobRecord>) returns (status: string)
    ensures status == StatusFor(deps, all)
    ensures status == "failure" <==> DecidedBy(deps, all, JobFailed)
    ensures status == "cancelled" <==> DecidedBy(deps, all, JobCancelled)
  {
    StatusIff(deps, all);
    status := "success";
    for d := 0 to |deps|
      invariant status == StatusFor(deps[..d], all)
    {
      assert deps[..d + 1][..d] == deps[..d];
      var bad := FindBad(deps[d], all);
      if bad.Some? { status := if bad.value.JobCancelled? then "cancelled" else "failure"; }
    }
    assert deps[..|deps|] == deps;
  }

  method FindBad(key: string, all: seq<JobRecord>) returns (bad: Option<JobStatus>)
    ensures bad == FirstBad(all, key)
  {
    assert all[0..] == all;
    for i := 0 to |all|
      invariant FirstBad(all, key) == FirstBad(all[i..], key)
    {
      assert all[i..][1..] == all[i + 1..];
      if Bad(all[i], key) { return Some(all[i].status); }
    }
    bad := None;
  }

  lemma StatusSeen(ev: Event, j: JobRecord, all: seq<JobRecord>)
    ensures Evaluation.JobStatus(ConditionEnv(ev, j, all)) == StatusFor(j.intent.dependsOn, all)
  {
    assert Txt.Lower(STATUS) == STATUS;
  }

  // ---------------------------------------------------------------- deferred conditions are taken literally

  lemma {:induction false} TrimLeftSplit(s: string)
    ensures |Txt.TrimLeft(s)| <= |s| && Txt.TrimLeft(s) == s[|s| - |Txt.TrimLeft(s)|..]
    ensures forall i :: 0 <= i < |s| - |Txt.TrimLeft(s)| ==> Txt.IsSpace(s[i])
  {
    if s != [] && Txt.IsSpace(s[0]) {
      TrimLeftSplit(s[1..]);
      assert forall i :: 1 <= i < |s| ==> s[i] == s[1..][i - 1];
    }
  }

  lemma {:induction false} TrimRightSplit(s: string)
    ensures |Txt.TrimRight(s)| <= |s| && Txt.TrimRight(s) == s[..|Txt.TrimRight(s)|]
    ensures forall i :: |Txt.TrimRight(s)| <= i < |s| ==> Txt.IsSpace(s[i])
  {
    if s != [] && Txt.IsSpace(s[|s| - 1]) { TrimRightSplit(s[..|s| - 1]); }
  }

  /** Trimming moves the text; it loses white space only. */
  lemma TrimSplit(s: string) returns (a: nat, b: nat)
    ensures a <= b <= |s| && Txt.Trim(s) == s[a..b]
    ensures forall i :: 0 <= i < |s| && (i < a || b <= i) ==> Txt.IsSpace(s[i])
  {
    var l := Txt.TrimLeft(s);
    TrimLeftSplit(s);
    TrimRightSplit(l);
    a := |s| - |l|;
    b := a + |Txt.TrimRight(l)|;
    forall i | b <= i < |s|
      ensures Txt.IsSpace(s[i])
    {
      assert s[i] == l[i - a];
    }
  }

  /** And all of it at both ends. */
  lemma TrimEnds(s: string)
    ensures var t := Txt.Trim(s); t != "" ==> !Txt.IsSpace(t[0]) && !Txt.IsSpace(t[|t| - 1])
  {
    var l := Txt.TrimLeft(s);
    LeftTight(s);
    RightTight(l);
    TrimRightSplit(l);
  }

  lemma {:induction false} LeftTight(s: string)
    ensures Txt.TrimLeft(s) != "" ==> !Txt.IsSpace(Txt.TrimLeft(s)[0])
  {
    if s != "" && Txt.IsSpace(s[0]) { LeftTight(s[1..]); }
  }

  lemma {:induction false} RightTight(s: string)
    ensures var t := Txt.TrimRight(s); t != "" ==> !Txt.IsSpace(t[|t| - 1])
  {
    if s != "" && Txt.IsSpace(s[|s| - 1]) { RightTight(s[..|s| - 1]); }
  }

  ghost predicate Solid(sub: string) {
    sub != [] && forall c :: c in sub ==> !Txt.IsSpace(c)
  }

  lemma Inside(s: string, sub: string, i: nat, a: nat, b: nat, k: nat)
    requires Solid(sub) && Txt.OccursAt(Txt.Lower(s), sub, i) && k < |sub| && a <= b <= |s|
    requires forall n :: 0 <= n < |s| && (n < a || b <= n) ==> Txt.IsSpace(s[n])
    ensures a <= i + k < b
  {
    var lower := Txt.Lower(s);
    assert lower[i + k] == lower[i..i + |sub|][k];
    assert sub[k] in sub;
  }

  /** Text without white space survives trimming. */
  lemma TrimKeeps(s: string, sub: string)
    requires Solid(sub) && Txt.Contains(Txt.Lower(s), sub)
    ensures Txt.Contains(Txt.Lower(Txt.Trim(s)), sub)
  {
    var lower := Txt.Lower(s);
    var i :| 0 <= i <= |lower| && Txt.OccursAt(lower, sub, i);
    var a, b := TrimSplit(s);
    Inside(s, sub, i, a, b, 0);
    Inside(s, sub, i, a, b, |sub| - 1);
    assert Txt.Lower(s[a..b]) == lower[a..b];
    Txt.OccursWithin(lower, sub, a, b, i);
    assert Txt.OccursAt(lower[a..b], sub, i - a);
  }

  lemma DeferredNeverRewritten(cond: string)
    requires IsDeferred(cond)
    ensures !Rewritten(Txt.Trim(cond))
  {
    if Txt.Contains(Txt.Lower(cond), "needs.") { TrimKeeps(cond, "needs."); }
    else if Txt.Contains(Txt.Lower(cond), "success(") { TrimKeeps(cond, "success("); }
    else if Txt.Contains(Txt.Lower(cond), "failure(") { TrimKeeps(cond, "failure("); }
    else if Txt.Contains(Txt.Lower(cond), "cancelled(") { TrimKeeps(cond, "cancelled("); }
    else { TrimKeeps(cond, "always("); }
  }

  lemma DeferredLiteral(cond: string, env: Env, lib: Library)
    requires IsDeferred(cond) && !Txt.Contains(Txt.Trim(cond), "${{")
    ensures EvaluateCondition(cond, env, lib) == Decide(Txt.Trim(cond), env, lib)
  {
    DeferredNeverRewritten(cond);
    DeferredNotBlank(cond);
  }

  lemma DeferredNotBlank(cond: string)
    requires IsDeferred(cond)
    ensures Txt.Trim(cond) != ""
  {
    DeferredNeverRewritten(cond);
    assert Rewritten("");
  }

  // ---------------------------------------------------------------- what the evaluator can say

  function Said(res: Answer): Option<bool> {
    match res
    case Ok(b) => Some(b)
    case Err(_) => None
  }

  ghost function Usual(ev: Event, j: JobRecord, all: seq<JobRecord>, lib: Library): Option<bool> {
    Said(EvaluateCondition(j.intent.condition, ConditionEnv(ev, j, all), lib))
  }

  ghost predicate CanSay(ev: Event, j: JobRecord, all: seq<JobRecord>, lib: Library, o: Option<bool>) {
    exists res :: CanAnswer(j.intent.condition, ConditionEnv(ev, j, all), lib, res) && o == Said(res)
  }

  /** The evaluator the server calls, whatever its searches meet first. */
  ghost predicate Possible(verdict: Verdict, lib: Library) {
    forall ev, j, all {:trigger verdict(ev, j, all)} :: CanSay(ev, j, all, lib, verdict(ev, j, all))
  }

  ghost predicate AllPossible(verdicts: Verdicts, lib: Library) {
    forall p {:trigger verdicts(p)} :: Possible(verdicts(p), lib)
  }

  lemma UsualIsPossible(ev: Event, j: JobRecord, all: seq<JobRecord>, lib: Library)
    ensures CanSay(ev, j, all, lib, Usual(ev, j, all, lib))
  {
    AnswerIsPossible(j.intent.condition, ConditionEnv(ev, j, all), lib);
  }

  lemma {:induction false} UndatedNeeds(all: seq<JobRecord>)
    ensures NeedsMap(UndatedAll(all)) == NeedsMap(all)
  {
    if all != [] {
      var n := |all| - 1;
      assert UndatedAll(all)[..n] == UndatedAll(all[..n]);
      UndatedNeeds(all[..n]);
    }
  }

  lemma {:induction false} UndatedFirstBad(all: seq<JobRecord>, key: string)
    ensures FirstBad(UndatedAll(all), key) == FirstBad(all, key)
  {
    if all != [] {
      assert UndatedAll(all)[1..] == UndatedAll(all[1..]);
      UndatedFirstBad(all[1..], key);
    }
  }

  lemma {:induction false} UndatedStatus(needs: seq<string>, all: seq<JobRecord>)
    ensures StatusFor(needs, UndatedAll(all)) == StatusFor(needs, all)
  {
    if needs != [] {
      UndatedFirstBad(all, needs[|needs| - 1]);
      UndatedStatus(needs[..|needs| - 1], all);
    }
  }

  /** Conditions see no start or finish time. */
  lemma UndatedEnv(ev: Event, j: JobRecord, all: seq<JobRecord>)
    ensures ConditionEnv(ev, UndatedJob(j), UndatedAll(all)) == ConditionEnv(ev, j, all)
  {
    UndatedNeeds(all);
    UndatedStatus(j.intent.dependsOn, all);
  }

  /** There are such evaluators, and ones that answer by their own fixed choice
      read no times. */
  lemma UsualVerdict(lib: Library) returns (verdict: Verdict)
    ensures Possible(verdict, lib) && Timeless(verdict)
    ensures forall ev, j, all :: verdict(ev, j, all) == Usual(ev, j, all, lib)
  {
    verdict := (ev: Event, j: JobRecord, all: seq<JobRecord>) => Usual(ev, j, all, lib);
    forall ev, j, all
      ensures CanSay(ev, j, all, lib, verdict(ev, j, all))
      ensures verdict(ev, UndatedJob(j), UndatedAll(all)) == verdict(ev, j, all)
    {
      UsualIsPossible(ev, j, all, lib);
      UndatedEnv(ev, j, all);
    }
  }

  // ---------------------------------------------------------------- job keys and their spellings

  predicate HasJob(all: seq<JobRecord>, key: string) {
    exists i :: 0 <= i < |all| && all[i].intent.jobKey == key
  }

  /** A spelling that is no job's key matches one job key at most, but for case. */
  ghost predicate KeysClear(all: seq<JobRecord>) {
    forall key, a, b :: !HasJob(all, key) && HasJob(all, a) && HasJob(all, b) && EqualFold(a, key) && EqualFold(b, key) ==> a == b
  }

  /** Or the jobs it matches ended alike. */
  ghost predicate ResultsClear(all: seq<JobRecord>) {
    forall key, i, k :: !HasJob(all, key) && Matches(all, key, i) && Matches(all, key, k) ==>
      ResultName(all[i].status) == ResultName(all[k].status)
  }

  /** i is the last record of a key equal to this one but for case. */
  predicate Matches(all: seq<JobRecord>, key: string, i: int) {
    0 <= i < |all| && IsLast(all, all[i].intent.jobKey, i) && EqualFold(all[i].intent.jobKey, key)
  }

  lemma {:induction false} LastOf(all: seq<JobRecord>, key: string)
    ensures HasJob(all, key) <==> exists i :: IsLast(all, key, i)
  {
    if HasJob(all, key) {
      var n := |all| - 1;
      if all[n].intent.jobKey == key {
        assert IsLast(all, key, n);
      } else {
        assert HasJob(all[..n], key) by {
          var i :| 0 <= i < |all| && all[i].intent.jobKey == key;
          assert all[..n][i].intent.jobKey == key;
        }
        LastOf(all[..n], key);
        var i :| IsLast(all[..n], key, i);
        assert IsLast(all, key, i);
      }
    }
  }

  /** The needs context has the keys of the listed jobs, each with its last result. */
  lemma NeedsHolds(all: seq<JobRecord>, key: string)
    ensures key in NeedsMap(all) <==> HasJob(all, key)
    ensures forall i :: IsLast(all, key, i) ==> key in NeedsMap(all) && NeedsMap(all)[key] == ResultObject(all[i].status)
  {
    NeedsLastWins(all, key);
    LastOf(all, key);
  }

  lemma ResultsDiffer(a: JobStatus, b: JobStatus)
    ensures ResultObject(a) == ResultObject(b) <==> ResultName(a) == ResultName(b)
  {
    assert ResultObject(a).fields["result"] == VString(ResultName(a));
    assert ResultObject(b).fields["result"] == VString(ResultName(b));
  }

  lemma ClearIsSteady(all: seq<JobRecord>)
    requires ResultsClear(all)
    ensures SteadyMap(NeedsMap(all))
  {
    var m := NeedsMap(all);
    forall key, a, b | IsVariant(m, key, a) && IsVariant(m, key, b) && key !in m
      ensures m[a] == m[b]
    {
      NeedsHolds(all, key);
      NeedsHolds(all, a);
      NeedsHolds(all, b);
      LastOf(all, a);
      LastOf(all, b);
      var i :| IsLast(all, a, i);
      var k :| IsLast(all, b, k);
      assert Matches(all, key, i) && Matches(all, key, k);
    }
  }

  lemma SteadyIsClear(all: seq<JobRecord>)
    requires SteadyMap(NeedsMap(all))
    ensures ResultsClear(all)
  {
    var m := NeedsMap(all);
    forall key, i, k | !HasJob(all, key) && Matches(all, key, i) && Matches(all, key, k)
      ensures ResultName(all[i].status) == ResultName(all[k].status)
    {
      var a, b := all[i].intent.jobKey, all[k].intent.jobKey;
      NeedsHolds(all, key);
      NeedsHolds(all, a);
      NeedsHolds(all, b);
      assert IsVariant(m, key, a) && IsVariant(m, key, b);
      ResultsDiffer(all[i].status, all[k].status);
    }
  }

  lemma KeysAreEnough(all: seq<JobRecord>)
    requires KeysClear(all)
    ensures ResultsClear(all)
  {
    forall key, i, k | !HasJob(all, key) && Matches(all, key, i) && Matches(all, key, k)
      ensures ResultName(all[i].status) == ResultName(all[k].status)
    {
      var a, b := all[i].intent.jobKey, all[k].intent.jobKey;
      assert HasJob(all, a) && HasJob(all, b);
    }
  }

  ghost predicate LowerKeys(m: map<string, Value>) {
    forall k :: k in m ==> Txt.Lower(k) == k
  }

  lemma LowerIsSteady(m: map<string, Value>)
    requires LowerKeys(m)
    ensures SteadyMap(m)
  {}

  lemma GithubSteady(ev: Event)
    ensures Steady(GithubContext(ev))
  {
    var m := GithubContext(ev).fields;
    RepositorySteady(ev);
    assert Txt.Lower("event_name") == "event_name" && Txt.Lower("ref") == "ref" && Txt.Lower("sha") == "sha"
      && Txt.Lower("actor") == "actor" && Txt.Lower("repository") == "repository";
    LowerIsSteady(m);
  }

  lemma RepositorySteady(ev: Event)
    ensures Steady(GithubContext(ev).fields["repository"])
  {
    var m := GithubContext(ev).fields["repository"].fields;
    assert Txt.Lower("owner") == "owner" && Txt.Lower("name") == "name" && Txt.Lower("full_name") == "full_name";
    LowerIsSteady(m);
  }

  lemma OneKeySteady(k: string, v: string)
    ensures Steady(VObject(map[k := VString(v)]))
  {}

  lemma {:induction false} NeedsItems(all: seq<JobRecord>)
    ensures forall k :: k in NeedsMap(all) ==> Steady(NeedsMap(all)[k])
  {
    if all != [] {
      NeedsItems(all[..|all| - 1]);
      OneKeySteady("result", ResultName(all[|all| - 1].status));
    }
  }

  lemma EnvContexts(ev: Event, needs: map<string, Value>, status: string)
    ensures var c := EnvOf(ev, needs, status).contexts;
            && c.Keys == {"github", "needs", "job", STATUS}
            && c["github"] == GithubContext(ev) && c["needs"] == VObject(needs)
            && c["job"] == VObject(map["status" := VString(status)]) && c[STATUS] == VString(status)
  {
    assert Txt.Lower("github") == "github" && Txt.Lower("needs") == "needs" && Txt.Lower("job") == "job" && Txt.Lower(STATUS) == STATUS;
  }

  /** The contexts of a condition are steady exactly when no spelling matches two
      jobs that ended differently. */
  lemma SteadyIff(ev: Event, j: JobRecord, all: seq<JobRecord>)
    ensures SteadyEnv(ConditionEnv(ev, j, all)) <==> ResultsClear(all)
  {
    var env := ConditionEnv(ev, j, all);
    var status := StatusFor(j.intent.dependsOn, all);
    EnvContexts(ev, NeedsMap(all), status);
    if ResultsClear(all) {
      GithubSteady(ev);
      ClearIsSteady(all);
      NeedsItems(all);
      OneKeySteady("status", status);
    } else {
      NeedsUnsteady(env, all);
    }
  }

  lemma NeedsUnsteady(env: Env, all: seq<JobRecord>)
    requires !ResultsClear(all) && "needs" in env.contexts && env.contexts["needs"] == VObject(NeedsMap(all))
    ensures !SteadyEnv(env)
  {
    if SteadyMap(NeedsMap(all)) { SteadyIsClear(all); }
    NeedsNameable("needs");
  }

  lemma NeedsNameable(c: string)
    requires c == "needs"
    ensures Nameable(c)
  {
    assert Txt.Lower(c) == c;
  }

  /** So every expression a condition can be, but for fromJSON, has one outcome
      for a job exactly then. */
  lemma ConditionsOnceIff(ev: Event, j: JobRecord, all: seq<JobRecord>, lib: Library)
    requires ReadsIndexes(lib)
    ensures (forall n :: Plain(n, lib) ==> !Ambiguous(n, ConditionEnv(ev, j, all), lib)) <==> ResultsClear(all)
  {
    OneOutcomeIff(ConditionEnv(ev, j, all), lib);
    SteadyIff(ev, j, all);
  }

  /** Where the job keys are clear, the evaluator has one thing to say. */
  lemma SaysOnce(ev: Event, j: JobRecord, all: seq<JobRecord>, lib: Library, o: Option<bool>)
    requires ResultsClear(all) && ReadsSteadyJson(j.intent.condition, lib) && CanSay(ev, j, all, lib, o)
    ensures o == Usual(ev, j, all, lib)
  {
    var env := ConditionEnv(ev, j, all);
    var res :| CanAnswer(j.intent.condition, env, lib, res) && o == Said(res);
    SteadyIff(ev, j, all);
    AnswersOnce(j.intent.condition, env, lib, res);
  }

  // ---------------------------------------------------------------- the settled store

  /** The job keys of every run are clear, and no condition reads unsteady JSON. */
  ghost predicate Clear(s: S.Store, lib: Library) {
    && (forall r :: r in s.runs ==> KeysClear(Siblings(s, r)))
    && (forall id :: id in s.jobs ==> ReadsSteadyJson(s.jobs[id].intent.condition, lib))
  }

  ghost predicate SameIntents(a: seq<JobRecord>, b: seq<JobRecord>) {
    |a| == |b| && forall i :: 0 <= i < |a| ==> a[i].intent == b[i].intent
  }

  lemma SameJobs(a: seq<JobRecord>, b: seq<JobRecord>, key: string)
    requires SameIntents(a, b)
    ensures HasJob(a, key) <==> HasJob(b, key)
  {
    if HasJob(a, key) {
      var i :| 0 <= i < |a| && a[i].intent.jobKey == key;
      assert b[i].intent.jobKey == key;
    }
    if HasJob(b, key) {
      var i :| 0 <= i < |b| && b[i].intent.jobKey == key;
      assert a[i].intent.jobKey == key;
    }
  }

  lemma KeysStayClear(a: seq<JobRecord>, b: seq<JobRecord>)
    requires SameIntents(a, b) && KeysClear(a)
    ensures KeysClear(b)
  {
    forall key ensures HasJob(a, key) <==> HasJob(b, key) { SameJobs(a, b, key); }
  }

  function OneSucceeds(all: seq<JobRecord>, a: string): (r: seq<JobRecord>)
    ensures |r| == |all| && forall i :: 0 <= i < |all| ==>
              r[i] == all[i].(status := if all[i].intent.jobKey == a then JobSucceeded else JobFailed)
  {
    seq(|all|, i requires 0 <= i < |all| => all[i].(status := if all[i].intent.jobKey == a then JobSucceeded else JobFailed))
  }

  lemma Unclear(all: seq<JobRecord>, key: string, a: string, b: string)
    requires !HasJob(all, key) && HasJob(all, a) && HasJob(all, b) && EqualFold(a, key) && EqualFold(b, key) && a != b
    ensures !ResultsClear(OneSucceeds(all, a))
  {
    var others := OneSucceeds(all, a);
    SameJobs(all, others, key);
    SameJobs(all, others, a);
    SameJobs(all, others, b);
    LastOf(others, a);
    LastOf(others, b);
    var i :| IsLast(others, a, i);
    var k :| IsLast(others, b, k);
    assert Matches(others, key, i) && Matches(others, key, k);
  }

  /** Clear keys are exactly those that stay clear however the jobs end. */
  lemma KeysClearIff(all: seq<JobRecord>)
    ensures KeysClear(all) <==> forall others :: SameIntents(all, others) ==> ResultsClear(others)
  {
    if KeysClear(all) {
      forall others | SameIntents(all, others)
        ensures ResultsClear(others)
      {
        KeysStayClear(all, others);
        KeysAreEnough(others);
      }
    } else {
      var key, a, b :| !HasJob(all, key) && HasJob(all, a) && HasJob(all, b) && EqualFold(a, key) && EqualFold(b, key) && a != b;
      Unclear(all, key, a, b);
      assert SameIntents(all, OneSucceeds(all, a));
    }
  }

  /** Same runs, same lists, same intents. */
  ghost predicate SameWork(s: S.Store, t: S.Store) {
    && t.runs.Keys == s.runs.Keys && t.runJobs == s.runJobs && t.jobs.Keys == s.jobs.Keys
    && forall id :: id in s.jobs ==> t.jobs[id].intent == s.jobs[id].intent
  }

  lemma StaysClear(s: S.Store, t: S.Store, lib: Library)
    requires Clear(s, lib) && SameWork(s, t)
    ensures Clear(t, lib)
  {
    forall r | r in t.runs
      ensures KeysClear(Siblings(t, r))
    {
      KeysStayClear(Siblings(s, r), Siblings(t, r));
    }
  }

  lemma SweepSameWork(s: S.Store, verdict: Verdict, now: Time)
    ensures SameWork(s, Sweep(s, verdict, now))
  {}

  lemma ClearAgrees(s: S.Store, v: Verdict, w: Verdict, lib: Library)
    requires Clear(s, lib) && Possible(v, lib) && Possible(w, lib)
    ensures AgreeOn(s, v, w)
  {
    forall id | id in s.jobs && s.jobs[id].runId in s.runs
      ensures AgreeAt(s, id, v, w)
    {
      var j := s.jobs[id];
      var ev, all := s.runs[j.runId].event, Siblings(s, j.runId);
      KeysAreEnough(all);
      SaysOnce(ev, j, all, lib, v(ev, j, all));
      SaysOnce(ev, j, all, lib, w(ev, j, all));
    }
  }

  /** Where job keys are clear, the conditions settle in one store, whatever the
      evaluator's searches meet first in each pass. */
  lemma {:induction false} SettlesOnce(s: S.Store, v: Verdicts, w: Verdicts, p: nat, q: nat, lib: Library, now: Time)
    requires I.Valid(s) && Clear(s, lib) && AllPossible(v, lib) && AllPossible(w, lib)
    ensures Settle(s, v, p, now) == Settle(s, w, q, now)
    decreases |QueuedIds(s.jobs)|
  {
    ClearAgrees(s, v(p), w(q), lib);
    AgreeDecisions(s, v(p), w(q));
    if Decided(s, v(p)) != {} {
      AgreeSweeps(s, v(p), w(q), now);
      var t := Sweep(s, v(p), now);
      AfterKeeps(s, Decided(s, v(p)), v(p), now);
      SweepShrinks(s, v(p), now);
      SweepSameWork(s, v(p), now);
      StaysClear(s, t, lib);
      SettlesOnce(t, v, w, p + 1, q + 1, lib, now);
    }
  }

  lemma UndatedClear(s: S.Store, lib: Library)
    requires Clear(s, lib)
    ensures Clear(UndatedStore(s), lib)
  {
    StaysClear(s, UndatedStore(s), lib);
  }

  /** So it is up to times: whatever the clock shows and whatever the searches
      meet first, the server's loop ends in one store. */
  lemma SettlesOnceUndated(s: S.Store, v: Verdicts, w: Verdicts, lib: Library)
    requires I.Valid(s) && Clear(s, lib) && AllPossible(v, lib) && AllPossible(w, lib)
    ensures I.Valid(UndatedStore(s)) && Settle(UndatedStore(s), v, 0, 0) == Settle(UndatedStore(s), w, 0, 0)
  {
    UndatedValid(s);
    UndatedClear(s, lib);
    SettlesOnce(UndatedStore(s), v, w, 0, 0, lib, 0);
  }

  /** The question about job id of this store, times aside. */
  predicate Asks(s: S.Store, id: JobRunID, ev: Event, j: JobRecord, all: seq<JobRecord>) {
    && id in s.jobs && s.jobs[id].runId in s.runs && ev == s.runs[s.jobs[id].runId].event
    && UndatedJob(j) == UndatedJob(s.jobs[id]) && UndatedAll(all) == UndatedAll(Siblings(s, s.jobs[id].runId))
  }

  function Twin(s: S.Store, v: Verdict, ev: Event, j: JobRecord, all: seq<JobRecord>): Option<bool> {
    if Asks(s, j.id, ev, j, all) then v(ev, s.jobs[j.id], Siblings(s, s.jobs[j.id].runId)) else v(ev, UndatedJob(j), UndatedAll(all))
  }

  lemma UndatedTwice(j: JobRecord, all: seq<JobRecord>)
    ensures UndatedJob(UndatedJob(j)) == UndatedJob(j) && UndatedAll(UndatedAll(all)) == UndatedAll(all)
  {}

  lemma TwinTimeless(s: S.Store, v: Verdict, ev: Event, j: JobRecord, all: seq<JobRecord>)
    ensures Twin(s, v, ev, UndatedJob(j), UndatedAll(all)) == Twin(s, v, ev, j, all)
  {
    UndatedTwice(j, all);
  }

  lemma SaysUndated(ev: Event, j: JobRecord, all: seq<JobRecord>, j': JobRecord, all': seq<JobRecord>, lib: Library, o: Option<bool>)
    requires CanSay(ev, j, all, lib, o) && UndatedJob(j) == UndatedJob(j') && UndatedAll(all) == UndatedAll(all')
    ensures CanSay(ev, j', all', lib, o)
  {
    UndatedEnv(ev, j, all);
    UndatedEnv(ev, j', all');
    assert j.intent == UndatedJob(j).intent == j'.intent;
  }

  lemma TwinPossible(s: S.Store, v: Verdict, ev: Event, j: JobRecord, all: seq<JobRecord>, lib: Library)
    requires Possible(v, lib)
    ensures CanSay(ev, j, all, lib, Twin(s, v, ev, j, all))
  {
    if Asks(s, j.id, ev, j, all) {
      var k := s.jobs[j.id];
      var ks := Siblings(s, k.runId);
      SaysUndated(ev, k, ks, j, all, lib, v(ev, k, ks));
    } else {
      UndatedTwice(j, all);
      SaysUndated(ev, UndatedJob(j), UndatedAll(all), j, all, lib, v(ev, UndatedJob(j), UndatedAll(all)));
    }
  }

  ghost predicate IsTwin(s: S.Store, v: Verdict, w: Verdict) {
    forall ev, j, all {:trigger w(ev, j, all)} :: w(ev, j, all) == Twin(s, v, ev, j, all)
  }

  lemma TwinsPossible(s: S.Store, v: Verdict, w: Verdict, lib: Library)
    requires IsTwin(s, v, w) && Possible(v, lib)
    ensures Possible(w, lib)
  {
    forall ev, j, all
      ensures CanSay(ev, j, all, lib, w(ev, j, all))
    {
      TwinPossible(s, v, ev, j, all, lib);
    }
  }

  lemma TwinsTimeless(s: S.Store, v: Verdict, w: Verdict)
    requires IsTwin(s, v, w)
    ensures Timeless(w)
  {
    forall ev, j, all
      ensures w(ev, UndatedJob(j), UndatedAll(all)) == w(ev, j, all)
    {
      assert w(ev, UndatedJob(j), UndatedAll(all)) == Twin(s, v, ev, UndatedJob(j), UndatedAll(all));
      TwinTimeless(s, v, ev, j, all);
    }
  }

  lemma TwinsAgree(s: S.Store, v: Verdict, w: Verdict)
    requires I.Valid(s) && IsTwin(s, v, w)
    ensures AgreeOn(s, v, w)
  {
    forall id | id in s.jobs && s.jobs[id].runId in s.runs
      ensures AgreeAt(s, id, v, w)
    {
      assert I.JobOk(s.runs.Keys, s.runJobs, s.jobs, id);
    }
  }

  /** Whatever an evaluator says in one pass, one that reads no times says it too. */
  lemma TimelessTwin(s: S.Store, v: Verdict, lib: Library) returns (w: Verdict)
    requires I.Valid(s) && Possible(v, lib)
    ensures Possible(w, lib) && Timeless(w) && AgreeOn(s, v, w)
  {
    w := (ev: Event, j: JobRecord, all: seq<JobRecord>) => Twin(s, v, ev, j, all);
    assert IsTwin(s, v, w);
    TwinsPossible(s, v, w, lib);
    TwinsTimeless(s, v, w);
    TwinsAgree(s, v, w);
  }

  /** Once settled, a job still queued under a deferred condition waits for a
      need, or its condition can come out true as things stand; where job keys
      are clear, it is true. */
  lemma SettledConditions(t: S.Store, id: JobRunID, verdicts: Verdicts, lib: Library)
    requires SettledFor(t, verdicts) && AllPossible(verdicts, lib)
    requires id in t.jobs && t.jobs[id].status.JobQueued? && t.jobs[id].runId in t.runs
    requires t.jobs[id].intent.condition != "" && IsDeferred(t.jobs[id].intent.condition)
    ensures var j := t.jobs[id];
            var ev, all := t.runs[j.runId].event, Siblings(t, j.runId);
            || !NeedsEnded(j.intent.dependsOn, all)
            || (&& CanAnswer(j.intent.condition, ConditionEnv(ev, j, all), lib, Ok(true))
                && (ResultsClear(all) && ReadsSteadyJson(j.intent.condition, lib) ==>
                      EvaluateCondition(j.intent.condition, ConditionEnv(ev, j, all), lib) == Ok(true)))
  {
    var p: nat :| Decided(t, verdicts(p)) == {};
    var j := t.jobs[id];
    var ev, all := t.runs[j.runId].event, Siblings(t, j.runId);
    SettledMeaning(t, id, verdicts(p));
    if NeedsEnded(j.intent.dependsOn, all) {
      assert CanSay(ev, j, all, lib, verdicts(p)(ev, j, all));
      if ResultsClear(all) && ReadsSteadyJson(j.intent.condition, lib) { SaysOnce(ev, j, all, lib, Some(true)); }
    }
  }

  /** For the plain condition success(), spelled in any way: a job the settled
      store still queues, all of whose needs have ended, has no failed or
      cancelled attempt among them. */
  lemma SettledSuccess(t: S.Store, id: JobRunID, verdict: Verdict, lib: Library)
    requires Decided(t, verdict) == {} && Possible(verdict, lib)
    requires id in t.jobs && t.jobs[id].status.JobQueued? && t.jobs[id].runId in t.runs
    requires PlainCall(t.jobs[id].intent.condition, "success", lib)
    requires NeedsEnded(t.jobs[id].intent.dependsOn, Siblings(t, t.jobs[id].runId))
    ensures var needs, all := t.jobs[id].intent.dependsOn, Siblings(t, t.jobs[id].runId);
            forall d, i :: 0 <= d < |needs| && 0 <= i < |all| ==> !Bad(all[i], needs[d])
  {
    var j := t.jobs[id];
    var ev, all := t.runs[j.runId].event, Siblings(t, j.runId);
    SettledMeaning(t, id, verdict);
    StatusSays(ev, j, all, lib, verdict(ev, j, all), "success");
    StatusSuccessIff(j.intent.dependsOn, all);
  }

  // ---------------------------------------------------------------- plain status functions

  predicate StatusName(fn: string) { fn == "success" || fn == "failure" || fn == "cancelled" }

  /** A deferred condition that is just a call of this function, in any spelling. */
  ghost predicate PlainCall(cond: string, fn: string, lib: Library) {
    && cond != "" && IsDeferred(cond) && !Txt.Contains(Txt.Trim(cond), "${{")
    && exists name :: Txt.Lower(name) == fn && Parse(Txt.Trim(cond), FloatsOf(lib)) == Ok(Call(name, []))
  }

  /** Such a condition searches nothing, so there is one thing to say. */
  lemma StatusSays(ev: Event, j: JobRecord, all: seq<JobRecord>, lib: Library, o: Option<bool>, fn: string)
    requires StatusName(fn) && PlainCall(j.intent.condition, fn, lib) && CanSay(ev, j, all, lib, o)
    ensures o == Some(StatusFor(j.intent.dependsOn, all) == fn)
  {
    var env := ConditionEnv(ev, j, all);
    var cond := Txt.Trim(j.intent.condition);
    var res :| CanAnswer(j.intent.condition, env, lib, res) && o == Said(res);
    DeferredNotBlank(j.intent.condition);
    DeferredNeverRewritten(j.intent.condition);
    CallDecides(cond, fn, env, lib, res);
    StatusSeen(ev, j, all);
  }

  lemma CallDecides(cond: string, fn: string, env: Env, lib: Library, res: Answer)
    requires StatusName(fn) && CanDecide(cond, env, lib, res)
    requires exists name :: Txt.Lower(name) == fn && Parse(cond, FloatsOf(lib)) == Ok(Call(name, []))
    ensures res == Ok(Evaluation.JobStatus(env) == fn)
  {
    var name :| Txt.Lower(name) == fn && Parse(cond, FloatsOf(lib)) == Ok(Call(name, []));
    var o :| CanEvalText(cond, env, lib, o) && res == Decision(o);
    CallEnds(name, fn, env, lib, o);
  }

  lemma CallEnds(name: string, fn: string, env: Env, lib: Library, o: Outcome)
    requires StatusName(fn) && Txt.Lower(name) == fn && Evals(Call(name, []), env, lib, o)
    ensures o == Ok(VBool(Evaluation.JobStatus(env) == fn))
  {
    var vs :| EvalsArgs([], env, lib, vs) && o == Called(name, env, vs, lib);
  }
}
