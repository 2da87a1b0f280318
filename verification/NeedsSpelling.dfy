/** A run whose jobs' keys differ in case only: the store its deferred conditions
    settle in depends on which key a search meets first. */
module NeedsSpelling {
  import opened Prelude
  import Txt = Text
  import opened RunModel
  import opened StoreSpec
  import opened StoreInvariants
  import opened StoreHistory
  import opened StoreWitness
  import opened Deferral
  import opened Undated
  import L = Lexing
  import P = Parsing
  import E = Evaluation
  import C = Conditions
  import K = Lookups
  import O = ConditionOutcomes
  import opened JobConditions
  import N = NeedsCompared

  /** needs.KEY.result == 'success' */
  function Asks(key: string): P.Node {
    P.Binary(P.Eq, Reads(key), P.Text("success"))
  }

  function Reads(key: string): P.Node {
    P.Member(P.Member(P.Name("needs"), P.Text(key)), P.Text("result"))
  }

  /** A deferred condition that is just this. */
  ghost predicate AsksFor(cond: string, key: string, lib: E.Library) {
    && cond != "" && IsDeferred(cond) && !Txt.Contains(Txt.Trim(cond), "${{")
    && P.Parse(Txt.Trim(cond), E.FloatsOf(lib)) == Ok(Asks(key))
  }

  // ---------------------------------------------------------------- two answers

  lemma ReadsResult(env: E.Env, needs: map<string, E.Value>, key: string, st: JobStatus, lib: E.Library)
    requires "needs" in env.contexts && env.contexts["needs"] == E.VObject(needs) && K.CanFind(needs, key, ResultObject(st))
    ensures K.Evals(Reads(key), env, lib, Ok(E.VString(ResultName(st))))
  {
    var n, m, f := "needs", map["result" := E.VString(ResultName(st))], "result";
    assert Txt.Lower(n) == n;
    assert K.Evals(P.Name(n), env, lib, Ok(E.VObject(needs)));
    K.ReadsKey(P.Name(n), key, needs, ResultObject(st), env, lib);
    K.ReadsKey(P.Member(P.Name(n), P.Text(key)), f, m, m[f], env, lib);
  }

  lemma Compares(l: P.Node, a: string, b: string, env: E.Env, lib: E.Library)
    requires K.Evals(l, env, lib, Ok(E.VString(a)))
    ensures K.Evals(P.Binary(P.Eq, l, P.Text(b)), env, lib, Ok(E.VBool(E.EqualFold(a, b))))
  {
    var p: E.Outcome := Ok(E.VString(b));
    assert K.Evals(P.Text(b), env, lib, p);
    assert K.Combined(P.Eq, E.VString(a), p, lib) == Ok(E.VBool(E.EqualFold(a, b)));
    assert K.OperandEnds(P.Eq, P.Text(b), env, lib, Ok(E.VString(a)), Ok(E.VBool(E.EqualFold(a, b))));
  }

  lemma ResultIsSuccess(st: JobStatus)
    requires st.IsTerminal()
    ensures E.EqualFold(ResultName(st), "success") <==> st.JobSucceeded?
  {
    var a := Txt.Lower("success");
    assert |a| == 7 && |Txt.Lower("cancelled")| == 9;
    assert a[0] == 's' && a[1] == 'u';
    assert Txt.Lower("failure")[0] == 'f' && Txt.Lower("skipped")[1] == 'k';
  }

  /** The condition can find the result of every job whose key matches. */
  lemma CanSayOf(ev: Event, j: JobRecord, all: seq<JobRecord>, key: string, i: int, lib: E.Library)
    requires AsksFor(j.intent.condition, key, lib) && !HasJob(all, key) && Matches(all, key, i) && all[i].status.IsTerminal()
    ensures CanSay(ev, j, all, lib, Some(all[i].status.JobSucceeded?))
  {
    var env, needs, a := ConditionEnv(ev, j, all), NeedsMap(all), all[i].intent.jobKey;
    var cond := Txt.Trim(j.intent.condition);
    EnvContexts(ev, needs, StatusFor(j.intent.dependsOn, all));
    NeedsHolds(all, key);
    NeedsHolds(all, a);
    assert K.IsVariant(needs, key, a) && K.CanFind(needs, key, ResultObject(all[i].status));
    ReadsResult(env, needs, key, all[i].status, lib);
    Compares(Reads(key), ResultName(all[i].status), "success", env, lib);
    ResultIsSuccess(all[i].status);
    AnswersWith(j.intent.condition, Asks(key), E.VBool(all[i].status.JobSucceeded?), env, lib);
  }

  lemma AnswersWith(raw: string, n: P.Node, v: E.Value, env: E.Env, lib: E.Library)
    requires IsDeferred(raw) && !Txt.Contains(Txt.Trim(raw), "${{") && P.Parse(Txt.Trim(raw), E.FloatsOf(lib)) == Ok(n)
    requires K.Evals(n, env, lib, Ok(v))
    ensures O.CanAnswer(raw, env, lib, Ok(E.Truthy(v)))
  {
    DeferredNotBlank(raw);
    DeferredNeverRewritten(raw);
    assert O.CanEvalText(Txt.Trim(raw), env, lib, Ok(v));
    assert O.Decision(Ok(v)) == Ok(E.Truthy(v));
  }

  // ---------------------------------------------------------------- evaluators with a leaning

  ghost function Leaning(ev: Event, j: JobRecord, all: seq<JobRecord>, lib: E.Library, b: bool): Option<bool> {
    if CanSay(ev, j, all, lib, Some(b)) then Some(b) else Usual(ev, j, all, lib)
  }

  ghost predicate LeansTo(v: Verdict, lib: E.Library, b: bool) {
    forall ev, j, all {:trigger v(ev, j, all)} :: v(ev, j, all) == Leaning(ev, j, all, lib, b)
  }

  lemma LeaningPossible(v: Verdict, lib: E.Library, b: bool)
    requires LeansTo(v, lib, b)
    ensures Possible(v, lib)
  {
    forall ev, j, all
      ensures CanSay(ev, j, all, lib, v(ev, j, all))
    {
      UsualIsPossible(ev, j, all, lib);
    }
  }

  lemma LeaningTimeless(v: Verdict, lib: E.Library, b: bool)
    requires LeansTo(v, lib, b)
    ensures Timeless(v)
  {
    forall ev, j, all
      ensures v(ev, UndatedJob(j), UndatedAll(all)) == v(ev, j, all)
    {
      UndatedEnv(ev, j, all);
      assert v(ev, UndatedJob(j), UndatedAll(all)) == Leaning(ev, UndatedJob(j), UndatedAll(all), lib, b);
    }
  }

  lemma Leans(lib: E.Library, b: bool) returns (vs: Verdicts)
    ensures AllPossible(vs, lib) && (forall p: nat :: Timeless(vs(p))) && LeansTo(vs(0), lib, b)
  {
    var v: Verdict := (ev: Event, j: JobRecord, all: seq<JobRecord>) => Leaning(ev, j, all, lib, b);
    assert LeansTo(v, lib, b);
    LeaningPossible(v, lib, b);
    LeaningTimeless(v, lib, b);
    vs := (p: nat) => v;
  }

  // ---------------------------------------------------------------- the run

  /** A run of three jobs in these statuses, and no other job. */
  ghost predicate ThreeJobs(t: Store, r: RunID, intents: seq<JobIntent>, ids: seq<JobRunID>, sts: seq<JobStatus>) {
    && |intents| == |ids| == |sts| == 3 && DistinctIds(ids)
    && r in t.runs && Listed(t.runJobs, r) == ids && t.jobs.Keys == {ids[0], ids[1], ids[2]} && t.claimed == {}
    && forall i :: 0 <= i < 3 ==> t.jobs[ids[i]].runId == r && t.jobs[ids[i]].intent == intents[i] && t.jobs[ids[i]].status == sts[i]
  }

  lemma ThreeBegin(r: RunID, intents: seq<JobIntent>, ids: seq<JobRunID>) returns (ops: seq<Op>, t: Store)
    requires |intents| == |ids| == 3 && DistinctKeys(intents) && DistinctIds(ids)
    ensures From(ops, t) && ThreeJobs(t, r, intents, ids, [JobQueued, JobQueued, JobQueued])
  {
    ops, t := Begins(r, intents, ids);
    ThreeAreAll(t, r, intents, ids);
  }

  lemma ThreeAreAll(t: Store, r: RunID, intents: seq<JobIntent>, ids: seq<JobRunID>)
    requires |intents| == |ids| == 3 && DistinctIds(ids) && OneRun(t, r, intents, ids) && forall id :: id in t.jobs ==> id in ids
    ensures ThreeJobs(t, r, intents, ids, [JobQueued, JobQueued, JobQueued])
  {
    OneRunAt(t, r, intents, ids, 0);
    OneRunAt(t, r, intents, ids, 1);
    OneRunAt(t, r, intents, ids, 2);
  }

  lemma ThreeObserve(before: seq<Op>, s: Store, r: RunID, intents: seq<JobIntent>, ids: seq<JobRunID>, sts: seq<JobStatus>,
                     i: nat, phase: Phase, st: JobStatus) returns (ops: seq<Op>, t: Store)
    requires From(before, s) && ThreeJobs(s, r, intents, ids, sts) && i < 3 && sts[i] == JobQueued
    requires (phase.PhaseSucceeded? && st == JobSucceeded) || (phase.PhaseFailed? && st == JobFailed) || (phase.PhaseRunning? && st == JobRunning)
    ensures From(ops, t) && ThreeJobs(t, r, intents, ids, sts[i := st])
  {
    assert ids[i] in s.jobs;
    ops, t := Observes(before, s, ids[i], phase);
    ThreeMoved(s, t, r, intents, ids, sts, i, st);
  }

  lemma ThreeMoved(s: Store, t: Store, r: RunID, intents: seq<JobIntent>, ids: seq<JobRunID>, sts: seq<JobStatus>, i: nat, st: JobStatus)
    requires ThreeJobs(s, r, intents, ids, sts) && i < 3 && OnlyJob(s, t, ids[i], Observed(s.jobs[ids[i]], st, 2))
    ensures ThreeJobs(t, r, intents, ids, sts[i := st])
  {}

  lemma ThreeRecords(t: Store, r: RunID, intents: seq<JobIntent>, ids: seq<JobRunID>, sts: seq<JobStatus>)
    requires ThreeJobs(t, r, intents, ids, sts)
    ensures var all := Siblings(t, r);
            |all| == 3 && forall i :: 0 <= i < 3 ==> all[i] == t.jobs[ids[i]]
  {}

  /** Two jobs whose keys match the asked one but for case, ended differently;
      the third job asks. */
  lemma BothSaid(t: Store, r: RunID, intents: seq<JobIntent>, ids: seq<JobRunID>, sts: seq<JobStatus>, key: string, lib: E.Library)
    requires ThreeJobs(t, r, intents, ids, sts) && sts == Ended && DistinctKeys(intents)
    requires E.EqualFold(intents[0].jobKey, key) && E.EqualFold(intents[1].jobKey, key)
    requires forall i :: 0 <= i < 3 ==> intents[i].jobKey != key
    requires AsksFor(intents[2].condition, key, lib)
    ensures forall b :: CanSay(t.runs[r].event, t.jobs[ids[2]], Siblings(t, r), lib, Some(b))
  {
    ThreeRecords(t, r, intents, ids, sts);
    var ev, j, all := t.runs[r].event, t.jobs[ids[2]], Siblings(t, r);
    assert IsLast(all, all[0].intent.jobKey, 0) && IsLast(all, all[1].intent.jobKey, 1);
    CanSayOf(ev, j, all, key, 0, lib);
    CanSayOf(ev, j, all, key, 1, lib);
  }

  lemma AskerDecision(t: Store, r: RunID, intents: seq<JobIntent>, ids: seq<JobRunID>, sts: seq<JobStatus>, v: Verdict, b: bool)
    requires ThreeJobs(t, r, intents, ids, sts) && sts == Ended && DistinctKeys(intents)
    requires intents[2].condition != "" && IsDeferred(intents[2].condition) && intents[2].dependsOn == [intents[0].jobKey]
    requires v(t.runs[r].event, t.jobs[ids[2]], Siblings(t, r)) == Some(b)
    ensures DecisionOf(t, ids[2], v) == if b then None else Some(PhaseSkipped)
  {
    ThreeRecords(t, r, intents, ids, sts);
    var all := Siblings(t, r);
    assert NeedsEnded(intents[2].dependsOn, all);
  }

  lemma NobodyDecided(t: Store, r: RunID, intents: seq<JobIntent>, ids: seq<JobRunID>, sts: seq<JobStatus>, v: Verdict)
    requires ThreeJobs(t, r, intents, ids, sts) && sts == Ended && DecisionOf(t, ids[2], v).None?
    ensures Decided(t, v) == {}
  {
    assert t.jobs[ids[0]].status == sts[0] && t.jobs[ids[1]].status == sts[1];
  }

  /** A reachable run that two possible evaluators settle differently: one leaves
      the third job queued, the other skips it. */
  lemma TwoSettledStores(cond: string, lib: E.Library, now: Time)
    returns (ops: seq<Op>, t: Store, v: Verdicts, w: Verdicts, id: JobRunID)
    requires AsksFor(cond, "Build", lib)
    ensures From(ops, t) && Valid(t) && AllPossible(v, lib) && AllPossible(w, lib)
    ensures forall p: nat :: Timeless(v(p)) && Timeless(w(p))
    ensures id in t.jobs && t.jobs[id].intent.condition == cond && t.jobs[id].status.JobQueued? && Settle(t, v, 0, now) == t
    ensures id in Settle(t, w, 0, now).jobs && Settle(t, w, 0, now).jobs[id].status.JobSkipped?
  {
    var a, b, key, c := "build", "BUILD", "Build", "test";
    Spelled(a, b, key);
    ops, t, v, w, id := SpelledTwice(a, b, key, c, ["A", "B", "C"], cond, lib, now);
  }

  lemma SpelledTwice(a: string, b: string, key: string, c: string, ids: seq<JobRunID>, cond: string, lib: E.Library, now: Time)
    returns (ops: seq<Op>, t: Store, v: Verdicts, w: Verdicts, id: JobRunID)
    requires E.EqualFold(a, key) && E.EqualFold(b, key) && key !in [a, b, c] && a != b && a != c && b != c
    requires AsksFor(cond, key, lib) && |ids| == 3 && DistinctIds(ids)
    ensures From(ops, t) && Valid(t) && AllPossible(v, lib) && AllPossible(w, lib)
    ensures forall p: nat :: Timeless(v(p)) && Timeless(w(p))
    ensures id in t.jobs && t.jobs[id].intent.condition == cond && t.jobs[id].status.JobQueued? && Settle(t, v, 0, now) == t
    ensures id in Settle(t, w, 0, now).jobs && Settle(t, w, 0, now).jobs[id].status.JobSkipped?
  {
    ops, t := ThreeEnd("R", a, b, c, cond, ids);
    FromValid(ops, t);
    v, w := Asked(t, "R", a, b, c, cond, ids, key, lib, now);
    id := ids[2];
    ThreeAt(t, "R", ThreeIntents(a, b, c, cond), ids, Ended, 2);
  }

  const Ended := [JobSucceeded, JobFailed, JobQueued]

  lemma ThreeAt(t: Store, r: RunID, intents: seq<JobIntent>, ids: seq<JobRunID>, sts: seq<JobStatus>, i: nat)
    requires ThreeJobs(t, r, intents, ids, sts) && i < 3
    ensures ids[i] in t.jobs && t.jobs[ids[i]].intent == intents[i] && t.jobs[ids[i]].status == sts[i]
  {}

  lemma Asked(t: Store, r: RunID, a: string, b: string, c: string, cond: string, ids: seq<JobRunID>, key: string, lib: E.Library, now: Time)
    returns (v: Verdicts, w: Verdicts)
    requires Valid(t) && ThreeJobs(t, r, ThreeIntents(a, b, c, cond), ids, Ended) && a != b && a != c && b != c
    requires E.EqualFold(a, key) && E.EqualFold(b, key) && key !in [a, b, c] && AsksFor(cond, key, lib)
    ensures AllPossible(v, lib) && AllPossible(w, lib) && forall p: nat :: Timeless(v(p)) && Timeless(w(p))
    ensures Settle(t, v, 0, now) == t
    ensures var u := Settle(t, w, 0, now); ids[2] in u.jobs && u.jobs[ids[2]].status.JobSkipped?
  {
    var intents := ThreeIntents(a, b, c, cond);
    ThreeKeys(a, b, c, cond);
    BothSaid(t, r, intents, ids, Ended, key, lib);
    v, w := Parted(t, r, intents, ids, lib, now);
  }

  function ThreeIntents(a: string, b: string, c: string, cond: string): seq<JobIntent> {
    [JobIntent(a, "linux", [], map[], "", ""), JobIntent(b, "linux", [], map[], "", ""), JobIntent(c, "linux", [a], map[], "", cond)]
  }

  lemma ThreeKeys(a: string, b: string, c: string, cond: string)
    requires a != b && a != c && b != c
    ensures DistinctKeys(ThreeIntents(a, b, c, cond))
  {}

  lemma ThreeEnd(r: RunID, a: string, b: string, c: string, cond: string, ids: seq<JobRunID>) returns (ops: seq<Op>, t: Store)
    requires |ids| == 3 && DistinctIds(ids) && a != b && a != c && b != c
    ensures From(ops, t) && ThreeJobs(t, r, ThreeIntents(a, b, c, cond), ids, Ended)
  {
    var intents := ThreeIntents(a, b, c, cond);
    ThreeKeys(a, b, c, cond);
    var o1, s1 := ThreeBegin(r, intents, ids);
    ThreeStatuses();
    ops, t := ThreeObserved(o1, s1, r, intents, ids, [JobQueued, JobQueued, JobQueued]);
  }

  lemma ThreeObserved(before: seq<Op>, s: Store, r: RunID, intents: seq<JobIntent>, ids: seq<JobRunID>, sts: seq<JobStatus>)
    returns (ops: seq<Op>, t: Store)
    requires From(before, s) && ThreeJobs(s, r, intents, ids, sts) && sts[0] == sts[1] == JobQueued
    ensures From(ops, t) && ThreeJobs(t, r, intents, ids, sts[0 := JobSucceeded][1 := JobFailed])
  {
    var o, u := ThreeObserve(before, s, r, intents, ids, sts, 0, PhaseSucceeded, JobSucceeded);
    ops, t := ThreeObserve(o, u, r, intents, ids, sts[0 := JobSucceeded], 1, PhaseFailed, JobFailed);
  }

  lemma ThreeStatuses()
    ensures [JobQueued, JobQueued, JobQueued][0 := JobSucceeded][1 := JobFailed] == Ended
  {}

  lemma Spelled(a: string, b: string, key: string)
    requires a == "build" && b == "BUILD" && key == "Build"
    ensures E.EqualFold(a, key) && E.EqualFold(b, key) && a != b && a != key && b != key
    ensures a != "test" && b != "test" && key != "test"
  {
    assert Txt.Lower(a) == a && Txt.Lower(b) == a && Txt.Lower(key) == a;
  }

  lemma Parted(t: Store, r: RunID, intents: seq<JobIntent>, ids: seq<JobRunID>, lib: E.Library, now: Time)
    returns (v: Verdicts, w: Verdicts)
    requires Valid(t) && ThreeJobs(t, r, intents, ids, Ended) && DistinctKeys(intents)
    requires intents[2].condition != "" && IsDeferred(intents[2].condition) && intents[2].dependsOn == [intents[0].jobKey]
    requires forall b :: CanSay(t.runs[r].event, t.jobs[ids[2]], Siblings(t, r), lib, Some(b))
    ensures AllPossible(v, lib) && AllPossible(w, lib) && forall p: nat :: Timeless(v(p)) && Timeless(w(p))
    ensures Settle(t, v, 0, now) == t
    ensures var u := Settle(t, w, 0, now); ids[2] in u.jobs && u.jobs[ids[2]].status.JobSkipped?
  {
    v := Leans(lib, true);
    w := Leans(lib, false);
    AskerStays(t, r, intents, ids, v, lib, now);
    AskerSkipped(t, r, intents, ids, w, lib, now);
  }

  lemma AskerStays(t: Store, r: RunID, intents: seq<JobIntent>, ids: seq<JobRunID>, v: Verdicts, lib: E.Library, now: Time)
    requires Valid(t) && ThreeJobs(t, r, intents, ids, Ended) && DistinctKeys(intents)
    requires intents[2].condition != "" && IsDeferred(intents[2].condition) && intents[2].dependsOn == [intents[0].jobKey]
    requires CanSay(t.runs[r].event, t.jobs[ids[2]], Siblings(t, r), lib, Some(true)) && LeansTo(v(0), lib, true)
    ensures Settle(t, v, 0, now) == t
  {
    var sts := Ended;
    AskerDecision(t, r, intents, ids, sts, v(0), true);
    NobodyDecided(t, r, intents, ids, sts, v(0));
  }

  lemma AskerSkipped(t: Store, r: RunID, intents: seq<JobIntent>, ids: seq<JobRunID>, w: Verdicts, lib: E.Library, now: Time)
    requires Valid(t) && ThreeJobs(t, r, intents, ids, Ended) && DistinctKeys(intents)
    requires intents[2].condition != "" && IsDeferred(intents[2].condition) && intents[2].dependsOn == [intents[0].jobKey]
    requires CanSay(t.runs[r].event, t.jobs[ids[2]], Siblings(t, r), lib, Some(false)) && LeansTo(w(0), lib, false)
    ensures var u := Settle(t, w, 0, now); ids[2] in u.jobs && u.jobs[ids[2]].status.JobSkipped?
  {
    AskerDecision(t, r, intents, ids, Ended, w(0), false);
    N.DecidedEnds(t, ids[2], w, 0, now, PhaseSkipped, JobSkipped);
  }

  // ---------------------------------------------------------------- such a condition exists

  const ASKS := "needs.Build.result == 'success'"

  lemma AsksText(s: string, m: string)
    requires s == ASKS && m == "needs."
    ensures s != "" && IsDeferred(s) && Txt.Trim(s) == s && !Txt.Contains(s, "${{")
  {
    var low := Txt.Lower(s);
    assert low[0..0 + |m|] == m;
    assert Txt.OccursAt(low, m, 0);
    C.AbsentCharacter(s, "${{", 0);
  }

  lemma QuotedLexes(z: string, floats: L.Floats)
    requires '\'' !in z
    ensures L.Lex(['\''] + z + ['\''], floats) == Ok([L.Str(z)])
  {
    L.NoQuotes(z);
    assert L.TokenText(L.Str(z)) == ['\''] + z + ['\''];
    L.TokenLexes(L.Str(z), floats);
  }

  lemma ComparisonLexes(y: string, q: string, t: L.Token, floats: L.Floats)
    requires L.IsIdent(y) && L.Lex(q, floats) == Ok([t])
    ensures L.Lex(y + (" " + ("==" + (" " + q))), floats) == Ok([L.Ident(y)] + ([L.Punct("==")] + [t]))
  {
    L.BlankLexes(q, floats);
    C.Glue(L.Punct("=="), " " + q, floats);
    L.BlankLexes("==" + (" " + q), floats);
    C.Glue(L.Ident(y), " " + ("==" + (" " + q)), floats);
  }

  lemma DottedLexes(x: string, k: string, e: string, ts: P.Tokens, floats: L.Floats)
    requires L.IsIdent(x) && L.IsIdent(k) && L.Lex(e, floats) == Ok(ts)
    ensures L.Lex(x + ("." + (k + ("." + e))), floats) == Ok([L.Ident(x)] + ([L.Punct(".")] + ([L.Ident(k)] + ([L.Punct(".")] + ts))))
  {
    L.IdentDotLexes(k, e, floats);
    L.IdentDotLexes(x, k + ("." + e), floats);
  }

  lemma SevenTokens<T>(a: T, b: T, c: T, d: T, e: T, f: T, g: T)
    ensures [a] + ([b] + ([c] + ([d] + ([e] + ([f] + [g]))))) == [a, b, c, d, e, f, g]
  {}

  lemma AsksSpelled(s: string, x: string, k: string, y: string, z: string)
    requires s == ASKS && x == "needs" && k == "Build" && y == "result" && z == "success"
    ensures s == x + ("." + (k + ("." + (y + (" " + ("==" + (" " + (['\''] + z + ['\'']))))))))
    ensures L.IsIdent(x) && L.IsIdent(k) && L.IsIdent(y) && '\'' !in z
  {}

  lemma AsksLexes(s: string, x: string, k: string, y: string, z: string, floats: L.Floats)
    requires s == ASKS && x == "needs" && k == "Build" && y == "result" && z == "success"
    ensures L.Lex(s, floats) == Ok([L.Ident(x), L.Punct("."), L.Ident(k), L.Punct("."), L.Ident(y), L.Punct("=="), L.Str(z)])
  {
    AsksSpelled(s, x, k, y, z);
    LexesAs(x, k, y, z, floats);
  }

  lemma LexesAs(x: string, k: string, y: string, z: string, floats: L.Floats)
    requires L.IsIdent(x) && L.IsIdent(k) && L.IsIdent(y) && '\'' !in z
    ensures L.Lex(x + ("." + (k + ("." + (y + (" " + ("==" + (" " + (['\''] + z + ['\''])))))))), floats) ==
            Ok([L.Ident(x), L.Punct("."), L.Ident(k), L.Punct("."), L.Ident(y), L.Punct("=="), L.Str(z)])
  {
    var q := ['\''] + z + ['\''];
    QuotedLexes(z, floats);
    ComparisonLexes(y, q, L.Str(z), floats);
    DottedLexes(x, k, y + (" " + ("==" + (" " + q))), [L.Ident(y)] + ([L.Punct("==")] + [L.Str(z)]), floats);
    SevenTokens(L.Ident(x), L.Punct("."), L.Ident(k), L.Punct("."), L.Ident(y), L.Punct("=="), L.Str(z));
  }

  lemma AsksTokens(ts: P.Tokens, x: string, k: string, y: string, z: string)
    requires x == "needs" && k == "Build" && y == "result" && z == "success"
    requires ts == [L.Ident(x), L.Punct("."), L.Ident(k), L.Punct("."), L.Ident(y), L.Punct("=="), L.Str(z)]
    ensures P.ParseTokens(ts) == Ok(Asks(k))
  {
    var rest := [L.Punct("=="), L.Str(z)];
    assert ts == [L.Ident(x)] + ([L.Punct("."), L.Ident(k)] + ([L.Punct("."), L.Ident(y)] + rest));
    ReadsParsed(ts, x, k, y, rest);
    SidesParsed(ts, k, z, rest);
  }

  lemma ReadsParsed(ts: P.Tokens, x: string, k: string, y: string, rest: P.Tokens)
    requires x == "needs" && k == "Build" && y == "result" && P.At(rest, "==")
    requires ts == [L.Ident(x)] + ([L.Punct("."), L.Ident(k)] + ([L.Punct("."), L.Ident(y)] + rest))
    ensures P.ParseUnary(ts) == P.Good(Reads(k), rest)
  {
    var t3 := [L.Punct("."), L.Ident(y)] + rest;
    var t1 := [L.Punct("."), L.Ident(k)] + t3;
    assert ts[1..] == t1;
    FieldParsed(P.Member(P.Name(x), P.Text(k)), y, t3, rest);
    assert P.PostfixLoop(Reads(k), rest) == P.Good(Reads(k), rest);
    FieldParsed(P.Name(x), k, t1, t3);
    assert P.ParsePrimary(ts) == P.Good(P.Name(x), t1);
    assert P.ParsePostfix(ts) == P.Good(Reads(k), rest);
  }

  lemma SidesParsed(ts: P.Tokens, k: string, z: string, rest: P.Tokens)
    requires z == "success" && rest == [L.Punct("=="), L.Str(z)] && P.ParseUnary(ts) == P.Good(Reads(k), rest)
    ensures P.ParseTokens(ts) == Ok(Asks(k))
  {
    assert rest[1..] == [L.Str(z)];
    TextParsed([L.Str(z)], z);
    assert P.CompareLoop(Asks(k), []) == P.Good(Asks(k), []);
    assert P.CompareLoop(Reads(k), rest) == P.Good(Asks(k), []);
    assert P.ParseCompare(ts) == P.Good(Asks(k), []);
    assert P.ParseAnd(ts) == P.Good(Asks(k), []);
    assert P.ParseOr(ts) == P.Good(Asks(k), []);
  }

  lemma FieldParsed(n: P.Node, k: string, ts: P.Tokens, rest: P.Tokens)
    requires ts == [L.Punct("."), L.Ident(k)] + rest && (k == "Build" || k == "result") && rest != [] && !P.At(rest, "(")
    ensures P.PostfixLoop(n, ts) == P.PostfixLoop(P.Member(n, P.Text(k)), rest)
  {
    assert ts[1..] == [L.Ident(k)] + rest && ts[1..][1..] == rest;
    assert P.ParsePrimary(ts[1..]) == P.Good(P.Name(k), rest);
  }

  lemma TextParsed(ts: P.Tokens, z: string)
    requires ts == [L.Str(z)]
    ensures P.ParseUnary(ts) == P.Good(P.Text(z), [])
  {
    assert P.ParsePrimary(ts) == P.Good(P.Text(z), []);
    assert P.PostfixLoop(P.Text(z), []) == P.Good(P.Text(z), []);
  }

  lemma AsksExists(s: string, k: string, lib: E.Library)
    requires s == ASKS && k == "Build"
    ensures AsksFor(s, k, lib)
  {
    AsksText(s, "needs.");
    AsksLexes(s, "needs", k, "result", "success", E.FloatsOf(lib));
    AsksTokens(L.Lex(s, E.FloatsOf(lib)).value, "needs", k, "result", "success");
  }
}
