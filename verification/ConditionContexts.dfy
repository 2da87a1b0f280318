/** What a job condition reads from its contexts (internal/server/server.go), when
    it is deferred, and a condition that reads results too early. */
module ConditionContexts {
  import opened Prelude
  import Txt = Text
  import opened RunModel
  import opened Deferral
  import L = Lexing
  import P = Parsing
  import opened Scanner
  import M = Marks
  import E = Evaluation
  import C = Conditions
  import SC = StatusCalls
  import opened JobConditions

  // ---------------------------------------------------------------- what the contexts say

  function Field(obj: P.Node, key: string): P.Node { P.Member(obj, P.Text(key)) }

  lemma ReadsField(n: P.Node, key: string, fields: map<string, E.Value>, env: E.Env, lib: E.Library)
    requires E.Eval(n, env, lib) == Ok(E.VObject(fields)) && key in fields
    ensures E.Eval(Field(n, key), env, lib) == Ok(fields[key])
  {}

  lemma ReadsContext(name: string, env: E.Env, lib: E.Library)
    requires Txt.Lower(name) == name && name in env.contexts
    ensures E.Eval(P.Name(name), env, lib) == Ok(env.contexts[name])
  {}

  /** How the end of a job reads in a condition. */
  predicate ResultReads(st: JobStatus, result: string) {
    && (st == JobSucceeded ==> result == "success") && (st == JobFailed ==> result == "failure")
    && (st == JobCancelled ==> result == "cancelled") && (st == JobSkipped ==> result == "skipped")
    && (!st.IsTerminal() ==> result == "pending")
  }

  /** needs['key'].result is how the last listed attempt of the key ended. */
  lemma NeedsResult(ev: Event, j: JobRecord, all: seq<JobRecord>, key: string, i: int, lib: E.Library)
    requires IsLast(all, key, i)
    ensures exists result :: ResultReads(all[i].status, result)
              && E.Eval(Field(Field(P.Name("needs"), key), "result"), ConditionEnv(ev, j, all), lib) == Ok(E.VString(result))
  {
    var env := ConditionEnv(ev, j, all);
    var result := ResultName(all[i].status);
    EnvContexts(ev, NeedsMap(all), StatusFor(j.intent.dependsOn, all));
    assert Txt.Lower("needs") == "needs";
    ReadsContext("needs", env, lib);
    NeedsHolds(all, key);
    ReadsField(P.Name("needs"), key, NeedsMap(all), env, lib);
    ReadsField(Field(P.Name("needs"), key), "result", map["result" := E.VString(result)], env, lib);
    assert ResultReads(all[i].status, result);
  }

  /** job.status is the status the status functions see. */
  lemma JobStatusRead(ev: Event, j: JobRecord, all: seq<JobRecord>, lib: E.Library)
    ensures E.Eval(Field(P.Name("job"), "status"), ConditionEnv(ev, j, all), lib) == Ok(E.VString(StatusFor(j.intent.dependsOn, all)))
  {
    var env, st := ConditionEnv(ev, j, all), StatusFor(j.intent.dependsOn, all);
    EnvContexts(ev, NeedsMap(all), st);
    assert Txt.Lower("job") == "job";
    ReadsContext("job", env, lib);
    ReadsField(P.Name("job"), "status", map["status" := E.VString(st)], env, lib);
  }

  lemma GithubRead(ev: Event, j: JobRecord, all: seq<JobRecord>, key: string, lib: E.Library)
    requires key in GithubContext(ev).fields
    ensures E.Eval(Field(P.Name("github"), key), ConditionEnv(ev, j, all), lib) == Ok(GithubContext(ev).fields[key])
  {
    var env := ConditionEnv(ev, j, all);
    EnvContexts(ev, NeedsMap(all), StatusFor(j.intent.dependsOn, all));
    assert Txt.Lower("github") == "github";
    ReadsContext("github", env, lib);
    ReadsField(P.Name("github"), key, GithubContext(ev).fields, env, lib);
  }

  /** github shows the event: its name, ref, sha and actor, and the repository. */
  lemma GithubFields(ev: Event, j: JobRecord, all: seq<JobRecord>, lib: E.Library)
    ensures var env, g := ConditionEnv(ev, j, all), P.Name("github");
            && E.Eval(Field(g, "event_name"), env, lib) == Ok(E.VString(ev.name))
            && E.Eval(Field(g, "ref"), env, lib) == Ok(E.VString(ev.ref))
            && E.Eval(Field(g, "sha"), env, lib) == Ok(E.VString(ev.sha))
            && E.Eval(Field(g, "actor"), env, lib) == Ok(E.VString(ev.actor))
  {
    GithubRead(ev, j, all, "event_name", lib);
    GithubRead(ev, j, all, "ref", lib);
    GithubRead(ev, j, all, "sha", lib);
    GithubRead(ev, j, all, "actor", lib);
  }

  lemma RepositoryFields(ev: Event, j: JobRecord, all: seq<JobRecord>, lib: E.Library)
    ensures var env, g := ConditionEnv(ev, j, all), Field(P.Name("github"), "repository");
            && E.Eval(Field(g, "owner"), env, lib) == Ok(E.VString(ev.owner))
            && E.Eval(Field(g, "name"), env, lib) == Ok(E.VString(ev.repo))
            && E.Eval(Field(g, "full_name"), env, lib) == Ok(E.VString(ev.owner + "/" + ev.repo))
  {
    var env, g := ConditionEnv(ev, j, all), Field(P.Name("github"), "repository");
    GithubRead(ev, j, all, "repository", lib);
    var fields := GithubContext(ev).fields["repository"].fields;
    ReadsField(g, "owner", fields, env, lib);
    ReadsField(g, "name", fields, env, lib);
    ReadsField(g, "full_name", fields, env, lib);
  }

  // ---------------------------------------------------------------- when a condition is deferred

  /** A text that scans is deferred exactly when some token carries the mark of a
      status function, or of needs with a dot behind it. */
  lemma DeferredIff(s: string, xs: seq<Lexeme>, floats: L.Floats)
    requires ScanFrom(s, 0, floats) == Ok(xs)
    ensures IsDeferred(s) <==> exists x :: x in xs && (SC.CarriesStatus(s, x) || M.Carries(s, x, "needs", '.'))
  {
    SC.StatusMarks(s, xs, floats);
    SC.DotMarks(s, xs, floats);
  }
}
