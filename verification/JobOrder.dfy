/** Ordering a workflow's jobs so that needs come first: depth-first visits
    with cycle detection (internal/workflow/compiler/expand.go). */
module JobOrder {
  import opened Prelude

  datatype Job = Job(id: string, needs: seq<string>)

  datatype OrderError = Duplicate(id: string) | UnknownNeed(id: string, need: string) | Cycle(id: string)

  datatype Mark = Visiting | Done

  // ---------------------------------------------------------------- what the order means

  ghost predicate UniqueIds(jobs: seq<Job>) {
    forall i, j {:trigger jobs[i].id, jobs[j].id} :: 0 <= i < j < |jobs| ==> jobs[i].id != jobs[j].id
  }

  ghost predicate Names(jobs: seq<Job>, id: string) {
    exists k :: 0 <= k < |jobs| && jobs[k].id == id
  }

  ghost predicate AllNamed(jobs: seq<Job>, ids: seq<string>) {
    forall d {:trigger Names(jobs, d)} :: d in ids ==> Names(jobs, d)
  }

  ghost predicate NeedsNamed(jobs: seq<Job>, j: Job) {
    AllNamed(jobs, j.needs)
  }

  ghost predicate NeedsKnown(jobs: seq<Job>) {
    forall k {:trigger NeedsNamed(jobs, jobs[k])} :: 0 <= k < |jobs| ==> NeedsNamed(jobs, jobs[k])
  }

  /** Some job of that id lists the need. */
  ghost predicate Edge(jobs: seq<Job>, id: string, need: string) {
    exists k :: 0 <= k < |jobs| && jobs[k].id == id && need in jobs[k].needs
  }

  /** Each id needs the next. */
  ghost predicate Walk(jobs: seq<Job>, p: seq<string>) {
    forall i {:trigger StepAt(jobs, p, i)} :: 0 <= i < |p| - 1 ==> StepAt(jobs, p, i)
  }

  ghost predicate StepAt(jobs: seq<Job>, p: seq<string>, i: int)
    requires 0 <= i < |p| - 1
  {
    Edge(jobs, p[i], p[i + 1])
  }

  ghost predicate WalksBetween(jobs: seq<Job>, p: seq<string>, a: string, b: string) {
    p != [] && Walk(jobs, p) && p[0] == a && p[|p| - 1] == b
  }

  /** b is a, or one of its needs, or one of theirs, and so on. */
  ghost predicate Depends(jobs: seq<Job>, a: string, b: string) {
    exists p :: WalksBetween(jobs, p, a, b)
  }

  ghost predicate OnCycle(jobs: seq<Job>, id: string) {
    exists p :: |p| >= 2 && WalksBetween(jobs, p, id, id)
  }

  ghost predicate Acyclic(jobs: seq<Job>) {
    forall id :: !OnCycle(jobs, id)
  }

  /** Every job comes after all its needs. */
  ghost predicate NeedsFirst(out: seq<Job>) {
    forall i {:trigger out[..i]} :: 0 <= i < |out| ==> NeedsNamed(out[..i], out[i])
  }

  /** The first document job missing from a prefix wants the job placed next:
      nothing is moved ahead of the document order without a reason. */
  ghost predicate Wanted(jobs: seq<Job>, before: seq<Job>, next: Job) {
    exists m :: FirstMissing(jobs, before, m) && Depends(jobs, jobs[m].id, next.id)
  }

  ghost predicate FirstMissing(jobs: seq<Job>, before: seq<Job>, m: int) {
    0 <= m < |jobs| && jobs[m] !in before && forall k :: 0 <= k < m ==> jobs[k] in before
  }

  ghost predicate InDocumentOrder(jobs: seq<Job>, out: seq<Job>) {
    forall i {:trigger Wanted(jobs, out[..i], out[i])} :: 0 <= i < |out| ==> Wanted(jobs, out[..i], out[i])
  }

  ghost predicate Orders(jobs: seq<Job>, out: seq<Job>) {
    && multiset(out) == multiset(jobs)
    && NeedsFirst(out)
    && InDocumentOrder(jobs, out)
  }

  ghost predicate Sortable(jobs: seq<Job>) {
    UniqueIds(jobs) && NeedsKnown(jobs) && Acyclic(jobs)
  }

  // ---------------------------------------------------------------- walks

  lemma DependsSelf(jobs: seq<Job>, a: string)
    ensures Depends(jobs, a, a)
  {
    assert WalksBetween(jobs, [a], a, a);
  }

  lemma DependsEdge(jobs: seq<Job>, a: string, b: string, c: string)
    requires Edge(jobs, a, b) && Depends(jobs, b, c)
    ensures Depends(jobs, a, c)
  {
    var p :| WalksBetween(jobs, p, b, c);
    var q := [a] + p;
    forall i | 0 <= i < |q| - 1
      ensures StepAt(jobs, q, i)
    {
      if i > 0 { assert StepAt(jobs, p, i - 1); }
    }
    assert WalksBetween(jobs, q, a, c);
  }

  lemma WalkTail(jobs: seq<Job>, p: seq<string>)
    requires p != [] && Walk(jobs, p)
    ensures Walk(jobs, p[1..])
  {
    var q := p[1..];
    forall i | 0 <= i < |q| - 1
      ensures StepAt(jobs, q, i)
    {
      assert StepAt(jobs, p, i + 1);
    }
  }

  lemma WalkPrefix(jobs: seq<Job>, p: seq<string>, b: string)
    requires Walk(jobs, p + [b])
    ensures Walk(jobs, p)
  {
    var q := p + [b];
    forall i | 0 <= i < |p| - 1
      ensures StepAt(jobs, p, i)
    {
      assert StepAt(jobs, q, i);
    }
  }

  lemma WalkExtends(jobs: seq<Job>, p: seq<string>, b: string)
    requires Walk(jobs, p) && (p == [] || Edge(jobs, p[|p| - 1], b))
    ensures Walk(jobs, p + [b])
  {
    var q := p + [b];
    forall i | 0 <= i < |q| - 1
      ensures StepAt(jobs, q, i)
    {
      if i < |p| - 1 { assert StepAt(jobs, p, i); }
    }
  }

  /** Coming back to an id on the way closes a cycle. */
  lemma WalkCloses(jobs: seq<Job>, p: seq<string>, b: string)
    requires b in p && Walk(jobs, p) && Edge(jobs, p[|p| - 1], b)
    ensures OnCycle(jobs, b)
  {
    var k :| 0 <= k < |p| && p[k] == b;
    var q := p[k..] + [b];
    forall i | 0 <= i < |q| - 1
      ensures StepAt(jobs, q, i)
    {
      if i < |q| - 2 { assert StepAt(jobs, p, k + i); }
    }
    assert WalksBetween(jobs, q, b, b);
  }

  // ---------------------------------------------------------------- an order admits no cycle

  lemma NamesPosition(jobs: seq<Job>, out: seq<Job>, id: string) returns (k: nat)
    requires (forall j :: j in out <==> j in jobs) && Names(jobs, id)
    ensures k < |out| && out[k].id == id
  {
    var i :| 0 <= i < |jobs| && jobs[i].id == id;
    assert jobs[i] in out;
    k :| 0 <= k < |out| && out[k] == jobs[i];
  }

  lemma EdgeGoesBack(jobs: seq<Job>, out: seq<Job>, a: nat, need: string) returns (b: nat)
    requires (forall j :: j in out <==> j in jobs) && UniqueIds(out) && NeedsFirst(out)
    requires a < |out| && Edge(jobs, out[a].id, need)
    ensures b < a && out[b].id == need
  {
    var k :| 0 <= k < |jobs| && jobs[k].id == out[a].id && need in jobs[k].needs;
    assert jobs[k] in out;
    var i :| 0 <= i < |out| && out[i] == jobs[k];
    assert i == a;
    assert NeedsNamed(out[..a], out[a]);
    assert Names(out[..a], need);
    b :| 0 <= b < |out[..a]| && out[..a][b].id == need;
  }

  lemma {:induction false} WalkGoesBack(jobs: seq<Job>, out: seq<Job>, p: seq<string>, a: nat) returns (b: nat)
    requires (forall j :: j in out <==> j in jobs) && UniqueIds(out) && NeedsFirst(out)
    requires p != [] && Walk(jobs, p) && a < |out| && out[a].id == p[0]
    ensures b <= a && out[b].id == p[|p| - 1]
    ensures |p| >= 2 ==> b < a
    decreases |p|
  {
    if |p| == 1 { return a; }
    assert StepAt(jobs, p, 0);
    var c := EdgeGoesBack(jobs, out, a, p[1]);
    WalkTail(jobs, p);
    b := WalkGoesBack(jobs, out, p[1..], c);
  }

  lemma OrderedAcyclic(jobs: seq<Job>, out: seq<Job>)
    requires (forall j :: j in out <==> j in jobs) && UniqueIds(out) && NeedsFirst(out)
    ensures Acyclic(jobs)
  {
    forall id
      ensures !OnCycle(jobs, id)
    {
      if OnCycle(jobs, id) {
        var p :| |p| >= 2 && WalksBetween(jobs, p, id, id);
        assert StepAt(jobs, p, 0);
        assert Names(jobs, id);
        var a := NamesPosition(jobs, out, id);
        var _ := WalkGoesBack(jobs, out, p, a);
      }
    }
  }

  // ---------------------------------------------------------------- the visit's invariant

  ghost predicate Listed(jobs: seq<Job>, out: seq<Job>) {
    UniqueIds(out) && NeedsFirst(out) && forall j {:trigger j in out} :: j in out ==> j in jobs
  }

  ghost predicate Marked(state: map<string, Mark>, id: string, mark: Mark) {
    id in state && state[id] == mark
  }

  ghost predicate MarksAgree(state: map<string, Mark>, out: seq<Job>, path: seq<string>) {
    && (forall id {:trigger Marked(state, id, Visiting)} :: Marked(state, id, Visiting) <==> id in path)
    && (forall id {:trigger Marked(state, id, Done)} :: Marked(state, id, Done) <==> Names(out, id))
  }

  /** Done jobs are listed, jobs being visited are the walk to here. */
  ghost predicate Inv(jobs: seq<Job>, state: map<string, Mark>, out: seq<Job>, path: seq<string>) {
    Listed(jobs, out) && MarksAgree(state, out, path) && Walk(jobs, path)
  }

  ghost predicate Maps(jobs: seq<Job>, byId: map<string, Job>) {
    && (forall id :: id in byId ==> byId[id].id == id && byId[id] in jobs)
    && (forall j :: j in jobs ==> j.id in byId && byId[j.id] == j)
  }

  ghost predicate Indexes(jobs: seq<Job>, byId: map<string, Job>) {
    Maps(jobs, byId) && NeedsKnown(jobs)
  }

  lemma MapsNext(jobs: seq<Job>, byId: map<string, Job>, j: Job)
    requires UniqueIds(jobs) && Maps(jobs, byId) && j.id !in byId
    ensures UniqueIds(jobs + [j]) && Maps(jobs + [j], byId[j.id := j])
  {
    forall i | 0 <= i < |jobs|
      ensures jobs[i].id != j.id
    {
      assert jobs[i] in jobs;
    }
  }

  /** Everything listed since is wanted by the job. */
  ghost predicate Adds(jobs: seq<Job>, before: seq<Job>, after: seq<Job>, id: string) {
    && before <= after
    && forall k {:trigger Depends(jobs, id, after[k].id)} :: |before| <= k < |after| ==> Depends(jobs, id, after[k].id)
  }

  /** A visit lists the job last, after jobs it depends on, or had it already. */
  ghost predicate Visited(jobs: seq<Job>, before: seq<Job>, after: seq<Job>, j: Job) {
    && Adds(jobs, before, after, j.id)
    && j in after
    && if j in before then after == before else after[|after| - 1] == j
  }

  lemma AddsThrough(jobs: seq<Job>, a: seq<Job>, b: seq<Job>, c: seq<Job>, id: string, need: string)
    requires Adds(jobs, a, b, id) && Adds(jobs, b, c, need) && Edge(jobs, id, need)
    ensures Adds(jobs, a, c, id)
  {
    forall k | |a| <= k < |c|
      ensures Depends(jobs, id, c[k].id)
    {
      if k < |b| {
        assert c[k] == b[k];
      } else {
        DependsEdge(jobs, id, need, c[k].id);
      }
    }
  }

  lemma VisitedAppend(jobs: seq<Job>, before: seq<Job>, after: seq<Job>, j: Job)
    requires Adds(jobs, before, after, j.id) && j !in after
    ensures Visited(jobs, before, after + [j], j)
  {
    DependsSelf(jobs, j.id);
  }

  lemma EdgeOf(jobs: seq<Job>, j: Job, need: string)
    requires j in jobs && need in j.needs
    ensures Edge(jobs, j.id, need)
  {
    var k :| 0 <= k < |jobs| && jobs[k] == j;
    assert jobs[k].id == j.id && need in jobs[k].needs;
  }

  lemma MarkSet(state: map<string, Mark>, id: string, mark: Mark, x: string, m: Mark)
    ensures Marked(state[id := mark], x, m) <==> if x == id then m == mark else Marked(state, x, m)
  {}

  lemma Marking(jobs: seq<Job>, state: map<string, Mark>, out: seq<Job>, path: seq<string>, id: string)
    requires Inv(jobs, state, out, path) && id !in state
    requires path == [] || Edge(jobs, path[|path| - 1], id)
    ensures Inv(jobs, state[id := Visiting], out, path + [id]) && id !in path
  {
    WalkExtends(jobs, path, id);
    assert !Marked(state, id, Visiting) && !Marked(state, id, Done);
    forall x
      ensures Marked(state[id := Visiting], x, Visiting) <==> x in path + [id]
      ensures Marked(state[id := Visiting], x, Done) <==> Names(out, x)
    {
      MarkSet(state, id, Visiting, x, Visiting);
      MarkSet(state, id, Visiting, x, Done);
    }
  }

  lemma NamesAppend(out: seq<Job>, j: Job, id: string)
    ensures Names(out + [j], id) <==> Names(out, id) || id == j.id
  {
    if Names(out, id) {
      var k :| 0 <= k < |out| && out[k].id == id;
      assert (out + [j])[k].id == id;
    }
    if id == j.id { assert (out + [j])[|out|].id == id; }
  }

  lemma ListedAppend(jobs: seq<Job>, out: seq<Job>, j: Job)
    requires Listed(jobs, out) && j in jobs && !Names(out, j.id) && NeedsNamed(out, j)
    ensures Listed(jobs, out + [j])
  {
    var t := out + [j];
    forall i | 0 <= i < |t|
      ensures NeedsNamed(t[..i], t[i])
    {
      assert t[..i] == if i < |out| then out[..i] else out;
    }
  }

  lemma Finishing(jobs: seq<Job>, state: map<string, Mark>, start: seq<Job>, out: seq<Job>, path: seq<string>, j: Job)
    requires Inv(jobs, state, out, path + [j.id]) && j.id !in path && j in jobs && NeedsNamed(out, j)
    requires Adds(jobs, start, out, j.id)
    ensures Inv(jobs, state[j.id := Done], out + [j], path) && Visited(jobs, start, out + [j], j)
    ensures j.id in state
  {
    assert j.id in path + [j.id] && Marked(state, j.id, Visiting) && !Marked(state, j.id, Done);
    assert j in out ==> Names(out, j.id);
    ListedAppend(jobs, out, j);
    VisitedAppend(jobs, start, out, j);
    WalkPrefix(jobs, path, j.id);
    forall x
      ensures Marked(state[j.id := Done], x, Visiting) <==> x in path
      ensures Marked(state[j.id := Done], x, Done) <==> Names(out + [j], x)
    {
      MarkSet(state, j.id, Done, x, Visiting);
      MarkSet(state, j.id, Done, x, Done);
      NamesAppend(out, j, x);
    }
  }

  lemma NamesStay(a: seq<Job>, b: seq<Job>, needs: seq<string>, need: string, j: Job)
    requires a <= b && AllNamed(a, needs) && j in b && j.id == need
    ensures AllNamed(b, needs + [need])
  {
    forall d | d in needs + [need]
      ensures Names(b, d)
    {
      if d in needs {
        assert Names(a, d);
        var k :| 0 <= k < |a| && a[k].id == d;
        assert b[k].id == d;
      } else {
        IndexNames(b, j);
      }
    }
  }

  lemma ListedNamed(jobs: seq<Job>, byId: map<string, Job>, out: seq<Job>, j: Job)
    requires Maps(jobs, byId) && Listed(jobs, out) && j in jobs && Names(out, j.id)
    ensures j in out
  {
    var k :| 0 <= k < |out| && out[k].id == j.id;
    assert out[k] in out && byId[out[k].id] == out[k];
  }

  // ---------------------------------------------------------------- the sort

  class Sorter {
    const jobs: seq<Job>
    var byId: map<string, Job>
    var state: map<string, Mark>
    var out: seq<Job>

    constructor (jobs: seq<Job>)
      ensures this.jobs == jobs && byId == map[] && state == map[] && out == []
    {
      this.jobs, byId, state, out := jobs, map[], map[], [];
    }

    /** Fills the index; a repeated id is an error. */
    method Index() returns (r: Option<OrderError>)
      requires byId == map[]
      modifies this`byId
      ensures r.None? ==> UniqueIds(jobs) && Maps(jobs, byId)
      ensures r.Some? ==> r.value.Duplicate? && Refuted(jobs, r.value)
    {
      for i := 0 to |jobs|
        invariant UniqueIds(jobs[..i]) && Maps(jobs[..i], byId)
      {
        var j := jobs[i];
        if j.id in byId {
          Repeats(jobs, i, byId[j.id]);
          return Some(Duplicate(j.id));
        }
        MapsNext(jobs[..i], byId, j);
        assert jobs[..i + 1] == jobs[..i] + [j];
        byId := byId[j.id := j];
      }
      assert jobs[..|jobs|] == jobs;
      r := None;
    }

    /** A need that names no job is an error. */
    method CheckNeeds() returns (r: Option<OrderError>)
      requires UniqueIds(jobs) && Maps(jobs, byId)
      ensures r.None? ==> Indexes(jobs, byId)
      ensures r.Some? ==> r.value.UnknownNeed? && Refuted(jobs, r.value)
    {
      for i := 0 to |jobs|
        invariant forall k {:trigger NeedsNamed(jobs, jobs[k])} :: 0 <= k < i ==> NeedsNamed(jobs, jobs[k])
      {
        var needs := jobs[i].needs;
        for n := 0 to |needs|
          invariant AllNamed(jobs, needs[..n])
        {
          if needs[n] !in byId {
            Unknown(jobs, i, needs[n], byId);
            return Some(UnknownNeed(jobs[i].id, needs[n]));
          }
          NamesStay(jobs, jobs, needs[..n], needs[n], byId[needs[n]]);
          assert needs[..n + 1] == needs[..n] + [needs[n]];
        }
        assert needs[..|needs|] == needs;
      }
      r := None;
    }

    method Visit(j: Job, ghost path: seq<string>) returns (r: Option<OrderError>)
      requires Indexes(jobs, byId) && j in jobs
      requires Inv(jobs, state, out, path) && (path == [] || Edge(jobs, path[|path| - 1], j.id))
      modifies this`state, this`out
      ensures Unseen(byId, state) <= old(Unseen(byId, state))
      ensures r.None? ==> Inv(jobs, state, out, path) && Visited(jobs, old(out), out, j)
      ensures r.Some? ==> r.value.Cycle? && OnCycle(jobs, r.value.id)
      decreases Unseen(byId, state), 1
    {
      if j.id !in state {
        r := Expand(j, path);
      } else if state[j.id] == Done {
        assert Marked(state, j.id, Done);
        ListedNamed(jobs, byId, out, j);
        r := None;
      } else {
        assert Marked(state, j.id, Visiting);
        WalkCloses(jobs, path, j.id);
        r := Some(Cycle(j.id));
      }
    }

    method Expand(j: Job, ghost path: seq<string>) returns (r: Option<OrderError>)
      requires Indexes(jobs, byId) && j in jobs && j.id !in state
      requires Inv(jobs, state, out, path) && (path == [] || Edge(jobs, path[|path| - 1], j.id))
      modifies this`state, this`out
      ensures Unseen(byId, state) <= old(Unseen(byId, state))
      ensures r.None? ==> Inv(jobs, state, out, path) && Visited(jobs, old(out), out, j)
      ensures r.Some? ==> r.value.Cycle? && OnCycle(jobs, r.value.id)
      decreases Unseen(byId, state), 0
    {
      Marking(jobs, state, out, path, j.id);
      UnseenDrops(byId, state, j.id);
      state := state[j.id := Visiting];
      r := VisitNeeds(j, path + [j.id]);
      if r.None? {
        Finishing(jobs, state, old(out), out, path, j);
        UnseenKept(byId, state, j.id);
        state := state[j.id := Done];
        out := out + [j];
      }
    }

    method VisitNeeds(j: Job, ghost path: seq<string>) returns (r: Option<OrderError>)
      requires Indexes(jobs, byId) && j in jobs
      requires Inv(jobs, state, out, path) && path != [] && path[|path| - 1] == j.id
      modifies this`state, this`out
      ensures Unseen(byId, state) <= old(Unseen(byId, state))
      ensures r.None? ==> Inv(jobs, state, out, path) && Adds(jobs, old(out), out, j.id) && NeedsNamed(out, j)
      ensures r.Some? ==> r.value.Cycle? && OnCycle(jobs, r.value.id)
      decreases Unseen(byId, state), 3
    {
      ghost var start, seen := out, Unseen(byId, state);
      for i := 0 to |j.needs|
        invariant Unseen(byId, state) <= seen && Inv(jobs, state, out, path)
        invariant Adds(jobs, start, out, j.id) && AllNamed(out, j.needs[..i])
      {
        r := VisitNeed(j, i, start, path);
        if r.Some? { return; }
      }
      assert j.needs[..|j.needs|] == j.needs;
      r := None;
    }

    method VisitNeed(j: Job, i: nat, ghost start: seq<Job>, ghost path: seq<string>) returns (r: Option<OrderError>)
      requires Indexes(jobs, byId) && j in jobs && i < |j.needs|
      requires Inv(jobs, state, out, path) && path != [] && path[|path| - 1] == j.id
      requires Adds(jobs, start, out, j.id) && AllNamed(out, j.needs[..i])
      modifies this`state, this`out
      ensures Unseen(byId, state) <= old(Unseen(byId, state))
      ensures r.None? ==> Inv(jobs, state, out, path) && Adds(jobs, start, out, j.id) && AllNamed(out, j.needs[..i + 1])
      ensures r.Some? ==> r.value.Cycle? && OnCycle(jobs, r.value.id)
      decreases Unseen(byId, state), 2
    {
      NeedIndexed(jobs, byId, j, j.needs[i]);
      ghost var before := out;
      r := Visit(byId[j.needs[i]], path);
      if r.None? { NeedVisited(jobs, start, before, out, j, i, byId[j.needs[i]]); }
    }

    /** Visits every job in document order. */
    method Run() returns (r: Option<OrderError>)
      requires UniqueIds(jobs) && Indexes(jobs, byId) && state == map[] && out == []
      modifies this
      ensures r.None? ==> Listed(jobs, out) && InDocumentOrder(jobs, out) && forall j :: j in jobs ==> j in out
      ensures r.Some? ==> r.value.Cycle? && OnCycle(jobs, r.value.id)
    {
      for i := 0 to |jobs|
        invariant Indexes(jobs, byId) && Inv(jobs, state, out, [])
        invariant InDocumentOrder(jobs, out) && forall k :: 0 <= k < i ==> jobs[k] in out
      {
        ghost var before := out;
        r := Visit(jobs[i], []);
        if r.Some? { return; }
        OrderGrows(jobs, before, out, i);
      }
      r := None;
    }
  }

  /** What each error says of the jobs. */
  ghost predicate Refuted(jobs: seq<Job>, e: OrderError) {
    match e
    case Duplicate(id) => exists i, j :: 0 <= i < j < |jobs| && jobs[i].id == jobs[j].id == id
    case UnknownNeed(id, need) => UniqueIds(jobs) && Edge(jobs, id, need) && !Names(jobs, need)
    case Cycle(id) => UniqueIds(jobs) && NeedsKnown(jobs) && OnCycle(jobs, id)
  }

  lemma Repeats(jobs: seq<Job>, i: nat, j: Job)
    requires i < |jobs| && j in jobs[..i] && j.id == jobs[i].id
    ensures Refuted(jobs, Duplicate(j.id))
  {
    var k :| 0 <= k < i && jobs[k] == j;
    assert jobs[k].id == jobs[i].id == j.id;
  }

  lemma Unknown(jobs: seq<Job>, i: nat, need: string, byId: map<string, Job>)
    requires i < |jobs| && need in jobs[i].needs && need !in byId && UniqueIds(jobs)
    requires Maps(jobs, byId)
    ensures Refuted(jobs, UnknownNeed(jobs[i].id, need))
  {
    EdgeOf(jobs, jobs[i], need);
  }

  lemma IndexNames(jobs: seq<Job>, j: Job)
    requires j in jobs
    ensures Names(jobs, j.id)
  {
    var k :| 0 <= k < |jobs| && jobs[k] == j;
    assert jobs[k].id == j.id;
  }

  lemma NeedIndexed(jobs: seq<Job>, byId: map<string, Job>, j: Job, need: string)
    requires Indexes(jobs, byId) && j in jobs && need in j.needs
    ensures need in byId && byId[need] in jobs && byId[need].id == need && Edge(jobs, j.id, need)
  {
    EdgeOf(jobs, j, need);
    var k :| 0 <= k < |jobs| && jobs[k] == j;
    assert NeedsNamed(jobs, jobs[k]);
    assert Names(jobs, need);
    var n :| 0 <= n < |jobs| && jobs[n].id == need;
    assert jobs[n] in jobs;
  }

  /** How many jobs no visit has reached. */
  ghost function Unseen(byId: map<string, Job>, state: map<string, Mark>): nat {
    |byId.Keys - state.Keys|
  }

  lemma UnseenDrops(byId: map<string, Job>, state: map<string, Mark>, id: string)
    requires id in byId && id !in state
    ensures Unseen(byId, state[id := Visiting]) < Unseen(byId, state)
  {
    assert byId.Keys - state[id := Visiting].Keys == (byId.Keys - state.Keys) - {id};
  }

  lemma UnseenKept(byId: map<string, Job>, state: map<string, Mark>, id: string)
    requires id in state
    ensures Unseen(byId, state[id := Done]) == Unseen(byId, state)
  {
    assert state[id := Done].Keys == state.Keys;
  }

  lemma NeedVisited(jobs: seq<Job>, start: seq<Job>, before: seq<Job>, after: seq<Job>, j: Job, i: nat, dep: Job)
    requires i < |j.needs| && j in jobs && dep.id == j.needs[i]
    requires Adds(jobs, start, before, j.id) && AllNamed(before, j.needs[..i]) && Visited(jobs, before, after, dep)
    ensures Adds(jobs, start, after, j.id) && AllNamed(after, j.needs[..i + 1])
  {
    EdgeOf(jobs, j, dep.id);
    AddsThrough(jobs, start, before, after, j.id, dep.id);
    NamesStay(before, after, j.needs[..i], dep.id, dep);
    assert j.needs[..i + 1] == j.needs[..i] + [dep.id];
  }

  /** What one more visit adds keeps the document order. */
  lemma OrderGrows(jobs: seq<Job>, before: seq<Job>, after: seq<Job>, m: nat)
    requires m < |jobs| && Visited(jobs, before, after, jobs[m]) && UniqueIds(after)
    requires InDocumentOrder(jobs, before) && forall k :: 0 <= k < m ==> jobs[k] in before
    ensures InDocumentOrder(jobs, after) && forall k :: 0 <= k <= m ==> jobs[k] in after
  {
    forall i | 0 <= i < |after|
      ensures Wanted(jobs, after[..i], after[i])
    {
      if i < |before| {
        assert after[..i] == before[..i] && after[i] == before[i];
      } else {
        assert before <= after[..i];
        assert jobs[m] !in after[..i];
        assert FirstMissing(jobs, after[..i], m);
      }
    }
  }

  // ---------------------------------------------------------------- results

  /** Sorting succeeds exactly on unique ids, known needs and no cycle. */
  method TopoSort(jobs: seq<Job>) returns (r: Result<seq<Job>, OrderError>)
    ensures r.Ok? <==> Sortable(jobs)
    ensures r.Ok? ==> Orders(jobs, r.value)
    ensures r.Err? ==> Refuted(jobs, r.error)
  {
    var sorter := new Sorter(jobs);
    var e := sorter.Index();
    if e.None? { e := sorter.CheckNeeds(); }
    if e.None? { e := sorter.Run(); }
    if e.Some? {
      RefutedUnsortable(jobs, e.value);
      return Err(e.value);
    }
    OrderedAcyclic(jobs, sorter.out);
    SameJobs(jobs, sorter.out);
    return Ok(sorter.out);
  }

  lemma RefutedUnsortable(jobs: seq<Job>, e: OrderError)
    requires Refuted(jobs, e)
    ensures !Sortable(jobs)
  {
    if e.UnknownNeed? {
      var k :| 0 <= k < |jobs| && jobs[k].id == e.id && e.need in jobs[k].needs;
      assert !NeedsNamed(jobs, jobs[k]);
    }
  }

  lemma {:induction false} UniqueCount(jobs: seq<Job>, j: Job)
    requires UniqueIds(jobs)
    ensures multiset(jobs)[j] == if j in jobs then 1 else 0
  {
    if jobs != [] {
      var n := |jobs| - 1;
      assert jobs == jobs[..n] + [jobs[n]];
      UniqueCount(jobs[..n], j);
    }
  }

  lemma SameJobs(a: seq<Job>, b: seq<Job>)
    requires UniqueIds(a) && UniqueIds(b) && forall j :: j in a <==> j in b
    ensures multiset(b) == multiset(a)
  {
    forall j: Job
      ensures multiset(a)[j] == multiset(b)[j]
    {
      UniqueCount(a, j);
      UniqueCount(b, j);
    }
  }

  lemma CountedTwice(out: seq<Job>, a: nat, b: nat)
    requires a < b < |out| && out[a] == out[b]
    ensures multiset(out)[out[a]] >= 2
  {
    assert out == out[..b] + [out[b]] + out[b + 1..];
    assert out[a] == out[..b][a];
  }

  lemma OrderedUnique(jobs: seq<Job>, out: seq<Job>)
    requires UniqueIds(jobs) && multiset(out) == multiset(jobs)
    ensures UniqueIds(out) && forall j :: j in out <==> j in jobs
  {
    forall j: Job
      ensures j in out <==> j in jobs
    {
      assert j in multiset(out) <==> j in multiset(jobs);
    }
    forall a, b | 0 <= a < b < |out|
      ensures out[a].id != out[b].id
    {
      if out[a].id == out[b].id {
        assert out[a] in jobs && out[b] in jobs;
        UniqueCount(jobs, out[a]);
        CountedTwice(out, a, b);
      }
    }
  }

  /** An order exists exactly for the jobs the sort accepts. */
  lemma OrderNeedsSortable(jobs: seq<Job>, out: seq<Job>)
    requires UniqueIds(jobs) && multiset(out) == multiset(jobs) && NeedsFirst(out)
    ensures Sortable(jobs)
  {
    OrderedUnique(jobs, out);
    OrderedAcyclic(jobs, out);
    forall k | 0 <= k < |jobs|
      ensures NeedsNamed(jobs, jobs[k])
    {
      assert jobs[k] in out;
      var i :| 0 <= i < |out| && out[i] == jobs[k];
      assert NeedsNamed(out[..i], out[i]);
      forall d | d in jobs[k].needs
        ensures Names(jobs, d)
      {
        assert Names(out[..i], d);
        var b :| 0 <= b < |out[..i]| && out[..i][b].id == d;
        assert out[b] in jobs;
        IndexNames(jobs, out[b]);
      }
    }
  }

  /** A document already in a valid order is left as it is. */
  lemma DocumentOrderKept(jobs: seq<Job>, out: seq<Job>)
    requires UniqueIds(jobs) && NeedsFirst(jobs) && Orders(jobs, out)
    ensures out == jobs
  {
    OrderedUnique(jobs, out);
    SameLength(jobs, out);
    KeptPrefix(jobs, out, |jobs|);
    assert out[..|jobs|] == out && jobs[..|jobs|] == jobs;
  }

  lemma SameLength(jobs: seq<Job>, out: seq<Job>)
    requires multiset(out) == multiset(jobs)
    ensures |out| == |jobs|
  {
    assert |multiset(out)| == |out| && |multiset(jobs)| == |jobs|;
  }

  lemma NotBefore(jobs: seq<Job>, i: nat)
    requires UniqueIds(jobs) && i < |jobs|
    ensures jobs[i] !in jobs[..i]
  {
    assert forall k :: 0 <= k < i ==> jobs[k].id != jobs[i].id;
  }

  lemma NextMissing(jobs: seq<Job>, i: nat, m: int)
    requires UniqueIds(jobs) && i < |jobs| && FirstMissing(jobs, jobs[..i], m)
    ensures m == i
  {
    NotBefore(jobs, i);
  }

  lemma NextKept(jobs: seq<Job>, out: seq<Job>, i: nat)
    requires UniqueIds(jobs) && NeedsFirst(jobs) && UniqueIds(out)
    requires i < |out| == |jobs| && out[..i] == jobs[..i] && out[i] in jobs
    requires Depends(jobs, jobs[i].id, out[i].id)
    ensures out[i] == jobs[i]
  {
    var p :| WalksBetween(jobs, p, jobs[i].id, out[i].id);
    var b := WalkGoesBack(jobs, jobs, p, i);
  }

  lemma {:induction false} KeptPrefix(jobs: seq<Job>, out: seq<Job>, n: nat)
    requires UniqueIds(jobs) && NeedsFirst(jobs) && UniqueIds(out) && InDocumentOrder(jobs, out)
    requires n <= |out| == |jobs| && forall j :: j in out <==> j in jobs
    ensures out[..n] == jobs[..n]
  {
    if n > 0 {
      var i := n - 1;
      KeptPrefix(jobs, out, i);
      assert Wanted(jobs, out[..i], out[i]);
      var m :| FirstMissing(jobs, out[..i], m) && Depends(jobs, jobs[m].id, out[i].id);
      NextMissing(jobs, i, m);
      NextKept(jobs, out, i);
      assert out[..n] == out[..i] + [out[i]] && jobs[..n] == jobs[..i] + [jobs[i]];
    }
  }
}
