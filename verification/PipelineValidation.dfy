/** Static validation of a pipeline specification: stage identity, dependency references
    and the depth-first cycle search. */
module PipelineValidation {
  import opened Domain

  type Graph = map<string, seq<string>>

  /** The dependency dictionary; of two stages with one name the later wins. */
  function DependencyGraph(stages: seq<Stage>): Graph {
    if stages == [] then
      map[]
    else
      var last := stages[|stages| - 1];
      DependencyGraph(stages[..|stages| - 1])[last.name := last.dependencies]
  }

  lemma {:induction false} GraphKeys(stages: seq<Stage>)
    ensures forall n :: n in DependencyGraph(stages) <==> Declared(stages, n)
  {
    if stages != [] {
      var n := |stages| - 1;
      GraphKeys(stages[..n]);
      DeclaredByOneMore(stages[..n], stages[n]);
      assert stages == stages[..n] + [stages[n]];
    }
  }

  /** `b` is a dependency of `a` that the search follows: names of no stage are skipped. */
  ghost predicate Edge(g: Graph, a: string, b: string) {
    a in g && b in g && b in g[a]
  }

  ghost predicate Walk(g: Graph, p: seq<string>) {
    forall i :: 0 <= i < |p| - 1 ==> Edge(g, p[i], p[i + 1])
  }

  ghost predicate IsCycle(g: Graph, c: seq<string>) {
    |c| > 0 && Walk(g, c) && Edge(g, c[|c| - 1], c[0])
  }

  ghost predicate Cyclic(g: Graph) {
    exists c :: IsCycle(g, c)
  }

  /** Whatever an element of `order` depends on stands before it. */
  ghost predicate DependenciesFirst(g: Graph, order: seq<string>) {
    forall i, d :: 0 <= i < |order| && Edge(g, order[i], d) ==> d in order[..i]
  }

  /** `order` lists every stage name once, each after its dependencies. */
  ghost predicate Topological(g: Graph, order: seq<string>) {
    && NoDuplicates(order)
    && (forall n :: n in order <==> n in g)
    && DependenciesFirst(g, order)
  }

  /** A walk that starts in an order with dependencies first only moves towards its front. */
  lemma {:induction false} WalkMovesForward(g: Graph, order: seq<string>, p: seq<string>, at: nat) returns (end: nat)
    requires NoDuplicates(order) && DependenciesFirst(g, order)
    requires |p| > 0 && Walk(g, p) && at < |order| && order[at] == p[0]
    ensures end < |order| && order[end] == p[|p| - 1] && end + |p| - 1 <= at
  {
    if |p| == 1 {
      end := at;
    } else {
      assert Edge(g, p[0], p[1]);
      var next :| 0 <= next < at && order[next] == p[1];
      assert Walk(g, p[1..]) by {
        forall i | 0 <= i < |p[1..]| - 1
          ensures Edge(g, p[1..][i], p[1..][i + 1])
        {
          assert Edge(g, p[i + 1], p[i + 2]);
        }
      }
      end := WalkMovesForward(g, order, p[1..], next);
    }
  }

  /** Nothing in an order with dependencies first reaches a cycle. */
  lemma OrderedReachesNoCycle(g: Graph, order: seq<string>, n: string, p: seq<string>, c: seq<string>)
    requires NoDuplicates(order) && DependenciesFirst(g, order) && n in order
    requires |p| > 0 && p[0] == n && Walk(g, p) && IsCycle(g, c)
    ensures p[|p| - 1] != c[0]
  {
    if p[|p| - 1] == c[0] {
      var at :| 0 <= at < |order| && order[at] == n;
      var start := WalkMovesForward(g, order, p, at);
      var closed := c + [c[0]];
      forall i | 0 <= i < |closed| - 1
        ensures Edge(g, closed[i], closed[i + 1])
      {
        assert i < |c| - 1 ==> Edge(g, c[i], c[i + 1]);
      }
      var end := WalkMovesForward(g, order, closed, start);
    }
  }

  /** A topological order rules every cycle out. */
  lemma TopologicalMeansAcyclic(g: Graph, order: seq<string>)
    requires Topological(g, order)
    ensures !Cyclic(g)
  {
    if c :| IsCycle(g, c) {
      assert Edge(g, c[|c| - 1], c[0]);
      OrderedReachesNoCycle(g, order, c[0], [c[0]], c);
    }
  }

  /** A walk whose last element leads back into it closes a cycle. */
  lemma ClosesCycle(g: Graph, path: seq<string>, node: string)
    requires Walk(g, path) && node in path && Edge(g, path[|path| - 1], node)
    ensures Cyclic(g)
  {
    var k :| 0 <= k < |path| && path[k] == node;
    var c := path[k..];
    forall i | 0 <= i < |c| - 1
      ensures Edge(g, c[i], c[i + 1])
    {
      assert Edge(g, path[k + i], path[k + i + 1]);
    }
    assert IsCycle(g, c);
  }

  /** Follows dependencies inside `rest` until one leads out of it, or back into the walk. */
  lemma FindReady(g: Graph, rest: set<string>, path: seq<string>) returns (n: string)
    requires !Cyclic(g) && path != [] && Walk(g, path) && NoDuplicates(path)
    requires forall x :: x in path ==> x in rest
    ensures n in rest && forall d :: Edge(g, n, d) ==> d !in rest
    decreases rest - set x | x in path
  {
    n := path[|path| - 1];
    if d :| Edge(g, n, d) && d in rest {
      if d in path {
        ClosesCycle(g, path, d);
        assert false;
      } else {
        var longer := path + [d];
        forall i | 0 <= i < |longer| - 1
          ensures Edge(g, longer[i], longer[i + 1])
        {
          assert i < |path| - 1 ==> Edge(g, path[i], path[i + 1]);
        }
        assert d in rest - (set x | x in path) && d !in rest - (set x | x in longer);
        n := FindReady(g, rest, longer);
      }
    }
  }

  /** An order of some nodes, each after its dependencies, extends to all of an acyclic graph. */
  lemma Completes(g: Graph, order: seq<string>) returns (all: seq<string>)
    requires !Cyclic(g) && NoDuplicates(order) && DependenciesFirst(g, order)
    requires forall n :: n in order ==> n in g
    ensures Topological(g, all)
    decreases g.Keys - set n | n in order
  {
    var rest := g.Keys - set n | n in order;
    if rest == {} {
      all := order;
      assert forall n :: n in g ==> n !in rest;
    } else {
      var start :| start in rest;
      var n := FindReady(g, rest, [start]);
      var longer := order + [n];
      forall i, d | 0 <= i < |longer| && Edge(g, longer[i], d)
        ensures d in longer[..i]
      {
        if i < |order| {
          assert longer[..i] == order[..i];
        } else {
          assert longer[..i] == order && d !in rest;
        }
      }
      assert n in rest && n !in g.Keys - (set x | x in longer);
      all := Completes(g, longer);
    }
  }

  /** A graph has a topological order if and only if it has no cycle. */
  lemma AcyclicMeansTopological(g: Graph)
    ensures !Cyclic(g) <==> exists order :: Topological(g, order)
  {
    if !Cyclic(g) {
      var order := Completes(g, []);
    }
    if order :| Topological(g, order) {
      TopologicalMeansAcyclic(g, order);
    }
  }

  /** The closure state of the recursive search. `path` is its call stack and `finished`
      the order in which nodes left it. */
  class CycleSearch {
    const graph: Graph
    var visiting: set<string>
    var visited: set<string>
    ghost var path: seq<string>
    ghost var finished: seq<string>

    ghost predicate Valid()
      reads this
    {
      && NoDuplicates(path) && Walk(graph, path)
      && (forall n :: n in visiting <==> n in path)
      && (forall n :: n in path ==> n in graph)
      && NoDuplicates(finished) && DependenciesFirst(graph, finished)
      && (forall n :: n in visited <==> n in finished)
      && (forall n :: n in finished ==> n in graph)
      && visiting !! visited
    }

    constructor (g: Graph)
      ensures Valid() && graph == g && visiting == {} && visited == {} && path == []
    {
      graph := g;
      visiting, visited := {}, {};
      path, finished := [], [];
    }

    method Dfs(node: string) returns (cyclic: bool)
      requires Valid() && node in graph
      requires path != [] ==> Edge(graph, path[|path| - 1], node)
      modifies this
      ensures cyclic ==> Cyclic(graph)
      ensures !cyclic ==> Valid() && node in visited
      ensures !cyclic ==> visiting == old(visiting) && path == old(path)
      ensures !cyclic ==> old(visited) <= visited && old(finished) <= finished
      decreases graph.Keys - visiting - visited
    {
      if node in visiting {
        ClosesCycle(graph, path, node);
        return true;
      }
      if node in visited {
        return false;
      }
      Enter(node);
      var deps := graph[node];
      for i := 0 to |deps|
        invariant Valid() && path == old(path) + [node] && visiting == old(visiting) + {node}
        invariant old(visited) <= visited && old(finished) <= finished
        invariant forall j :: 0 <= j < i && deps[j] in graph ==> deps[j] in visited
      {
        var next := deps[i];
        if next in graph {
          assert Edge(graph, node, next);
          assert node in old(graph.Keys - visiting - visited) && node !in graph.Keys - visiting - visited;
          assert graph.Keys - visiting - visited <= old(graph.Keys - visiting - visited);
          var found := Dfs(next);
          if found {
            return true;
          }
        }
      }
      Leave(node);
      assert path == old(path);
      return false;
    }

    /** `visiting.add(node)`. */
    method Enter(node: string)
      requires Valid() && node in graph && node !in visiting && node !in visited
      requires path != [] ==> Edge(graph, path[|path| - 1], node)
      modifies this`visiting, this`path
      ensures Valid() && path == old(path) + [node] && visiting == old(visiting) + {node}
    {
      visiting, path := visiting + {node}, path + [node];
      forall i | 0 <= i < |path| - 1
        ensures Edge(graph, path[i], path[i + 1])
      {
        assert i < |old(path)| - 1 ==> Edge(graph, old(path)[i], old(path)[i + 1]);
      }
    }

    /** `visiting.remove(node)` and `visited.add(node)`. */
    method Leave(node: string)
      requires Valid() && path != [] && path[|path| - 1] == node
      requires forall d :: Edge(graph, node, d) ==> d in visited
      modifies this
      ensures Valid() && path == old(path)[..|old(path)| - 1] && visiting == old(visiting) - {node}
      ensures visited == old(visited) + {node} && finished == old(finished) + [node]
    {
      visiting, path := visiting - {node}, path[..|path| - 1];
      visited, finished := visited + {node}, finished + [node];
      assert old(path) == path + [node];
      forall i | 0 <= i < |path| - 1
        ensures Edge(graph, path[i], path[i + 1])
      {
        assert Edge(graph, old(path)[i], old(path)[i + 1]);
      }
      forall i, d | 0 <= i < |finished| && Edge(graph, finished[i], d)
        ensures d in finished[..i]
      {
        if i < |old(finished)| {
          assert finished[..i] == old(finished)[..i];
        } else {
          assert finished[..i] == old(finished);
        }
      }
    }
  }

  /** `any(_dfs(n) for n in graph)`. Without a cycle the finishing order is the witness. */
  method DetectCycle(g: Graph, roots: seq<string>) returns (cyclic: bool, ghost order: seq<string>)
    requires forall n :: n in roots <==> n in g
    ensures cyclic <==> Cyclic(g)
    ensures !cyclic ==> Topological(g, order)
  {
    var search := new CycleSearch(g);
    for i := 0 to |roots|
      invariant search.Valid() && search.path == [] && search.graph == g
      invariant forall j :: 0 <= j < i ==> roots[j] in search.visited
    {
      var found := search.Dfs(roots[i]);
      if found {
        return true, [];
      }
    }
    order := search.finished;
    TopologicalMeansAcyclic(g, order);
    return false, order;
  }

  function NamesOf(stages: seq<Stage>): (names: seq<string>)
    ensures |names| == |stages| && forall i :: 0 <= i < |names| ==> names[i] == stages[i].name
  {
    seq(|stages|, i requires 0 <= i < |stages| => stages[i].name)
  }

  predicate Declared(stages: seq<Stage>, name: string) {
    exists s :: s in stages && s.name == name
  }

  predicate HasKind(stages: seq<Stage>, kind: StageKind) {
    exists s :: s in stages && s.kind == kind
  }

  /** The findings about one dependency of one stage. */
  function DependencyFinding(stages: seq<Stage>, name: string, dependency: string): seq<Line> {
    if !Declared(stages, dependency) then
      [Fail(UnknownDependency(name, dependency))]
    else if dependency == name then
      [Fail(SelfDependency(name))]
    else
      []
  }

  function StageFindings(stages: seq<Stage>, name: string, dependencies: seq<string>): seq<Line> {
    if dependencies == [] then
      []
    else
      var n := |dependencies| - 1;
      StageFindings(stages, name, dependencies[..n]) + DependencyFinding(stages, name, dependencies[n])
  }

  function DependencyFindings(stages: seq<Stage>, upTo: seq<Stage>): seq<Line> {
    if upTo == [] then
      []
    else
      var n := |upTo| - 1;
      DependencyFindings(stages, upTo[..n]) + StageFindings(stages, upTo[n].name, upTo[n].dependencies)
  }

  function Verdict(ok: bool, note: Note): Line {
    if ok then Pass(note) else Fail(note)
  }

  function Advice(ok: bool, note: Note): Line {
    if ok then Pass(note) else Warn(note)
  }

  function FailCount(lines: seq<Line>): nat {
    if lines == [] then
      0
    else
      FailCount(lines[..|lines| - 1]) + if lines[|lines| - 1].Fail? then 1 else 0
  }

  ghost function HeadFindings(p: PipelinePayload): seq<Line> {
    [Pass(StageCount(|p.stages|)), Verdict(NoDuplicates(NamesOf(p.stages)), StageNames)]
  }

  ghost function TailFindings(p: PipelinePayload, cyclic: bool): seq<Line> {
    [Verdict(!cyclic, DependencyCycles),
     Advice(HasKind(p.stages, Ingest), IngestStage),
     Advice(HasKind(p.stages, StageKind.Validate), ValidateStage),
     Advice(|p.validationRules| > 0, ValidationRules(|p.validationRules|))]
  }

  /** Every line but the closing one, cycles judged by the existence of a cyclic walk. */
  ghost function Findings(p: PipelinePayload): seq<Line> {
    HeadFindings(p) + DependencyFindings(p.stages, p.stages) + TailFindings(p, Cyclic(DependencyGraph(p.stages)))
  }

  ghost function Report(p: PipelinePayload): seq<Line> {
    if |p.stages| == 0 then
      [Fail(NoStages)]
    else
      Findings(p) + [Verdict(FailCount(Findings(p)) == 0, Completed(FailCount(Findings(p))))]
  }

  lemma DeclaredByOneMore(stages: seq<Stage>, s: Stage)
    ensures forall n :: Declared(stages + [s], n) <==> Declared(stages, n) || n == s.name
  {
    assert forall t :: t in stages + [s] <==> t in stages || t == s;
  }

  /** `len(names) == len(set(names))`. */
  predicate AllDistinct(names: seq<string>) {
    |set n | n in names| == |names|
  }

  lemma {:induction false} AllDistinctMeansNoDuplicates(names: seq<string>)
    ensures |set n | n in names| <= |names|
    ensures AllDistinct(names) <==> NoDuplicates(names)
  {
    if names != [] {
      var front, last := names[..|names| - 1], names[|names| - 1];
      AllDistinctMeansNoDuplicates(front);
      assert names == front + [last];
      assert (set n | n in names) == (set n | n in front) + {last};
      if last !in front {
        assert NoDuplicates(front) ==> NoDuplicates(names);
      } else {
        var i :| 0 <= i < |front| && front[i] == last;
        assert names[i] == names[|names| - 1];
      }
      assert NoDuplicates(names) ==> NoDuplicates(front) by {
        assert forall i :: 0 <= i < |front| ==> front[i] == names[i];
      }
    }
  }

  /** The dictionary's keys: each name once, where it was first met. */
  method DistinctNames(stages: seq<Stage>) returns (keys: seq<string>)
    ensures NoDuplicates(keys) && forall n :: n in keys <==> Declared(stages, n)
  {
    keys := [];
    for i := 0 to |stages|
      invariant NoDuplicates(keys) && forall n :: n in keys <==> Declared(stages[..i], n)
    {
      assert stages[..i + 1] == stages[..i] + [stages[i]];
      DeclaredByOneMore(stages[..i], stages[i]);
      if stages[i].name !in keys {
        keys := keys + [stages[i].name];
      }
    }
    assert stages[..|stages|] == stages;
  }

  method ValidatePipelineSpecification(p: PipelinePayload) returns (results: seq<Line>)
    ensures results == Report(p)
    ensures |p.stages| > 0 ==> (results[|results| - 1].Pass? <==> Runnable(p.stages))
  {
    if |p.stages| == 0 {
      return [Fail(NoStages)];
    }
    AllDistinctMeansNoDuplicates(NamesOf(p.stages));
    results := [Pass(StageCount(|p.stages|)), Verdict(AllDistinct(NamesOf(p.stages)), StageNames)];
    var found := CheckDependencies(p.stages);
    var keys := DistinctNames(p.stages);
    GraphKeys(p.stages);
    var cyclic, order := DetectCycle(DependencyGraph(p.stages), keys);
    results := results + found
    + [Verdict(!cyclic, DependencyCycles),
       Advice(HasKind(p.stages, Ingest), IngestStage),
       Advice(HasKind(p.stages, StageKind.Validate), ValidateStage),
       Advice(|p.validationRules| > 0, ValidationRules(|p.validationRules|))];
    var failures := FailCount(results);
    results := results + [Verdict(failures == 0, Completed(failures))];
    PassesExactlyWhenRunnable(p, order);
  }

  method CheckDependencies(stages: seq<Stage>) returns (results: seq<Line>)
    ensures results == DependencyFindings(stages, stages)
  {
    results := [];
    for i := 0 to |stages|
      invariant results == DependencyFindings(stages, stages[..i])
    {
      var found := CheckStage(stages, stages[i]);
      assert stages[..i + 1][..i] == stages[..i];
      results := results + found;
    }
    assert stages[..|stages|] == stages;
  }

  method CheckStage(stages: seq<Stage>, stage: Stage) returns (results: seq<Line>)
    ensures results == StageFindings(stages, stage.name, stage.dependencies)
  {
    var deps := stage.dependencies;
    results := [];
    for j := 0 to |deps|
      invariant results == StageFindings(stages, stage.name, deps[..j])
    {
      assert deps[..j + 1][..j] == deps[..j];
      assert results + [] == results;
      if !Declared(stages, deps[j]) {
        results := results + [Fail(UnknownDependency(stage.name, deps[j]))];
      } else if deps[j] == stage.name {
        results := results + [Fail(SelfDependency(stage.name))];
      }
    }
    assert deps[..|deps|] == deps;
  }

  /** Every dependency of every stage names a declared stage other than the stage itself. */
  ghost predicate DependenciesKnown(stages: seq<Stage>) {
    forall s, d :: s in stages && d in s.dependencies ==> Declared(stages, d)
  }

  /** `order` is a schedule: the stage names, each once, and every stage after all it names. */
  ghost predicate Schedule(stages: seq<Stage>, order: seq<string>) {
    && NoDuplicates(order)
    && (forall n :: n in order <==> Declared(stages, n))
    && forall i, s, d ::
         0 <= i < |order| && s in stages && s.name == order[i] && d in s.dependencies ==> d in order[..i]
  }

  /** What a pipeline must be for an engine to run its stages one after the other. */
  ghost predicate Runnable(stages: seq<Stage>) {
    && NoDuplicates(NamesOf(stages))
    && DependenciesKnown(stages)
    && exists order :: Schedule(stages, order)
  }

  lemma {:induction false} FailCountConcat(a: seq<Line>, b: seq<Line>)
    ensures FailCount(a + b) == FailCount(a) + FailCount(b)
  {
    if b == [] {
      assert a + b == a;
    } else {
      assert (a + b)[..|a + b| - 1] == a + b[..|b| - 1];
      FailCountConcat(a, b[..|b| - 1]);
    }
  }

  /** Each of these dependencies of stage `name` names another declared stage. */
  ghost predicate OthersDeclared(stages: seq<Stage>, name: string, deps: seq<string>) {
    forall d :: d in deps ==> Declared(stages, d) && d != name
  }

  /** A stage raises no finding exactly when its dependencies are other declared stages. */
  lemma {:induction false} StageFindingsClean(stages: seq<Stage>, name: string, deps: seq<string>)
    ensures FailCount(StageFindings(stages, name, deps)) == 0 <==> OthersDeclared(stages, name, deps)
  {
    if deps != [] {
      var n := |deps| - 1;
      StageFindingsClean(stages, name, deps[..n]);
      FailCountConcat(StageFindings(stages, name, deps[..n]), DependencyFinding(stages, name, deps[n]));
      assert forall d :: d in deps <==> d in deps[..n] || d == deps[n];
    }
  }

  ghost predicate DependOnOthers(stages: seq<Stage>, upTo: seq<Stage>) {
    forall s :: s in upTo ==> OthersDeclared(stages, s.name, s.dependencies)
  }

  lemma {:induction false} DependencyFindingsClean(stages: seq<Stage>, upTo: seq<Stage>)
    ensures FailCount(DependencyFindings(stages, upTo)) == 0 <==> DependOnOthers(stages, upTo)
  {
    if upTo != [] {
      var n := |upTo| - 1;
      DependencyFindingsClean(stages, upTo[..n]);
      StageFindingsClean(stages, upTo[n].name, upTo[n].dependencies);
      FailCountConcat(DependencyFindings(stages, upTo[..n]), StageFindings(stages, upTo[n].name, upTo[n].dependencies));
      assert forall s :: s in upTo <==> s in upTo[..n] || s == upTo[n];
    }
  }

  lemma {:induction false} DeclaredInGraph(stages: seq<Stage>, i: nat)
    requires i < |stages|
    requires forall j :: i < j < |stages| ==> stages[j].name != stages[i].name
    ensures stages[i].name in DependencyGraph(stages)
    ensures DependencyGraph(stages)[stages[i].name] == stages[i].dependencies
    decreases |stages|
  {
    var n := |stages| - 1;
    if i < n {
      assert stages[n].name != stages[i].name;
      assert stages[..n][i] == stages[i];
      DeclaredInGraph(stages[..n], i);
    }
  }

  /** With unique names the dictionary holds each stage's own dependencies. */
  lemma GraphOfUnique(stages: seq<Stage>, s: Stage)
    requires NoDuplicates(NamesOf(stages)) && s in stages
    ensures s.name in DependencyGraph(stages) && DependencyGraph(stages)[s.name] == s.dependencies
  {
    var i :| 0 <= i < |stages| && stages[i] == s;
    forall j | i < j < |stages|
      ensures stages[j].name != s.name
    {
      assert NamesOf(stages)[i] != NamesOf(stages)[j];
    }
    DeclaredInGraph(stages, i);
  }

  /** For unique names and known dependencies, schedules are the topological orders. */
  lemma SchedulesAreTopological(stages: seq<Stage>, order: seq<string>)
    requires NoDuplicates(NamesOf(stages)) && DependenciesKnown(stages)
    ensures Schedule(stages, order) <==> Topological(DependencyGraph(stages), order)
  {
    if Topological(DependencyGraph(stages), order) {
      TopologicalIsSchedule(stages, order);
    }
    if Schedule(stages, order) {
      ScheduleIsTopological(stages, order);
    }
  }

  lemma TopologicalIsSchedule(stages: seq<Stage>, order: seq<string>)
    requires NoDuplicates(NamesOf(stages)) && DependenciesKnown(stages)
    requires Topological(DependencyGraph(stages), order)
    ensures Schedule(stages, order)
  {
    GraphKeys(stages);
    var g := DependencyGraph(stages);
    forall i, s, d | 0 <= i < |order| && s in stages && s.name == order[i] && d in s.dependencies
      ensures d in order[..i]
    {
      GraphOfUnique(stages, s);
      assert Declared(stages, d);
      assert Edge(g, order[i], d);
    }
  }

  lemma ScheduleIsTopological(stages: seq<Stage>, order: seq<string>)
    requires NoDuplicates(NamesOf(stages)) && Schedule(stages, order)
    ensures Topological(DependencyGraph(stages), order)
  {
    GraphKeys(stages);
    var g := DependencyGraph(stages);
    forall i, d | 0 <= i < |order| && Edge(g, order[i], d)
      ensures d in order[..i]
    {
      var s :| s in stages && s.name == order[i];
      GraphOfUnique(stages, s);
    }
  }

  /** A stage that depends on itself is a cycle of length one. */
  lemma SelfDependencyIsCycle(stages: seq<Stage>, s: Stage)
    requires NoDuplicates(NamesOf(stages)) && s in stages && s.name in s.dependencies
    ensures Cyclic(DependencyGraph(stages))
  {
    GraphOfUnique(stages, s);
    assert IsCycle(DependencyGraph(stages), [s.name]);
  }

  function Fails(line: Line): nat {
    if line.Fail? then 1 else 0
  }

  lemma FailCountTwo(a: Line, b: Line)
    ensures FailCount([a, b]) == Fails(a) + Fails(b)
  {
    assert [a][..0] == [];
    assert FailCount([a]) == Fails(a);
    assert [a, b][..1] == [a];
  }

  lemma FailCountFour(a: Line, b: Line, c: Line, d: Line)
    ensures FailCount([a, b, c, d]) == Fails(a) + Fails(b) + Fails(c) + Fails(d)
  {
    FailCountTwo(a, b);
    FailCountTwo(c, d);
    FailCountConcat([a, b], [c, d]);
    assert [a, b] + [c, d] == [a, b, c, d];
  }

  lemma FindingsFailCount(p: PipelinePayload)
    ensures FailCount(Findings(p)) ==
      (if NoDuplicates(NamesOf(p.stages)) then 0 else 1)
      + FailCount(DependencyFindings(p.stages, p.stages))
      + (if Cyclic(DependencyGraph(p.stages)) then 1 else 0)
  {
    hide NoDuplicates, Cyclic, DependencyFindings, DependencyGraph, FailCount, HasKind;
    var head, middle := HeadFindings(p), DependencyFindings(p.stages, p.stages);
    var tail := TailFindings(p, Cyclic(DependencyGraph(p.stages)));
    FailCountConcat(head + middle, tail);
    FailCountConcat(head, middle);
    FailCountTwo(head[0], head[1]);
    assert head == [head[0], head[1]];
    FailCountFour(tail[0], tail[1], tail[2], tail[3]);
    assert tail == [tail[0], tail[1], tail[2], tail[3]];
  }

  lemma ReportEnds(p: PipelinePayload)
    requires |p.stages| > 0
    ensures Report(p) != []
    ensures Report(p)[|Report(p)| - 1].Pass? <==> FailCount(Findings(p)) == 0
  {
    hide FailCount, Findings;
  }

  /** The closing line passes exactly when nothing failed. */
  lemma ClosingLine(p: PipelinePayload)
    requires |p.stages| > 0
    ensures Report(p)[|Report(p)| - 1].Pass?
      <==> && NoDuplicates(NamesOf(p.stages)) && DependOnOthers(p.stages, p.stages)
           && !Cyclic(DependencyGraph(p.stages))
  {
    hide NoDuplicates, Cyclic, DependencyFindings, DependencyGraph, FailCount, Findings, DependOnOthers, Report;
    ReportEnds(p);
    FindingsFailCount(p);
    DependencyFindingsClean(p.stages, p.stages);
  }

  /** A pipeline with a schedule passes. The converse is the validator's own contract, whose
      cycle search constructs the schedule. */
  lemma RunnablePasses(p: PipelinePayload)
    requires |p.stages| > 0 && Runnable(p.stages)
    ensures Report(p)[|Report(p)| - 1].Pass?
  {
    var order :| Schedule(p.stages, order);
    SchedulesAreTopological(p.stages, order);
    TopologicalMeansAcyclic(DependencyGraph(p.stages), order);
    forall s, d | s in p.stages && d in s.dependencies
      ensures d != s.name
    {
      if d == s.name {
        SelfDependencyIsCycle(p.stages, s);
      }
    }
    ClosingLine(p);
  }

  /** The closing line passes exactly for runnable pipelines, given the search's witness. */
  lemma PassesExactlyWhenRunnable(p: PipelinePayload, order: seq<string>)
    requires |p.stages| > 0
    requires !Cyclic(DependencyGraph(p.stages)) ==> Topological(DependencyGraph(p.stages), order)
    ensures Report(p)[|Report(p)| - 1].Pass? <==> Runnable(p.stages)
  {
    ClosingLine(p);
    if Report(p)[|Report(p)| - 1].Pass? {
      SchedulesAreTopological(p.stages, order);
    } else if Runnable(p.stages) {
      RunnablePasses(p);
    }
  }

  /** The same for any non-empty pipeline without a witness, and the empty one fails. */
  lemma LastLinePassesExactlyWhenRunnable(p: PipelinePayload)
    ensures Report(p)[|Report(p)| - 1].Pass? <==> p.stages != [] && Runnable(p.stages)
  {
    hide Findings, Cyclic, Topological, Runnable, DependencyGraph;
    if p.stages != [] {
      AcyclicMeansTopological(DependencyGraph(p.stages));
      if Cyclic(DependencyGraph(p.stages)) {
        PassesExactlyWhenRunnable(p, []);
      } else {
        var order :| Topological(DependencyGraph(p.stages), order);
        PassesExactlyWhenRunnable(p, order);
      }
    }
  }

  // ----- what each line of the report means -----

  /** Every line that can be true of a pipeline, and when it is. */
  ghost predicate Says(p: PipelinePayload, line: Line) {
    match line
    case Pass(StageCount(n)) => n == |p.stages|
    case Pass(StageNames) => NoDuplicates(NamesOf(p.stages))
    case Fail(StageNames) => !NoDuplicates(NamesOf(p.stages))
    case Fail(UnknownDependency(name, d)) =>
      && (forall t :: t in p.stages ==> t.name != d)
      && exists s :: s in p.stages && s.name == name && d in s.dependencies
    case Fail(SelfDependency(name)) => exists s :: s in p.stages && s.name == name && name in s.dependencies
    case Pass(DependencyCycles) => !Cyclic(DependencyGraph(p.stages))
    case Fail(DependencyCycles) => Cyclic(DependencyGraph(p.stages))
    case Pass(IngestStage) => exists s :: s in p.stages && s.kind.Ingest?
    case Warn(IngestStage) => forall s :: s in p.stages ==> !s.kind.Ingest?
    case Pass(ValidateStage) => exists s :: s in p.stages && s.kind.Validate?
    case Warn(ValidateStage) => forall s :: s in p.stages ==> !s.kind.Validate?
    case Pass(ValidationRules(n)) => n == |p.validationRules| > 0
    case Warn(ValidationRules(n)) => n == |p.validationRules| == 0
    case _ => false
  }

  lemma {:induction false} StageLines(stages: seq<Stage>, name: string, deps: seq<string>, line: Line)
    ensures line in StageFindings(stages, name, deps)
      <==> exists d :: d in deps && DependencyFinding(stages, name, d) == [line]
  {
    if deps != [] {
      var n := |deps| - 1;
      StageLines(stages, name, deps[..n], line);
      assert forall d :: d in deps <==> d in deps[..n] || d == deps[n];
      assert DependencyFinding(stages, name, deps[n]) != [] ==> |DependencyFinding(stages, name, deps[n])| == 1;
      if line in DependencyFinding(stages, name, deps[n]) {
        assert DependencyFinding(stages, name, deps[n]) == [line];
      }
    }
  }

  lemma {:induction false} DependencyLines(stages: seq<Stage>, upTo: seq<Stage>, line: Line)
    ensures line in DependencyFindings(stages, upTo)
      <==> exists s, d :: s in upTo && d in s.dependencies && DependencyFinding(stages, s.name, d) == [line]
  {
    if upTo != [] {
      var n := |upTo| - 1;
      DependencyLines(stages, upTo[..n], line);
      StageLines(stages, upTo[n].name, upTo[n].dependencies, line);
      assert forall s :: s in upTo <==> s in upTo[..n] || s == upTo[n];
    }
  }

  /** The lines about dependencies are exactly the unknown ones and those on oneself. */
  lemma DependencyLinesMean(p: PipelinePayload, line: Line)
    ensures line in DependencyFindings(p.stages, p.stages)
      <==> line.Fail? && (line.note.UnknownDependency? || line.note.SelfDependency?) && Says(p, line)
  {
    hide NoDuplicates, Cyclic, DependencyGraph;
    DependencyLines(p.stages, p.stages, line);
    if line in DependencyFindings(p.stages, p.stages) {
      var s, d :| s in p.stages && d in s.dependencies && DependencyFinding(p.stages, s.name, d) == [line];
      assert [line][0] == line;
    }
    if line.Fail? && line.note.SelfDependency? && Says(p, line) {
      var s :| s in p.stages && s.name == line.note.stage && s.name in s.dependencies;
      assert Declared(p.stages, s.name) && DependencyFinding(p.stages, s.name, s.name) == [line];
    }
    if line.Fail? && line.note.UnknownDependency? && Says(p, line) {
      var s :| s in p.stages && s.name == line.note.stage && line.note.dependency in s.dependencies;
      assert DependencyFinding(p.stages, s.name, line.note.dependency) == [line];
    }
  }

  /** Before its closing line the report of a non-empty pipeline holds exactly the lines that are
      true of it. */
  lemma ReportMeans(p: PipelinePayload, line: Line)
    requires p.stages != []
    ensures line in Report(p)[..|Report(p)| - 1] <==> Says(p, line)
  {
    hide NoDuplicates, Cyclic, DependencyGraph, DependencyFindings, FailCount;
    DependencyLinesMean(p, line);
    var head, middle := HeadFindings(p), DependencyFindings(p.stages, p.stages);
    var tail := TailFindings(p, Cyclic(DependencyGraph(p.stages)));
    assert Report(p)[..|Report(p)| - 1] == head + middle + tail;
    assert head == [head[0], head[1]] && tail == [tail[0], tail[1], tail[2], tail[3]];
    assert line in head <==> line == head[0] || line == head[1];
    assert line in tail <==> line == tail[0] || line == tail[1] || line == tail[2] || line == tail[3];
  }

  /** And the closing line counts the failures among them. */
  lemma ClosingLineCounts(p: PipelinePayload)
    requires p.stages != []
    ensures var n := |Report(p)| - 1;
      && Report(p)[n].note == Completed(FailCount(Report(p)[..n]))
      && (Report(p)[n].Pass? <==> forall line :: line in Report(p)[..n] ==> !line.Fail?)
  {
    hide Findings;
    var n := |Report(p)| - 1;
    assert Report(p)[..n] == Findings(p);
    NoFailures(Findings(p));
  }

  lemma {:induction false} NoFailures(lines: seq<Line>)
    ensures FailCount(lines) == 0 <==> forall line :: line in lines ==> !line.Fail?
  {
    if lines != [] {
      var n := |lines| - 1;
      NoFailures(lines[..n]);
      assert forall line :: line in lines <==> line in lines[..n] || line == lines[n];
    }
  }
}
