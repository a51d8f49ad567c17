/** Spreading activation: how far each path is, along dependencies, from a stage's own artifacts. */
module Activation {
  import opened Common
  import opened Graphs
  import opened Artifacts
  import opened Ordering

  /** The artifacts activation starts from: the stage's own, or every artifact when the stage owns none. */
  function Seeds(doc: Document, stageId: string): set<Path> {
    var own := set a | a in doc && a.stageId == Some(stageId) :: a.path;
    if own == {} then Paths(doc) else own
  }

  /** The dictionary that the nested `visit` shares across its recursive calls. */
  class Spreading {
    const byPath: map<Path, seq<Path>>
    ghost const edges: Graph
    ghost const walks: iset<(Path, nat)>  // (p, n): some walk of n edges leads from a seed to p
    var priorities: map<Path, nat>

    constructor (byPath: map<Path, seq<Path>>, ghost edges: Graph, ghost walks: iset<(Path, nat)>)
      ensures this.byPath == byPath && this.edges == edges && this.walks == walks && priorities == map[]
    {
      this.byPath := byPath;
      this.edges := edges;
      this.walks := walks;
      priorities := map[];
    }

    /** `edges` is the graph that `byPath` spells out as lists, and walks extend along it. */
    ghost predicate Agrees() {
      && edges.Keys == byPath.Keys
      && (forall p, d :: p in byPath ==> (d in edges[p] <==> d in byPath[p]))
      && (forall p, n, d :: (p, n) in walks && p in edges && d in edges[p] ==> (d, n + 1) in walks)
    }

    /** Every label is the length of a walk from a seed. */
    ghost predicate Sound()
      reads this`priorities
    {
      forall p :: p in priorities ==> (p, priorities[p]) in walks
    }

    /** Every label has been passed on to the successors, except at nodes still being visited. */
    ghost predicate Settled(stack: set<Path>)
      reads this`priorities
    {
      forall p :: p !in stack ==> Relaxed(edges, priorities, p)
    }

    /** The labels of `before` are still there, none of them larger, those on the stack unchanged. */
    ghost predicate Improves(before: map<Path, nat>, stack: set<Path>)
      reads this`priorities
    {
      && (forall p :: p in before ==> p in priorities && priorities[p] <= before[p])
      && (forall s :: s in stack && s in before ==> priorities[s] == before[s])
    }

    /** `visit`: `stack` holds the paths whose visits are in progress, each labelled below `priority`. */
    method Visit(path: Path, priority: nat, ghost stack: set<Path>)
      requires Agrees() && Sound() && Settled(stack) && (path, priority) in walks
      requires stack <= byPath.Keys
      requires forall s :: s in stack ==> s in priorities && priorities[s] < priority
      modifies this`priorities
      ensures Sound() && Settled(stack)
      ensures path in priorities && priorities[path] <= priority
      ensures Improves(old(priorities), stack)
      decreases byPath.Keys - stack, 1
    {
      if path in priorities && priorities[path] <= priority {
        return;
      }
      priorities := priorities[path := priority];
      if path in byPath {
        VisitDependencies(path, priority, stack);
      }
    }

    /** The loop of `visit` over the dependencies of a path that has just been labelled. */
    method VisitDependencies(path: Path, priority: nat, ghost stack: set<Path>)
      requires Agrees() && Sound() && Settled(stack + {path}) && (path, priority) in walks
      requires stack <= byPath.Keys && path in byPath && path !in stack
      requires forall s :: s in stack ==> s in priorities && priorities[s] < priority
      requires path in priorities && priorities[path] == priority
      modifies this`priorities
      ensures Sound() && Settled(stack)
      ensures Improves(old(priorities), stack + {path})
      decreases byPath.Keys - stack, 0
    {
      var dependencies := SortPaths(byPath[path]);
      SortPathsKeeps(byPath[path]);
      ghost var before := priorities;
      for i := 0 to |dependencies|
        invariant Sound() && Settled(stack + {path})
        invariant Improves(before, stack + {path})
        invariant forall j :: 0 <= j < i ==>
                    dependencies[j] in priorities && priorities[dependencies[j]] <= priority + 1
      {
        Visit(dependencies[i], priority + 1, stack + {path});
      }
      assert Relaxed(edges, priorities, path);
    }

    /** The outer loop: every stage path is visited at priority 0. */
    method VisitAll(stagePaths: seq<Path>)
      requires Agrees() && priorities == map[]
      requires forall p :: p in stagePaths ==> (p, 0) in walks
      modifies this`priorities
      ensures Sound() && Settled({})
      ensures forall p :: p in stagePaths ==> p in priorities && priorities[p] == 0
    {
      for i := 0 to |stagePaths|
        invariant Sound() && Settled({})
        invariant forall j :: 0 <= j < i ==> stagePaths[j] in priorities && priorities[stagePaths[j]] == 0
      {
        Visit(stagePaths[i], 0, {});
      }
    }
  }

  /** `_spread_activation_priorities`. */
  method SpreadActivationPriorities(doc: Document, stageId: string) returns (priorities: map<Path, nat>)
    requires UniquePaths(doc)
    ensures forall p :: p in priorities <==> Reachable(DependencyGraph(ShapeOf(doc)), Seeds(doc, stageId), p)
    ensures forall p :: p in priorities ==>
              AtDistance(DependencyGraph(ShapeOf(doc)), Seeds(doc, stageId), p, priorities[p])
  {
    var stagePaths := StagePaths(doc, stageId);
    var byPath := map p | p in Paths(doc) :: doc[IndexOf(doc, p)].dependencies;
    ghost var edges, seeds := DependencyGraph(ShapeOf(doc)), Seeds(doc, stageId);
    ghost var walks := Walks(edges, seeds);
    ByPathIsDependencyGraph(doc, byPath);
    WalksExtend(edges, seeds);
    var spreading := new Spreading(byPath, edges, walks);
    spreading.VisitAll(stagePaths);
    priorities := spreading.priorities;
    LabelsAreDistances(edges, seeds, walks, priorities);
  }

  ghost function Walks(g: Graph, seeds: set<Path>): (walks: iset<(Path, nat)>)
    ensures forall p, n: nat :: (p, n) in walks <==> WalkTo(g, seeds, p, n)
  {
    iset p, n: nat | WalkTo(g, seeds, p, n) :: (p, n)
  }

  lemma WalksExtend(g: Graph, seeds: set<Path>)
    ensures forall p, n, d :: (p, n) in Walks(g, seeds) && p in g && d in g[p] ==> (d, n + 1) in Walks(g, seeds)
    ensures forall s :: s in seeds ==> (s, 0) in Walks(g, seeds)
  {
    forall p, n: nat, d | (p, n) in Walks(g, seeds) && p in g && d in g[p] ensures (d, n + 1) in Walks(g, seeds) {
      WalkStep(g, seeds, p, n, d);
    }
  }

  lemma LabelsAreDistances(g: Graph, seeds: set<Path>, walks: iset<(Path, nat)>, labels: map<Path, nat>)
    requires walks == Walks(g, seeds)
    requires forall s :: s in seeds ==> s in labels && labels[s] == 0
    requires forall q :: q !in {} ==> Relaxed(g, labels, q)
    requires forall p :: p in labels ==> (p, labels[p]) in walks
    ensures forall p :: p in labels <==> Reachable(g, seeds, p)
    ensures forall p :: p in labels ==> AtDistance(g, seeds, p, labels[p])
  {
    RelaxedLabelsAreDistances(g, seeds, labels);
  }

  /** The sorted paths of the stage's own artifacts, or of all artifacts when it has none. */
  function StagePaths(doc: Document, stageId: string): (paths: seq<Path>)
    ensures forall p :: p in paths <==> p in Seeds(doc, stageId)
  {
    var own := OwnPaths(doc, stageId);
    SortPathsKeeps(own);
    SortPathsKeeps(AllPaths(doc));
    StagePathsAreSeeds(doc, stageId);
    if own == [] then SortPaths(AllPaths(doc)) else SortPaths(own)
  }

  lemma StagePathsAreSeeds(doc: Document, stageId: string)
    ensures forall p :: p in Seeds(doc, stageId) <==>
              p in (if OwnPaths(doc, stageId) == [] then AllPaths(doc) else OwnPaths(doc, stageId))
  {
    var own := set a | a in doc && a.stageId == Some(stageId) :: a.path;
    assert forall p :: p in own <==> p in OwnPaths(doc, stageId);
    if OwnPaths(doc, stageId) != [] {
      assert OwnPaths(doc, stageId)[0] in own;
    }
  }

  lemma ByPathIsDependencyGraph(doc: Document, byPath: map<Path, seq<Path>>)
    requires UniquePaths(doc)
    requires byPath == map p | p in Paths(doc) :: doc[IndexOf(doc, p)].dependencies
    ensures var edges := DependencyGraph(ShapeOf(doc));
            && edges.Keys == byPath.Keys
            && forall p, d :: p in byPath ==> (d in edges[p] <==> d in byPath[p])
  {
    RegisteredAreDocumentPaths(doc);
    forall p, d | p in byPath ensures d in DependenciesOf(ShapeOf(doc), p) <==> d in byPath[p] {
      DependenciesByIndex(doc, p, d);
      var i := IndexOf(doc, p);
      assert Lists(doc, i, p, d) <==> d in byPath[p];
      assert forall j :: Lists(doc, j, p, d) ==> j == i;
    }
  }
}
