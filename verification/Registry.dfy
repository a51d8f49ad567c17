/** The artifact registry: registration, refresh, and the two derived views of the dependency graph. */
module Registry {
  import opened Common
  import opened Graphs
  import opened Artifacts
  import opened Ordering
  import opened Staleness

  /** An ADG edge, from a dependency to the artifact that depends on it. */
  datatype Edge = Edge(source: Path, target: Path)

  /** An ADG node: what the graph shows of an artifact. */
  datatype GraphNode = GraphNode(path: Path, stageId: Option<string>, status: Status)

  function NodeOf(a: Artifact): GraphNode {
    GraphNode(a.path, a.stageId, a.status)
  }

  /** One node per artifact, in path order. */
  ghost predicate NodesExact(doc: Document, nodes: seq<GraphNode>) {
    && |nodes| == |doc|
    && (forall i, j :: 0 <= i < j < |nodes| ==> Leq(nodes[i].path, nodes[j].path) && nodes[i].path != nodes[j].path)
    && (forall n :: n in nodes <==>
          exists a :: a in doc && a.path == n.path && a.stageId == n.stageId && a.status == n.status)
  }

  /** Every `dependents` list holds, sorted and once each, exactly the artifacts that list this one. */
  ghost predicate DependentsExact(doc: Document) {
    forall i :: 0 <= i < |doc| ==>
      && SortedBy(doc[i].dependents, Leq)
      && NoDuplicates(doc[i].dependents)
      && forall p :: p in doc[i].dependents <==> p in DependentsOf(ShapeOf(doc), doc[i].path)
  }

  /** The ADG has exactly the edges between registered artifacts. */
  ghost predicate EdgesExact(doc: Document, edges: seq<Edge>) {
    forall e :: e in edges <==>
      e.source in Registered(ShapeOf(doc)) && e.target in DependentsOf(ShapeOf(doc), e.source)
  }

  /** The record apart from its derived `dependents` list. */
  function Core(a: Artifact): Artifact {
    a.(dependents := [])
  }

  ghost predicate SameCore(before: Document, after: Document) {
    |after| == |before| && forall i :: 0 <= i < |before| ==> Core(after[i]) == Core(before[i])
  }

  /** The document after registering `path`, dependents aside. */
  function RegisterSpec(doc: Document, disk: Disk, path: Path, stageId: Option<string>, dependencies: seq<Path>)
    : Document
  {
    var status := if Present(disk, path) then Fresh else Missing;
    var i := IndexOf(doc, path);
    if i == |doc| then
      doc + [Artifact(path, stageId, status, dependencies, [], HashAt(disk, path), TokensAt(disk, path))]
    else
      var a := doc[i];
      doc[i := a.(stageId := if stageId.Some? && stageId.value != "" then stageId else a.stageId,
                  dependencies := if dependencies != [] then dependencies else a.dependencies,
                  status := status,
                  contentHash := HashAt(disk, path),
                  tokens := TokensAt(disk, path))]
  }

  class ArtifactRegistry {
    var document: Document
    var nodes: seq<GraphNode>
    var edges: seq<Edge>

    ghost predicate Valid()
      reads this
    {
      && UniquePaths(document) && DependentsExact(document)
      && NodesExact(document, nodes) && EdgesExact(document, edges)
    }

    constructor ()
      ensures Valid() && document == []
    {
      document, nodes, edges := [], [], [];
    }

    method Register(disk: Disk, path: Path, stageId: Option<string>, dependencies: seq<Path>)
      requires UniquePaths(document)
      modifies this
      ensures Valid()
      ensures SameCore(RegisterSpec(old(document), disk, path, stageId, dependencies), document)
    {
      var i := IndexOf(document, path);
      var status := if Present(disk, path) then Fresh else Missing;
      if i == |document| {
        document := document
          + [Artifact(path, stageId, status, dependencies, [], HashAt(disk, path), TokensAt(disk, path))];
      } else {
        if stageId.Some? && stageId.value != "" {
          document := document[i := document[i].(stageId := stageId)];
        }
        if dependencies != [] {
          document := document[i := document[i].(dependencies := dependencies)];
        }
        document := document[i := document[i].(status := status)];
        document := document[i := document[i].(contentHash := HashAt(disk, path))];
        document := document[i := document[i].(tokens := TokensAt(disk, path))];
      }
      assert document == RegisterSpec(old(document), disk, path, stageId, dependencies);
      RegisterKeepsPathsUnique(old(document), disk, path, stageId, dependencies);
      RebuildDependents();
      Save();
    }

    method Refresh(disk: Disk)
      requires UniquePaths(document)
      modifies this
      ensures Valid()
      ensures |document| == |old(document)|
      ensures forall x :: 0 <= x < |document| ==>
                Core(document[x]) == Core(RefreshedArtifact(old(document), disk, x)) && Snapshotted(document[x], disk)
    {
      ghost var before := document;
      var beforeHashes := map i: nat | i < |document| :: document[i].contentHash;
      for k := 0 to |document|
        invariant RefreshedUpTo(before, disk, k, document)
      {
        ghost var doc := document;
        var a := document[k];
        var changed := beforeHashes[k] != HashAt(disk, a.path);
        document := document[k := OwnTurn(a, disk)];
        if changed && Present(disk, a.path) {
          MarkDownstreamStale(a.path);
        }
        TurnExtendsClosedForm(before, disk, k, doc, document);
      }
      RebuildDependents();
      Save();
    }

    /** `_mark_downstream_stale`. */
    method MarkDownstreamStale(path: Path)
      requires UniquePaths(document)
      modifies this`document
      ensures MarkedFrom(old(document), path, document)
    {
      ghost var before := document;
      ghost var reach := ReachFrom(before, path);
      ReachIsClosed(before, path);
      var visited := Mark(path, {}, before, reach, Paths(before) + {path}, {});
      var marked := document;
      MarkingIsDownstream(before, path, marked, visited);
      var i := IndexOf(document, path);
      if i < |document| && document[i].status != Missing {
        document := document[i := document[i].(status := Fresh)];
      }
      RootIsFresh(before, path, marked, document);
    }

    /** The nested `mark`: a depth-first walk over dependents. */
    method Mark(current: Path, visited: set<Path>, ghost before: Document, ghost reach: iset<Path>,
                ghost universe: set<Path>, ghost stack: set<Path>)
      returns (seen: set<Path>)
      requires ClosedUnderDependents(before, reach) && current in reach
      requires Paths(before) <= universe && visited <= universe && current in universe
      requires MarkInvariant(before, document, reach, visited, stack)
      modifies this`document
      ensures MarkInvariant(before, document, reach, seen, stack)
      ensures visited <= seen <= universe && current in seen
      ensures StaleStays(old(document), document)
      decreases universe - visited
    {
      seen := visited;
      if current in seen {
        return;
      }
      seen := seen + {current};
      ghost var start := document;
      for i := 0 to |document|
        invariant |document| == |start|
        invariant MarkInvariant(before, document, reach, seen, stack + {current})
        invariant visited + {current} <= seen <= universe
        invariant StaleStays(start, document)
        invariant forall j :: 0 <= j < i && current in before[j].dependencies ==>
                    document[j].status == Stale && before[j].path in seen
      {
        if current in document[i].dependencies {
          document := document[i := document[i].(status := Stale)];
          assert before[i] in before;
          seen := Mark(document[i].path, seen, before, reach, universe, stack + {current});
        }
      }
    }

    /** `_rebuild_dependents`. */
    method RebuildDependents()
      requires UniquePaths(document)
      modifies this`document
      ensures DependentsExact(document) && SameCore(old(document), document)
    {
      ghost var before := document;
      var doc := document;
      document := seq(|doc|, i requires 0 <= i < |doc| => doc[i].(dependents := []));
      for i := 0 to |document|
        invariant SameCore(before, document)
        invariant forall j :: 0 <= j < |document| ==>
                    ListsDependents(document[j].dependents, before, before[j].path, i, 0)
      {
        for k := 0 to |document[i].dependencies|
          invariant SameCore(before, document)
          invariant forall j :: 0 <= j < |document| ==>
                      ListsDependents(document[j].dependents, before, before[j].path, i, k)
        {
          AddDependent(i, k, before);
        }
      }
      assert ShapeOf(document) == ShapeOf(before);
      for i := 0 to |document|
        invariant SameCore(before, document)
        invariant forall j :: 0 <= j < i ==> SortedBy(document[j].dependents, Leq)
        invariant forall j :: 0 <= j < |document| ==>
                    ListsDependents(document[j].dependents, before, before[j].path, |document|, 0)
      {
        SortPathsSorted(document[i].dependents);
        PermutationKeepsListing(document[i].dependents, SortPaths(document[i].dependents), before, before[i].path);
        document := document[i := document[i].(dependents := SortPaths(document[i].dependents))];
      }
      FullListingIsExact(before, document);
    }

    /** Enters artifact `i` under its `k`-th dependency, if that is registered and does not list it yet. */
    method AddDependent(i: nat, k: nat, ghost before: Document)
      requires UniquePaths(before) && SameCore(before, document)
      requires i < |document| && k < |document[i].dependencies|
      requires forall j :: 0 <= j < |document| ==>
                 ListsDependents(document[j].dependents, before, before[j].path, i, k)
      modifies this`document
      ensures SameCore(before, document)
      ensures forall j :: 0 <= j < |document| ==>
                ListsDependents(document[j].dependents, before, before[j].path, i, k + 1)
    {
      var dependency := document[i].dependencies[k];
      var d := IndexOf(document, dependency);
      if d < |document| && document[i].path !in document[d].dependents {
        document := document[d := document[d].(dependents := document[d].dependents + [document[i].path])];
      }
      forall j | 0 <= j < |document|
        ensures ListsDependents(document[j].dependents, before, before[j].path, i, k + 1)
      {
        ListingNext(old(document[j].dependents), document[j].dependents, before, before[j].path, i, k);
      }
    }

    /** `save`: persists the document and rebuilds the ADG with `build_graph`. */
    method Save()
      requires UniquePaths(document)
      modifies this`nodes, this`edges
      ensures NodesExact(document, nodes) && EdgesExact(document, edges)
    {
      var order := SortPaths(AllPaths(document));
      SortPathsKeeps(AllPaths(document));
      var listed := NodesInOrder(order);
      var built: seq<Edge> := [];
      for i := 0 to |order|
        invariant forall e :: e in built <==> e.target in order[..i] && EdgeOf(document, e)
      {
        assert order[i] in order;
        var into := EdgesInto(order[i]);
        built := built + into;
      }
      nodes, edges := listed, built;
      assert order[..|order|] == order;
      EdgesListedAreExact(document, edges);
    }

    /** The ADG nodes, in the order of their paths. */
    method NodesInOrder(order: seq<Path>) returns (listed: seq<GraphNode>)
      requires UniquePaths(document) && order == SortPaths(AllPaths(document))
      ensures NodesExact(document, listed)
    {
      SortPathsKeeps(AllPaths(document));
      listed := [];
      for i := 0 to |order|
        invariant |listed| == i
        invariant forall j :: 0 <= j < i ==> ListedNode(document, order[j], listed[j])
      {
        assert order[i] in order;
        var a := IndexOf(document, order[i]);
        assert document[a] in document;
        listed := listed + [NodeOf(document[a])];
      }
      NodesListedAreExact(document, order, listed);
    }

    /** The ADG edges that end in the artifact registered under `target`. */
    method EdgesInto(target: Path) returns (into: seq<Edge>)
      requires UniquePaths(document) && target in Paths(document)
      ensures forall e :: e in into <==> e.target == target && EdgeOf(document, e)
    {
      var a := IndexOf(document, target);
      var dependencies := SortPaths(document[a].dependencies);
      SortPathsKeeps(document[a].dependencies);
      var registered := Paths(document);
      into := [];
      for k := 0 to |dependencies|
        invariant forall e :: e in into <==>
                    e.target == target && e.source in dependencies[..k] && e.source in registered
      {
        if dependencies[k] in registered {
          into := into + [Edge(dependencies[k], document[a].path)];
        }
      }
      assert dependencies[..|dependencies|] == dependencies;
      forall e: Edge | e.target == target
        ensures EdgeOf(document, e) <==> e.source in dependencies && e.source in registered
      {
        assert Lists(document, a, target, e.source) <==> e.source in dependencies;
        assert forall i :: Lists(document, i, target, e.source) ==> i == a;
      }
    }
  }

  ghost predicate ListedNode(doc: Document, path: Path, n: GraphNode) {
    n.path == path && exists a :: a in doc && NodeOf(a) == n
  }

  lemma NodesListedAreExact(doc: Document, order: seq<Path>, listed: seq<GraphNode>)
    requires UniquePaths(doc) && order == SortPaths(AllPaths(doc)) && |listed| == |order|
    requires forall j :: 0 <= j < |order| ==> ListedNode(doc, order[j], listed[j])
    ensures NodesExact(doc, listed)
  {
    SortPathsSorted(AllPaths(doc));
    NoDuplicatesByCount(AllPaths(doc));
    NoDuplicatesByCount(order);
    forall a | a in doc ensures NodeOf(a) in listed {
      assert a.path in order;
      var j :| 0 <= j < |order| && order[j] == a.path;
      var b :| b in doc && NodeOf(b) == listed[j];
      assert a == b;
    }
  }

  /** Source and target are registered and the target lists the source. */
  ghost predicate EdgeOf(doc: Document, e: Edge) {
    e.source in Paths(doc) && exists i :: Lists(doc, i, e.target, e.source)
  }

  /** `listed` holds, once each, the paths of the artifacts before position (`i`, `k`) that depend on `path`. */
  ghost predicate ListsDependents(listed: seq<Path>, doc: Document, path: Path, i: int, k: int) {
    && NoDuplicates(listed)
    && forall p :: p in listed <==> exists n :: Entered(doc, n, path, i, k) && doc[n].path == p
  }

  /** Artifact `n` lists `path` among the entries already gone through. */
  ghost predicate Entered(doc: Document, n: int, path: Path, i: int, k: int) {
    && 0 <= n < |doc|
    && ((n < i && path in doc[n].dependencies) ||
        (n == i && 0 <= k <= |doc[i].dependencies| && path in doc[i].dependencies[..k]))
  }

  /** What one more dependency entry adds to a listing. */
  lemma ListingNext(listed: seq<Path>, more: seq<Path>, doc: Document, path: Path, i: nat, k: nat)
    requires i < |doc| && k < |doc[i].dependencies| && ListsDependents(listed, doc, path, i, k)
    requires more == if doc[i].dependencies[k] == path && doc[i].path !in listed then listed + [doc[i].path] else listed
    ensures ListsDependents(more, doc, path, i, k + 1)
  {
    var deps := doc[i].dependencies;
    assert deps[..k + 1] == deps[..k] + [deps[k]];
    forall n ensures Entered(doc, n, path, i, k + 1) <==> Entered(doc, n, path, i, k) || (n == i && deps[k] == path) {}
  }

  lemma {:induction false} NoDuplicatesByCount<T>(xs: seq<T>)
    ensures NoDuplicates(xs) <==> forall x :: x in xs ==> multiset(xs)[x] == 1
  {
    if xs != [] {
      var last, front := xs[|xs| - 1], xs[..|xs| - 1];
      assert xs == front + [last];
      assert multiset(xs) == multiset(front) + multiset{last};
      NoDuplicatesByCount(front);
      if NoDuplicates(xs) {
        assert last !in front;
        assert NoDuplicates(front);
      }
      if forall x :: x in xs ==> multiset(xs)[x] == 1 {
        assert last in xs && last !in front;
        assert forall x :: x in front ==> x in xs && multiset(front)[x] == 1;
      }
    }
  }

  lemma PermutationKeepsListing(listed: seq<Path>, sorted: seq<Path>, doc: Document, path: Path)
    requires ListsDependents(listed, doc, path, |doc|, 0) && multiset(sorted) == multiset(listed)
    ensures ListsDependents(sorted, doc, path, |doc|, 0)
  {
    assert forall p :: p in sorted <==> p in multiset(sorted);
    assert forall p :: p in listed <==> p in multiset(listed);
    NoDuplicatesByCount(listed);
    NoDuplicatesByCount(sorted);
  }

  lemma FullListingIsExact(before: Document, doc: Document)
    requires SameCore(before, doc)
    requires forall j :: 0 <= j < |doc| ==>
               SortedBy(doc[j].dependents, Leq) && ListsDependents(doc[j].dependents, before, before[j].path, |doc|, 0)
    ensures DependentsExact(doc)
  {
    assert forall i :: 0 <= i < |doc| ==> Core(doc[i]) == Core(before[i]);
    SameShapeSameGraph(before, doc);
    forall j, p | 0 <= j < |doc|
      ensures p in doc[j].dependents <==> p in DependentsOf(ShapeOf(doc), doc[j].path)
    {
      DependentsByIndex(before, before[j].path, p);
      if n :| Lists(before, n, p, before[j].path) {
        assert Entered(before, n, before[j].path, |doc|, 0);
      }
      if n :| Entered(before, n, before[j].path, |doc|, 0) && before[n].path == p {
        assert Lists(before, n, p, before[j].path);
      }
    }
  }

  lemma RegisterKeepsPathsUnique(
    doc: Document, disk: Disk, path: Path, stageId: Option<string>, dependencies: seq<Path>)
    requires UniquePaths(doc)
    ensures UniquePaths(RegisterSpec(doc, disk, path, stageId, dependencies))
  {
  }

  /** The registered record, wherever it is in the document, holds what is on the disk. */
  lemma RegisterTakesSnapshot(doc: Document, disk: Disk, path: Path, stageId: Option<string>, dependencies: seq<Path>)
    ensures var after := RegisterSpec(doc, disk, path, stageId, dependencies); var i := IndexOf(doc, path);
            && i < |after| && after[i].path == path && Snapshotted(after[i], disk)
            && after[i].status == if path in disk then Fresh else Missing
  {
  }

  ghost predicate ClosedUnderDependents(doc: Document, reach: iset<Path>) {
    forall i, v :: 0 <= i < |doc| && v in reach && v in doc[i].dependencies ==> doc[i].path in reach
  }

  ghost predicate StaleStays(before: Document, after: Document) {
    |after| == |before| && forall i :: 0 <= i < |before| && before[i].status == Stale ==> after[i].status == Stale
  }

  /**
   * Holds throughout a marking: only statuses change, only below visited paths, and all finished visits are complete.
   */
  ghost predicate MarkInvariant(
    before: Document, doc: Document, reach: iset<Path>, visited: set<Path>, stack: set<Path>)
  {
    && |doc| == |before|
    && stack <= visited
    && (forall v :: v in visited ==> v in reach)
    && (forall i :: 0 <= i < |doc| ==> doc[i] == before[i].(status := doc[i].status))
    && (forall i :: 0 <= i < |doc| ==>
          doc[i].status == before[i].status || (doc[i].status == Stale && Below(before[i], visited)))
    && (forall i, v :: 0 <= i < |doc| && v in visited && v !in stack && v in before[i].dependencies ==>
          doc[i].status == Stale && before[i].path in visited)
  }

  ghost predicate Below(a: Artifact, visited: set<Path>) {
    exists v :: v in visited && v in a.dependencies
  }

  ghost function ReachFrom(doc: Document, path: Path): iset<Path> {
    iset p: Path | Reachable(Down(doc), {path}, p)
  }

  lemma DependentIsSuccessor(doc: Document, i: int, v: Path)
    requires 0 <= i < |doc| && v in doc[i].dependencies
    ensures v in Down(doc) && doc[i].path in Down(doc)[v]
  {
    var shape := ShapeOf(doc);
    assert shape[i] in shape;
  }

  lemma ReachIsClosed(doc: Document, path: Path)
    ensures path in ReachFrom(doc, path) && ClosedUnderDependents(doc, ReachFrom(doc, path))
  {
    SeedReachable(Down(doc), {path}, path);
    forall i, v | 0 <= i < |doc| && v in ReachFrom(doc, path) && v in doc[i].dependencies
      ensures doc[i].path in ReachFrom(doc, path)
    {
      DependentIsSuccessor(doc, i, v);
      ReachStep(Down(doc), {path}, v, doc[i].path);
    }
  }

  /** Every artifact below `path` is stale, every other status is untouched. */
  ghost predicate StaleBelow(before: Document, path: Path, after: Document) {
    && |after| == |before|
    && forall x :: 0 <= x < |before| ==>
         var hit := Downstream(Down(before), path, before[x].path);
         after[x] == before[x].(status := if hit then Stale else before[x].status)
  }

  lemma VisitedIsReachable(before: Document, path: Path, doc: Document, visited: set<Path>)
    requires MarkInvariant(before, doc, ReachFrom(before, path), visited, {}) && path in visited
    ensures forall p :: p in visited <==> Reachable(Down(before), {path}, p)
  {
    var g := Down(before);
    forall v, q | v in visited && v in g && q in g[v] ensures q in visited {
      DependentsByIndex(before, v, q);
      var i :| Lists(before, i, q, v);
    }
    ClosedIsReachable(g, {path}, visited);
  }

  lemma BelowIsStale(before: Document, doc: Document, reach: iset<Path>, visited: set<Path>, x: int)
    requires MarkInvariant(before, doc, reach, visited, {}) && 0 <= x < |doc|
    ensures doc[x].status == if Below(before[x], visited) then Stale else before[x].status
  {
  }

  lemma MarkingIsDownstream(before: Document, path: Path, doc: Document, visited: set<Path>)
    requires UniquePaths(before)
    requires MarkInvariant(before, doc, ReachFrom(before, path), visited, {}) && path in visited
    ensures StaleBelow(before, path, doc)
  {
    VisitedIsReachable(before, path, doc, visited);
    forall x | 0 <= x < |doc|
      ensures doc[x].status == if Downstream(Down(before), path, before[x].path) then Stale else before[x].status
    {
      BelowIsDownstream(before, path, visited, x);
      BelowIsStale(before, doc, ReachFrom(before, path), visited, x);
    }
  }

  lemma RootIsFresh(before: Document, path: Path, marked: Document, after: Document)
    requires UniquePaths(before) && StaleBelow(before, path, marked)
    requires var i := IndexOf(marked, path);
             after == if i < |marked| && marked[i].status != Missing
                      then marked[i := marked[i].(status := Fresh)] else marked
    ensures MarkedFrom(before, path, after)
  {
  }

  lemma BelowIsDownstream(doc: Document, path: Path, visited: set<Path>, x: int)
    requires UniquePaths(doc) && 0 <= x < |doc|
    requires forall p :: p in visited <==> Reachable(Down(doc), {path}, p)
    ensures Below(doc[x], visited) <==> Downstream(Down(doc), path, doc[x].path)
  {
    var g := Down(doc);
    if v :| v in visited && v in doc[x].dependencies {
      DependentIsSuccessor(doc, x, v);
    }
    if q :| q in g && doc[x].path in g[q] && Reachable(g, {path}, q) {
      DependentsByIndex(doc, q, doc[x].path);
      var i :| Lists(doc, i, doc[x].path, q);
    }
  }

  lemma EdgesListedAreExact(doc: Document, edges: seq<Edge>)
    requires forall e :: e in edges <==> e.target in Paths(doc) && EdgeOf(doc, e)
    ensures EdgesExact(doc, edges)
  {
    RegisteredAreDocumentPaths(doc);
    forall e
      ensures e in edges <==>
                e.source in Registered(ShapeOf(doc)) && e.target in DependentsOf(ShapeOf(doc), e.source)
    {
      DependentsByIndex(doc, e.source, e.target);
      if EdgeOf(doc, e) {
        var i :| Lists(doc, i, e.target, e.source);
        assert doc[i] in doc;
      }
    }
  }
}
