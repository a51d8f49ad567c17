/** Walks and distances in finite directed graphs that may hold cycles. */
module Graphs {

  type Path = string

  /** Successors of each known node; a node outside the map has none. */
  type Graph = map<Path, set<Path>>

  /** Some walk of exactly `n` edges leads from a seed to `p`. */
  ghost predicate WalkTo(g: Graph, seeds: set<Path>, p: Path, n: nat)
    decreases n
  {
    if n == 0 then p in seeds
    else exists q :: q in g && p in g[q] && WalkTo(g, seeds, q, n - 1)
  }

  ghost predicate Reachable(g: Graph, seeds: set<Path>, p: Path) {
    exists n: nat :: WalkTo(g, seeds, p, n)
  }

  /** The shortest walk from any seed to `p` has `k` edges. */
  ghost predicate AtDistance(g: Graph, seeds: set<Path>, p: Path, k: nat) {
    WalkTo(g, seeds, p, k) && forall j: nat :: j < k ==> !WalkTo(g, seeds, p, j)
  }

  /** Reached from `start` over at least one edge: a node is its own successor only on a cycle. */
  ghost predicate Downstream(g: Graph, start: Path, p: Path) {
    exists q :: q in g && p in g[q] && Reachable(g, {start}, q)
  }

  ghost predicate Closed(g: Graph, nodes: set<Path>) {
    forall p, q :: p in nodes && p in g && q in g[p] ==> q in nodes
  }

  lemma WalkStep(g: Graph, seeds: set<Path>, q: Path, n: nat, p: Path)
    requires WalkTo(g, seeds, q, n) && q in g && p in g[q]
    ensures WalkTo(g, seeds, p, n + 1)
  {
  }

  lemma ReachStep(g: Graph, seeds: set<Path>, q: Path, p: Path)
    requires Reachable(g, seeds, q) && q in g && p in g[q]
    ensures Reachable(g, seeds, p)
  {
    var n: nat :| WalkTo(g, seeds, q, n);
    assert WalkTo(g, seeds, p, n + 1);
  }

  lemma SeedReachable(g: Graph, seeds: set<Path>, p: Path)
    requires p in seeds
    ensures Reachable(g, seeds, p)
  {
    assert WalkTo(g, seeds, p, 0);
  }

  /** A closed set that holds the seeds holds everything reachable. */
  lemma {:induction false} WalkStaysInside(g: Graph, seeds: set<Path>, nodes: set<Path>, p: Path, n: nat)
    requires seeds <= nodes && Closed(g, nodes) && WalkTo(g, seeds, p, n)
    ensures p in nodes
    decreases n
  {
    if n > 0 {
      var q :| q in g && p in g[q] && WalkTo(g, seeds, q, n - 1);
      WalkStaysInside(g, seeds, nodes, q, n - 1);
    }
  }

  /** A closed set of reachable nodes that holds the seeds is the reachable set. */
  lemma ClosedIsReachable(g: Graph, seeds: set<Path>, nodes: set<Path>)
    requires seeds <= nodes && Closed(g, nodes)
    requires forall p :: p in nodes ==> Reachable(g, seeds, p)
    ensures forall p :: p in nodes <==> Reachable(g, seeds, p)
  {
    forall p | Reachable(g, seeds, p) ensures p in nodes {
      var n: nat :| WalkTo(g, seeds, p, n);
      WalkStaysInside(g, seeds, nodes, p, n);
    }
  }

  /** Every edge out of a labelled node leads to a label at most one larger. */
  ghost predicate Relaxed(g: Graph, labels: map<Path, nat>, p: Path) {
    p in labels && p in g ==> forall q :: q in g[p] ==> q in labels && labels[q] <= labels[p] + 1
  }

  /** Labels relaxed on every edge bound every walk from below. */
  lemma {:induction false} RelaxedBoundsWalks(g: Graph, seeds: set<Path>, labels: map<Path, nat>, p: Path, n: nat)
    requires forall s :: s in seeds ==> s in labels && labels[s] == 0
    requires forall q :: Relaxed(g, labels, q)
    requires WalkTo(g, seeds, p, n)
    ensures p in labels && labels[p] <= n
    decreases n
  {
    if n > 0 {
      var q :| q in g && p in g[q] && WalkTo(g, seeds, q, n - 1);
      RelaxedBoundsWalks(g, seeds, labels, q, n - 1);
      assert Relaxed(g, labels, q);
    }
  }

  /** Labels that are walk lengths, relaxed on every edge, are shortest distances of exactly the reachable nodes. */
  lemma RelaxedLabelsAreDistances(g: Graph, seeds: set<Path>, labels: map<Path, nat>)
    requires forall s :: s in seeds ==> s in labels && labels[s] == 0
    requires forall q :: Relaxed(g, labels, q)
    requires forall p :: p in labels ==> WalkTo(g, seeds, p, labels[p])
    ensures forall p :: p in labels <==> Reachable(g, seeds, p)
    ensures forall p :: p in labels ==> AtDistance(g, seeds, p, labels[p])
  {
    forall p, n: nat | WalkTo(g, seeds, p, n) ensures p in labels && labels[p] <= n {
      RelaxedBoundsWalks(g, seeds, labels, p, n);
    }
  }

  lemma {:induction false} WalkStartsAtSomeSeed(g: Graph, seeds: set<Path>, p: Path, n: nat) returns (s: Path)
    requires WalkTo(g, seeds, p, n)
    ensures s in seeds && WalkTo(g, {s}, p, n)
    decreases n
  {
    if n == 0 {
      s := p;
    } else {
      var q :| q in g && p in g[q] && WalkTo(g, seeds, q, n - 1);
      s := WalkStartsAtSomeSeed(g, seeds, q, n - 1);
    }
  }

  lemma {:induction false} WalkFromMoreSeeds(g: Graph, fewer: set<Path>, seeds: set<Path>, p: Path, n: nat)
    requires fewer <= seeds && WalkTo(g, fewer, p, n)
    ensures WalkTo(g, seeds, p, n)
    decreases n
  {
    if n > 0 {
      var q :| q in g && p in g[q] && WalkTo(g, fewer, q, n - 1);
      WalkFromMoreSeeds(g, fewer, seeds, q, n - 1);
    }
  }

  /** What several seeds reach is the seeds themselves plus what lies downstream of each. */
  lemma ReachableIsUnionOfDownstream(g: Graph, seeds: set<Path>, p: Path)
    ensures Reachable(g, seeds, p) <==> p in seeds || exists s :: s in seeds && Downstream(g, s, p)
  {
    if Reachable(g, seeds, p) && p !in seeds {
      var n: nat :| WalkTo(g, seeds, p, n);
      var s := WalkStartsAtSomeSeed(g, seeds, p, n);
      var q :| q in g && p in g[q] && WalkTo(g, {s}, q, n - 1);
      assert Reachable(g, {s}, q);
      assert Downstream(g, s, p);
    }
    if p in seeds {
      SeedReachable(g, seeds, p);
    } else if s :| s in seeds && Downstream(g, s, p) {
      var q :| q in g && p in g[q] && Reachable(g, {s}, q);
      var n: nat :| WalkTo(g, {s}, q, n);
      WalkFromMoreSeeds(g, {s}, seeds, q, n);
      assert Reachable(g, seeds, q);
      ReachStep(g, seeds, q, p);
    }
  }
}
