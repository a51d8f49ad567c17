/** Rework planning: what a stage's artifacts affect downstream, and marking it for rework. */
module Planner {
  import opened Common
  import opened Graphs
  import opened Artifacts
  import opened Ordering
  import opened Staleness
  import opened Registry

  datatype TicketStatus = Open | Approved | InProgress | Resolved | Rejected

  datatype Ticket = Ticket(
    ticketId: string, status: TicketStatus, reason: string,
    sourceStageId: string, targetStageId: string, affected: seq<Path>)

  /** The graph spelled out by the stored `dependents` lists. */
  ghost function ListedGraph(doc: Document): Graph {
    map p | p in Paths(doc) :: ListedAt(doc, p)
  }

  ghost function ListedAt(doc: Document, p: Path): set<Path> {
    var i := IndexOf(doc, p);
    if i < |doc| then set d | d in doc[i].dependents else {}
  }

  ghost function SeedSet(doc: Document, stageId: string): set<Path> {
    set p | p in OwnPaths(doc, stageId)
  }

  /** Everything seen is closed under `dependents`, except at paths still waiting. */
  ghost predicate ClosedExcept(doc: Document, affected: set<Path>, waiting: seq<Path>) {
    forall p, d :: p in affected && p !in waiting && d in ListedAt(doc, p) ==> d in affected
  }

  ghost function AllNames(doc: Document): set<Path> {
    Paths(doc) + set a, d | a in doc && d in a.dependents :: d
  }

  /** The breadth-first closure in `_get_affected_artifacts`. */
  method AffectedPaths(doc: Document, targetStageId: string) returns (affected: set<Path>)
    ensures forall p :: p in affected <==> Reachable(ListedGraph(doc), SeedSet(doc, targetStageId), p)
  {
    var queue := OwnPaths(doc, targetStageId);
    affected := set p | p in queue;
    ghost var seeds := affected;
    ghost var reach := iset p: Path | Reachable(ListedGraph(doc), seeds, p);
    forall p | p in seeds ensures p in reach { SeedReachable(ListedGraph(doc), seeds, p); }
    while queue != []
      invariant seeds <= affected <= AllNames(doc)
      invariant forall p :: p in affected ==> p in reach
      invariant forall p :: p in queue ==> p in affected
      invariant ClosedExcept(doc, affected, queue)
      decreases AllNames(doc) - affected, |queue|
    {
      var current := queue[0];
      affected, queue := AddDependents(doc, current, affected, queue, reach, seeds);
    }
    ListedClosureIsReachable(doc, seeds, affected);
  }

  /** One turn of the loop: pops `current` and enqueues its dependents that were not yet affected. */
  method AddDependents(doc: Document, current: Path, affected: set<Path>, queue: seq<Path>,
                       ghost reach: iset<Path>, ghost seeds: set<Path>)
    returns (more: set<Path>, rest: seq<Path>)
    requires queue != [] && queue[0] == current && current in affected
    requires affected <= AllNames(doc)
    requires reach == iset p: Path | Reachable(ListedGraph(doc), seeds, p)
    requires forall p :: p in affected ==> p in reach
    requires forall p :: p in queue ==> p in affected
    requires ClosedExcept(doc, affected, queue)
    ensures affected <= more <= AllNames(doc)
    ensures forall p :: p in more ==> p in reach
    ensures forall p :: p in rest ==> p in more
    ensures ClosedExcept(doc, more, rest)
    ensures more == affected ==> |rest| < |queue|
  {
    more, rest := affected, queue[1..];
    var i := IndexOf(doc, current);
    if i < |doc| {
      more, rest := EnqueueNew(doc[i].dependents, affected, queue[1..]);
    }
    TurnKeepsClosure(doc, current, affected, queue, more, rest);
    forall p | p in more ensures p in reach && p in AllNames(doc) {
      if p !in affected {
        assert doc[i] in doc && p in doc[i].dependents;
        ListedStep(doc, seeds, current, p);
      }
    }
  }

  /** The inner loop: adds to the set, and to the end of the queue, what the set does not hold yet. */
  method EnqueueNew(dependents: seq<Path>, affected: set<Path>, queue: seq<Path>)
    returns (more: set<Path>, rest: seq<Path>)
    ensures more == affected + set d | d in dependents
    ensures queue <= rest && forall p :: p in rest ==> p in queue || p in more
    ensures forall p :: p in more ==> p in affected || p in rest
    ensures more == affected ==> rest == queue
  {
    more, rest := affected, queue;
    for k := 0 to |dependents|
      invariant more == affected + set d | d in dependents[..k]
      invariant queue <= rest && forall p :: p in rest ==> p in queue || p in more
      invariant forall p :: p in more ==> p in affected || p in rest
      invariant more == affected ==> rest == queue
    {
      if dependents[k] !in more {
        more := more + {dependents[k]};
        rest := rest + [dependents[k]];
      }
    }
    assert dependents[..|dependents|] == dependents;
  }

  lemma TurnKeepsClosure(
    doc: Document, current: Path, affected: set<Path>, queue: seq<Path>, more: set<Path>, rest: seq<Path>)
    requires queue != [] && queue[0] == current && ClosedExcept(doc, affected, queue)
    requires more == affected + ListedAt(doc, current)
    requires queue[1..] <= rest && forall p :: p in more ==> p in affected || p in rest
    ensures ClosedExcept(doc, more, rest)
  {
    forall p, d | p in more && p !in rest && d in ListedAt(doc, p) ensures d in more {
      if p != current {
        assert p !in queue by { assert queue == [current] + queue[1..]; }
      }
    }
  }

  lemma ListedStep(doc: Document, seeds: set<Path>, q: Path, p: Path)
    requires Reachable(ListedGraph(doc), seeds, q) && p in ListedAt(doc, q)
    ensures Reachable(ListedGraph(doc), seeds, p)
  {
    assert doc[IndexOf(doc, q)] in doc;
    ReachStep(ListedGraph(doc), seeds, q, p);
  }

  lemma ListedClosureIsReachable(doc: Document, seeds: set<Path>, affected: set<Path>)
    requires seeds <= affected && ClosedExcept(doc, affected, [])
    requires forall p :: p in affected ==> Reachable(ListedGraph(doc), seeds, p)
    ensures forall p :: p in affected <==> Reachable(ListedGraph(doc), seeds, p)
  {
    ClosedIsReachable(ListedGraph(doc), seeds, affected);
  }

  /** When the lists are exact, the listed graph and the dependency lists reach the same paths. */
  lemma ListedReachIsDownstreamReach(doc: Document, seeds: set<Path>, p: Path)
    requires UniquePaths(doc) && DependentsExact(doc) && seeds <= Paths(doc)
    ensures Reachable(ListedGraph(doc), seeds, p) <==> Reachable(Down(doc), seeds, p)
  {
    forall q, r | q in Paths(doc) ensures r in ListedAt(doc, q) <==> r in DependentsOf(ShapeOf(doc), q) {
      var i := IndexOf(doc, q);
    }
    RegisteredAreDocumentPaths(doc);
    assert forall q :: q in Paths(doc) ==> ListedGraph(doc)[q] == Down(doc)[q];
    if n: nat :| WalkTo(ListedGraph(doc), seeds, p, n) {
      SameWalks(doc, seeds, ListedGraph(doc), Down(doc), p, n);
    }
    if n: nat :| WalkTo(Down(doc), seeds, p, n) {
      SameWalks(doc, seeds, Down(doc), ListedGraph(doc), p, n);
    }
  }

  lemma {:induction false} SameWalks(doc: Document, seeds: set<Path>, g: Graph, h: Graph, p: Path, n: nat)
    requires seeds <= Paths(doc)
    requires forall q :: q in Paths(doc) ==> q in g && q in h && g[q] == h[q] && g[q] <= Paths(doc)
    requires WalkTo(g, seeds, p, n)
    ensures p in Paths(doc) && WalkTo(h, seeds, p, n)
    decreases n
  {
    if n > 0 {
      var q :| q in g && p in g[q] && WalkTo(g, seeds, q, n - 1);
      SameWalks(doc, seeds, g, h, q, n - 1);
    }
  }

  /** The affected paths: the stage's own artifacts and everything that marking each of them would make stale. */
  lemma AffectedIsStageAndDownstream(doc: Document, stageId: string, p: Path)
    requires UniquePaths(doc) && DependentsExact(doc)
    ensures Reachable(ListedGraph(doc), SeedSet(doc, stageId), p) <==>
              p in SeedSet(doc, stageId) || exists s :: s in SeedSet(doc, stageId) && Downstream(Down(doc), s, p)
  {
    ListedReachIsDownstreamReach(doc, SeedSet(doc, stageId), p);
    ReachableIsUnionOfDownstream(Down(doc), SeedSet(doc, stageId), p);
  }

  /** `sorted` on a set. */
  method SortedElements(s: set<string>) returns (xs: seq<string>)
    ensures SortedBy(xs, Leq) && NoDuplicates(xs) && forall x :: x in xs <==> x in s
  {
    var rest, listed := s, [];
    while rest != {}
      invariant NoDuplicates(listed) && rest <= s && forall x :: x in listed <==> x in s - rest
      decreases rest
    {
      var x :| x in rest;
      assert x !in listed;
      listed, rest := listed + [x], rest - {x};
    }
    xs := SortPaths(listed);
    SortPathsSorted(listed);
    NoDuplicatesByCount(listed);
    NoDuplicatesByCount(xs);
  }

  /** `_get_affected_artifacts`: affected paths and the other stages they belong to, both sorted. */
  method GetAffectedArtifacts(doc: Document, targetStageId: string) returns (paths: seq<Path>, stages: seq<string>)
    ensures SortedBy(paths, Leq) && NoDuplicates(paths) && SortedBy(stages, Leq) && NoDuplicates(stages)
    ensures forall p :: p in paths <==> Reachable(ListedGraph(doc), SeedSet(doc, targetStageId), p)
    ensures UniquePaths(doc) && DependentsExact(doc) ==>
              forall p :: p in paths <==>
                p in SeedSet(doc, targetStageId) ||
                exists s :: s in SeedSet(doc, targetStageId) && Downstream(Down(doc), s, p)
    ensures forall stage :: stage in stages <==>
              stage != targetStageId && exists a :: a in doc && a.path in paths && a.stageId == Some(stage)
  {
    var affected := AffectedPaths(doc, targetStageId);
    paths := SortedElements(affected);
    var others := set a | a in doc && a.path in affected && a.stageId.Some? && a.stageId.value != targetStageId ::
                    a.stageId.value;
    stages := SortedElements(others);
    forall p | UniquePaths(doc) && DependentsExact(doc)
      ensures p in paths <==>
                p in SeedSet(doc, targetStageId) ||
                exists s :: s in SeedSet(doc, targetStageId) && Downstream(Down(doc), s, p)
    {
      AffectedIsStageAndDownstream(doc, targetStageId, p);
    }
  }

  /** Position of the first ticket with this id, or the number of tickets. */
  function FindTicket(tickets: seq<Ticket>, ticketId: string): (i: nat)
    ensures i <= |tickets|
    ensures i < |tickets| ==> tickets[i].ticketId == ticketId
    ensures forall j :: 0 <= j < i ==> tickets[j].ticketId != ticketId
    ensures i == |tickets| ==> forall t :: t in tickets ==> t.ticketId != ticketId
  {
    if tickets == [] || tickets[0].ticketId == ticketId then 0
    else
      var i := FindTicket(tickets[1..], ticketId);
      assert forall j :: 0 < j < i + 1 ==> tickets[j] == tickets[1..][j - 1];
      i + 1
  }

  /** The document with every affected artifact stale. */
  function Reworked(doc: Document, affected: seq<Path>): Document {
    seq(|doc|, i requires 0 <= i < |doc| =>
      if doc[i].path in affected then doc[i].(status := Stale) else doc[i])
  }

  /** The document with every stale affected artifact fresh again. */
  function Cleared(doc: Document, affected: seq<Path>): Document {
    seq(|doc|, i requires 0 <= i < |doc| =>
      if doc[i].path in affected && doc[i].status == Stale then doc[i].(status := Fresh) else doc[i])
  }

  class ReworkPlanner {
    const registry: ArtifactRegistry
    var tickets: seq<Ticket>

    constructor (registry: ArtifactRegistry)
      ensures this.registry == registry && tickets == []
    {
      this.registry := registry;
      tickets := [];
    }

    method CreateBacktrackTicket(ticketId: string, reason: string, sourceStageId: string, targetStageId: string)
      requires registry.Valid()
      modifies this`tickets
      ensures |tickets| == |old(tickets)| + 1 && tickets[..|old(tickets)|] == old(tickets)
      ensures var t := tickets[|old(tickets)|]; var doc := registry.document;
              && t == Ticket(ticketId, Open, reason, sourceStageId, targetStageId, t.affected)
              && forall p :: p in t.affected <==>
                   p in SeedSet(doc, targetStageId) ||
                   exists s :: s in SeedSet(doc, targetStageId) && Downstream(Down(doc), s, p)
    {
      var affected, stages := GetAffectedArtifacts(registry.document, targetStageId);
      tickets := tickets + [Ticket(ticketId, Open, reason, sourceStageId, targetStageId, affected)];
    }

    method ApproveTicket(ticketId: string) returns (done: bool)
      modifies this`tickets
      ensures var i := FindTicket(old(tickets), ticketId);
              && done == (i < |old(tickets)|)
              && tickets == if done then old(tickets)[i := old(tickets)[i].(status := Approved)] else old(tickets)
    {
      done := UpdateTicket(ticketId, Approved);
    }

    method UpdateTicket(ticketId: string, status: TicketStatus) returns (done: bool)
      modifies this`tickets
      ensures var i := FindTicket(old(tickets), ticketId);
              && done == (i < |old(tickets)|)
              && tickets == if done then old(tickets)[i := old(tickets)[i].(status := status)] else old(tickets)
    {
      var i := FindTicket(tickets, ticketId);
      if i == |tickets| {
        return false;
      }
      tickets := tickets[i := tickets[i].(status := status)];
      return true;
    }

    /** `run_rework`: only an approved ticket marks its artifacts stale. */
    method RunRework(ticketId: string) returns (done: bool)
      requires registry.Valid()
      modifies this`tickets, registry
      ensures registry.Valid()
      ensures var i := FindTicket(old(tickets), ticketId);
              && (done <==> i < |old(tickets)| && old(tickets)[i].status == Approved)
              && registry.document ==
                   (if done then Reworked(old(registry.document), old(tickets)[i].affected) else old(registry.document))
              && tickets == if done then old(tickets)[i := old(tickets)[i].(status := InProgress)] else old(tickets)
    {
      var i := FindTicket(tickets, ticketId);
      if i == |tickets| || tickets[i].status != Approved {
        return false;
      }
      var affected := tickets[i].affected;
      ghost var before := registry.document;
      for k := 0 to |affected|
        invariant registry.document == Reworked(before, affected[..k]) && tickets == old(tickets)
      {
        var j := IndexOf(registry.document, affected[k]);
        if j < |registry.document| {
          registry.document := registry.document[j := registry.document[j].(status := Stale)];
        }
      }
      assert affected[..|affected|] == affected;
      StatusesDoNotMatter(before, registry.document);
      registry.Save();
      done := UpdateTicket(ticketId, InProgress);
    }

    /** `resolve_ticket`. */
    method ResolveTicket(ticketId: string) returns (done: bool)
      requires registry.Valid()
      modifies this`tickets, registry
      ensures registry.Valid()
      ensures var i := FindTicket(old(tickets), ticketId);
              && (done <==> i < |old(tickets)|)
              && registry.document ==
                   (if done then Cleared(old(registry.document), old(tickets)[i].affected) else old(registry.document))
              && tickets == if done then old(tickets)[i := old(tickets)[i].(status := Resolved)] else old(tickets)
      ensures registry.document == old(registry.document) ==>
                registry.nodes == old(registry.nodes) && registry.edges == old(registry.edges)
    {
      var i := FindTicket(tickets, ticketId);
      if i == |tickets| {
        return false;
      }
      var affected := tickets[i].affected;
      ghost var before := registry.document;
      var changed := false;
      for k := 0 to |registry.document|
        invariant |registry.document| == |before|
        invariant forall j :: 0 <= j < |before| ==>
                    registry.document[j] == if j < k then Cleared(before, affected)[j] else before[j]
        invariant !changed <==> registry.document == before
        invariant registry.nodes == old(registry.nodes) && registry.edges == old(registry.edges)
        invariant tickets == old(tickets)
      {
        var a := registry.document[k];
        if a.path in affected && a.status == Stale {
          registry.document := registry.document[k := a.(status := Fresh)];
          changed := true;
        }
      }
      StatusesDoNotMatter(before, registry.document);
      if changed {
        registry.Save();
      }
      done := UpdateTicket(ticketId, Resolved);
    }
  }

  lemma StatusesDoNotMatter(before: Document, after: Document)
    requires |after| == |before| && forall i :: 0 <= i < |before| ==> after[i] == before[i].(status := after[i].status)
    ensures UniquePaths(before) ==> UniquePaths(after)
    ensures DependentsExact(before) ==> DependentsExact(after)
  {
    SameShapeSameGraph(before, after);
  }

  /** Resolving undoes a rework exactly when everything affected was fresh to begin with. */
  lemma ResolveUndoesReworkIff(doc: Document, affected: seq<Path>)
    ensures Cleared(Reworked(doc, affected), affected) == doc <==>
              forall a :: a in doc && a.path in affected ==> a.status == Fresh
  {
    var after := Cleared(Reworked(doc, affected), affected);
    forall i | 0 <= i < |doc|
      ensures after[i] == if doc[i].path in affected then doc[i].(status := Fresh) else doc[i]
    {
    }
    if forall a :: a in doc && a.path in affected ==> a.status == Fresh {
      assert forall i :: 0 <= i < |doc| ==> doc[i] in doc;
      assert after == doc;
    }
  }

  /**
   * Resolving a rework claims every affected artifact fresh, even one that was missing; the next refresh corrects
   * that.
   */
  lemma ResolvingClaimsFresh(doc: Document, affected: seq<Path>, disk: Disk, x: int)
    requires 0 <= x < |doc| && doc[x].path in affected
    ensures var resolved := Cleared(Reworked(doc, affected), affected);
            && resolved[x].status == Fresh
            && (RefreshStatus(resolved, disk, x) == Missing <==>
                  !Present(disk, doc[x].path) && !HitWithin(resolved, disk, x + 1, |doc|, x))
            && (RefreshStatus(resolved, disk, x) == Fresh ==> Present(disk, doc[x].path))
  {
  }

  /** A rework survives refreshes: an affected artifact stays stale until its file changes or goes missing. */
  lemma ReworkSurvivesRefresh(doc: Document, affected: seq<Path>, disk: Disk, x: int)
    requires 0 <= x < |doc| && doc[x].path in affected
    requires Present(disk, doc[x].path) && !Changed(doc, disk, x)
    ensures RefreshStatus(Reworked(doc, affected), disk, x) == Stale
  {
  }
}
