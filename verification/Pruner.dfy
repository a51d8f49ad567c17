/** Context pruning: ranked candidates, and the greedy choice under a token budget. */
module Choice {
  import opened Graphs
  import opened Artifacts
  import opened Ordering
  import Activation

  datatype Candidate = Candidate(priority: nat, artifact: Artifact)

  /** The sort key `(priority, path)`. */
  predicate RanksBefore(a: Candidate, b: Candidate) {
    a.priority < b.priority || (a.priority == b.priority && Leq(a.artifact.path, b.artifact.path))
  }

  lemma RanksBeforeIsTotalPreorder()
    ensures TotalPreorder(RanksBefore)
  {
    LeqIsTotalPreorder();
  }

  function Activated(doc: Document, priorities: map<Path, nat>): (cands: seq<Candidate>)
    ensures forall c :: c in cands <==>
              c.artifact in doc && c.artifact.path in priorities && c.priority == priorities[c.artifact.path]
  {
    if doc == [] then []
    else
      var a := doc[0];
      assert doc == [a] + doc[1..];
      (if a.path in priorities then [Candidate(priorities[a.path], a)] else []) + Activated(doc[1..], priorities)
  }

  lemma {:induction false} ActivatedOnce(doc: Document, priorities: map<Path, nat>)
    requires UniquePaths(doc)
    ensures NoDuplicates(Activated(doc, priorities))
  {
    if doc != [] {
      assert forall i :: 0 < i < |doc| ==> doc[i] == doc[1..][i - 1];
      ActivatedOnce(doc[1..], priorities);
      assert doc[0] !in doc[1..];
    }
  }

  /** Every registered artifact that activation reaches, once, at its distance, in rank order. */
  ghost predicate IsRanking(doc: Document, stageId: string, cands: seq<Candidate>) {
    var g, seeds := DependencyGraph(ShapeOf(doc)), Activation.Seeds(doc, stageId);
    && InRankOrder(cands) && NoDuplicates(cands)
    && (forall c :: c in cands ==> c.artifact in doc && AtDistance(g, seeds, c.artifact.path, c.priority))
    && (forall a :: a in doc && Reachable(g, seeds, a.path) ==> exists c :: c in cands && c.artifact == a)
  }

  /** Priorities never fall, and equal priorities come in code-point order of their paths. */
  ghost predicate InRankOrder(cands: seq<Candidate>) {
    forall i, j :: 0 <= i < j < |cands| ==>
      && cands[i].priority <= cands[j].priority
      && (cands[i].priority == cands[j].priority ==> Lexicographic(cands[i].artifact.path, cands[j].artifact.path))
  }

  lemma SortedByRankIsInRankOrder(cands: seq<Candidate>)
    requires SortedBy(cands, RanksBefore)
    ensures InRankOrder(cands)
  {
    forall i, j | 0 <= i < j < |cands| && cands[i].priority == cands[j].priority
      ensures Lexicographic(cands[i].artifact.path, cands[j].artifact.path)
    {
      LeqIsLexicographic(cands[i].artifact.path, cands[j].artifact.path);
    }
  }

  /** No candidate comes before one that is strictly nearer to the seeds. */
  lemma NearerComesFirst(doc: Document, stageId: string, cands: seq<Candidate>, i: nat, j: nat, near: nat, far: nat)
    requires IsRanking(doc, stageId, cands) && i < |cands| && j < |cands|
    requires var g, seeds := DependencyGraph(ShapeOf(doc)), Activation.Seeds(doc, stageId);
             && AtDistance(g, seeds, cands[i].artifact.path, near)
             && AtDistance(g, seeds, cands[j].artifact.path, far)
    requires near < far
    ensures i < j
  {
    var g, seeds := DependencyGraph(ShapeOf(doc)), Activation.Seeds(doc, stageId);
    assert cands[i] in cands && cands[j] in cands;
    OneDistance(g, seeds, cands[i].artifact.path, near, cands[i].priority);
    OneDistance(g, seeds, cands[j].artifact.path, far, cands[j].priority);
  }

  lemma OneDistance(g: Graph, seeds: set<Path>, p: Path, k: nat, n: nat)
    requires AtDistance(g, seeds, p, k) && AtDistance(g, seeds, p, n)
    ensures k == n
  {
  }

  /** What the selection loop decides for each candidate, given the tokens already spent. */
  function Choose(cands: seq<Candidate>, budget: nat, spent: nat): (mask: seq<bool>)
    ensures |mask| == |cands|
  {
    if cands == [] then []
    else
      var a := cands[0].artifact;
      var take := a.status == Fresh && spent + a.tokens <= budget;
      [take] + Choose(cands[1..], budget, if take then spent + a.tokens else spent)
  }

  function Cost(cands: seq<Candidate>, mask: seq<bool>): nat
    requires |mask| == |cands|
  {
    if cands == [] then 0
    else (if mask[0] then cands[0].artifact.tokens else 0) + Cost(cands[1..], mask[1..])
  }

  /** The candidates whose mask bit equals `bit`, in order. */
  function Where(cands: seq<Candidate>, mask: seq<bool>, bit: bool): seq<Candidate>
    requires |mask| == |cands|
  {
    if cands == [] then []
    else (if mask[0] == bit then [cands[0]] else []) + Where(cands[1..], mask[1..], bit)
  }

  /** A set of fresh candidates that fits the budget. */
  ghost predicate Feasible(cands: seq<Candidate>, mask: seq<bool>, budget: nat, spent: nat) {
    && |mask| == |cands|
    && (forall i :: 0 <= i < |mask| && mask[i] ==> cands[i].artifact.status == Fresh)
    && spent + Cost(cands, mask) <= budget
  }

  /** `a` takes the first candidate on which the two differ. */
  ghost predicate Before(a: seq<bool>, b: seq<bool>) {
    exists i :: 0 <= i < |a| && i < |b| && a[..i] == b[..i] && a[i] && !b[i]
  }

  lemma {:induction false} ChoiceIsFeasible(cands: seq<Candidate>, budget: nat, spent: nat)
    requires spent <= budget
    ensures Feasible(cands, Choose(cands, budget, spent), budget, spent)
  {
    if cands != [] {
      var mask := Choose(cands, budget, spent);
      var now := if mask[0] then spent + cands[0].artifact.tokens else spent;
      ChoiceIsFeasible(cands[1..], budget, now);
      assert mask[1..] == Choose(cands[1..], budget, now);
      assert forall i :: 0 < i < |mask| ==> mask[i] == mask[1..][i - 1] && cands[i] == cands[1..][i - 1];
    }
  }

  /** Nothing that was left out for its size still fits in what remains of the budget. */
  lemma {:induction false} NoOmittedCandidateFits(cands: seq<Candidate>, budget: nat, spent: nat, i: nat)
    requires i < |cands| && cands[i].artifact.status == Fresh && !Choose(cands, budget, spent)[i]
    ensures spent + Cost(cands, Choose(cands, budget, spent)) + cands[i].artifact.tokens > budget
  {
    var mask := Choose(cands, budget, spent);
    var now := if mask[0] then spent + cands[0].artifact.tokens else spent;
    assert mask[1..] == Choose(cands[1..], budget, now);
    if i > 0 {
      NoOmittedCandidateFits(cands[1..], budget, now, i - 1);
    }
  }

  /** Among all feasible sets of fresh candidates the choice comes first in rank order. */
  lemma {:induction false} ChoiceIsLexicographicallyFirst(
    cands: seq<Candidate>, budget: nat, spent: nat, other: seq<bool>)
    requires Feasible(cands, other, budget, spent) && other != Choose(cands, budget, spent)
    ensures Before(Choose(cands, budget, spent), other)
  {
    var mask := Choose(cands, budget, spent);
    if other[0] != mask[0] {
      assert mask[..0] == other[..0];
    } else {
      var now := if mask[0] then spent + cands[0].artifact.tokens else spent;
      assert other == [other[0]] + other[1..];
      FeasibleTail(cands, other, budget, spent);
      ChoiceIsLexicographicallyFirst(cands[1..], budget, now, other[1..]);
      BeforeExtends(mask, other);
    }
  }

  lemma FeasibleTail(cands: seq<Candidate>, other: seq<bool>, budget: nat, spent: nat)
    requires cands != [] && Feasible(cands, other, budget, spent)
    ensures Feasible(cands[1..], other[1..], budget, spent + if other[0] then cands[0].artifact.tokens else 0)
  {
  }

  lemma BeforeExtends(a: seq<bool>, b: seq<bool>)
    requires a != [] && b != [] && a[0] == b[0] && Before(a[1..], b[1..])
    ensures Before(a, b)
  {
    var x, y := a[1..], b[1..];
    var i :| 0 <= i < |x| && i < |y| && x[..i] == y[..i] && x[i] && !y[i];
    assert a[..i + 1] == [a[0]] + x[..i];
    assert b[..i + 1] == [b[0]] + y[..i];
    assert a[i + 1] && !b[i + 1];
  }

  /** Selected and omitted candidates together are the candidates. */
  lemma {:induction false} ChoicePartitions(cands: seq<Candidate>, mask: seq<bool>)
    requires |mask| == |cands|
    ensures multiset(Where(cands, mask, true)) + multiset(Where(cands, mask, false)) == multiset(cands)
  {
    if cands != [] {
      ChoicePartitions(cands[1..], mask[1..]);
      assert cands == [cands[0]] + cands[1..];
    }
  }
}

module Pruner {
  import opened Common
  import opened Graphs
  import opened Artifacts
  import opened Ordering
  import opened Registry
  import opened RefreshLaws
  import opened Activation
  import opened Choice

  datatype Item = Item(path: Path, priority: nat, tokens: nat, content: string)

  datatype Reason = StatusIs(status: Status) | BudgetExceeded

  datatype Omission = Omission(path: Path, reason: Reason, tokens: nat)

  datatype Selection = Selection(
    stageId: string, budget: nat, total: nat, selected: seq<Item>, omitted: seq<Omission>)

  datatype PrunerError = BudgetNotPositive | CouldNotStat(path: Path)

  /** The item or omission that records candidate `c`. */
  predicate Records(item: Item, c: Candidate) {
    item.path == c.artifact.path && item.priority == c.priority && item.tokens == c.artifact.tokens
  }

  function OmissionOf(c: Candidate): Omission {
    var a := c.artifact;
    Omission(a.path, if a.status != Fresh then StatusIs(a.status) else BudgetExceeded, a.tokens)
  }

  /** The selection says what `Choose` decided for each candidate. */
  ghost predicate SelectionMatches(s: Selection, cands: seq<Candidate>) {
    var mask := Choose(cands, s.budget, 0);
    && s.total == Cost(cands, mask)
    && ListsItems(s.selected, Where(cands, mask, true))
    && ListsOmissions(s.omitted, Where(cands, mask, false))
  }

  ghost predicate ListsItems(items: seq<Item>, cands: seq<Candidate>) {
    |items| == |cands| && forall i :: 0 <= i < |items| ==> Records(items[i], cands[i])
  }

  ghost predicate ListsOmissions(omitted: seq<Omission>, cands: seq<Candidate>) {
    |omitted| == |cands| && forall i :: 0 <= i < |omitted| ==> omitted[i] == OmissionOf(cands[i])
  }

  class ContextPruner {
    const registry: ArtifactRegistry
    ghost const contentOf: (Path, int) -> string  // what was written to a path at a modification time
    var mtimes: map<Path, int>
    var contents: map<Path, string>
    var audit: seq<Selection>

    constructor (registry: ArtifactRegistry, ghost contentOf: (Path, int) -> string)
      ensures this.registry == registry && this.contentOf == contentOf
      ensures CacheTrue() && audit == []
    {
      this.registry := registry;
      this.contentOf := contentOf;
      mtimes, contents, audit := map[], map[], [];
    }

    /** Modification times tell edits apart on this disk. */
    ghost predicate Faithful(disk: Disk) {
      forall p :: p in disk ==> disk[p].content == contentOf(p, disk[p].mtime)
    }

    /** The cache holds what was written at the cached modification times. */
    ghost predicate CacheTrue()
      reads this`mtimes, this`contents
    {
      mtimes.Keys == contents.Keys && forall p :: p in mtimes ==> contents[p] == contentOf(p, mtimes[p])
    }

    method ClearCache()
      modifies this`mtimes, this`contents
      ensures CacheTrue() && mtimes == map[]
    {
      mtimes, contents := map[], map[];
    }

    /** `_read_artifact`. */
    method ReadArtifact(disk: Disk, path: Path) returns (r: Result<string, PrunerError>)
      modifies this`mtimes, this`contents
      ensures r.Ok? <==> Present(disk, path)
      ensures old(CacheTrue()) && Faithful(disk) ==> CacheTrue() && (r.Ok? ==> r.value == disk[path].content)
      ensures r.Err? ==> r.error == CouldNotStat(path) && mtimes == old(mtimes) && contents == old(contents)
    {
      if !Present(disk, path) {
        return Err(CouldNotStat(path));
      }
      var current := disk[path].mtime;
      if path in mtimes && mtimes[path] == current && path in contents {
        return Ok(contents[path]);
      }
      var content := disk[path].content;
      mtimes := mtimes[path := current];
      contents := contents[path := content];
      return Ok(content);
    }

    /** The ranked candidates of a refreshed document. */
    method Rank(doc: Document, stageId: string) returns (cands: seq<Candidate>)
      requires UniquePaths(doc)
      ensures IsRanking(doc, stageId, cands)
    {
      var priorities := SpreadActivationPriorities(doc, stageId);
      var activated := Activated(doc, priorities);
      cands := SortBy(activated, RanksBefore);
      RanksBeforeIsTotalPreorder();
      SortBySorted(activated, RanksBefore);
      SortedByRankIsInRankOrder(cands);
      ActivatedOnce(doc, priorities);
      NoDuplicatesByCount(activated);
      NoDuplicatesByCount(cands);
      forall a | a in doc && a.path in priorities ensures exists c :: c in cands && c.artifact == a {
        assert Candidate(priorities[a.path], a) in cands;
      }
    }

    /** `select`: refresh, rank, then take every fresh candidate that still fits. */
    method Select(disk: Disk, stageId: string, budget: int)
      returns (r: Result<Selection, PrunerError>, ghost cands: seq<Candidate>)
      requires UniquePaths(registry.document)
      modifies this, registry
      ensures budget < 1 ==>
                r == Err(BudgetNotPositive) && registry.document == old(registry.document) && audit == old(audit)
      ensures budget >= 1 ==>
                && RefreshedTo(old(registry.document), disk, registry.document) && registry.Valid()
                && IsRanking(registry.document, stageId, cands)
                && r.Ok? && r.value.stageId == stageId && r.value.budget == budget && SelectionMatches(r.value, cands)
                && audit == old(audit) + [r.value]
      ensures old(CacheTrue()) && Faithful(disk) ==>
                CacheTrue() && (r.Ok? ==> ContentsOnDisk(disk, r.value.selected))
    {
      cands := [];
      if budget < 1 {
        return Err(BudgetNotPositive), cands;
      }
      registry.Refresh(disk);
      var ranked := Rank(registry.document, stageId);
      cands := ranked;
      FreshAreOnDisk(old(registry.document), disk, registry.document, ranked, stageId);
      var selection := Take(disk, stageId, budget, ranked);
      audit := audit + [selection];
      r := Ok(selection);
    }

    /** The selection loop over candidates whose fresh ones are on disk. */
    method Take(disk: Disk, stageId: string, budget: nat, cands: seq<Candidate>) returns (s: Selection)
      requires forall c :: c in cands && c.artifact.status == Fresh ==> Present(disk, c.artifact.path)
      modifies this`mtimes, this`contents
      ensures s.stageId == stageId && s.budget == budget && SelectionMatches(s, cands)
      ensures old(CacheTrue()) && Faithful(disk) ==> CacheTrue() && ContentsOnDisk(disk, s.selected)
    {
      var total: nat, selected, omitted := 0, [], [];
      for i := 0 to |cands|
        invariant Progress(cands, budget, i, total, selected, omitted)
        invariant old(CacheTrue()) && Faithful(disk) ==> CacheTrue() && ContentsOnDisk(disk, selected)
      {
        var a := cands[i].artifact;
        ghost var before := (total, selected, omitted);
        if a.status != Fresh {
          omitted := omitted + [Omission(a.path, StatusIs(a.status), a.tokens)];
        } else if total + a.tokens > budget {
          omitted := omitted + [Omission(a.path, BudgetExceeded, a.tokens)];
        } else {
          var content := ReadArtifact(disk, a.path);
          selected := selected + [Item(a.path, cands[i].priority, a.tokens, content.value)];
          total := total + a.tokens;
        }
        ProgressStep(cands, budget, i, before.0, before.1, before.2, total, selected, omitted);
      }
      assert cands[..|cands|] == cands;
      assert Choose(cands, budget, 0)[..|cands|] == Choose(cands, budget, 0);
      s := Selection(stageId, budget, total, selected, omitted);
    }
  }

  ghost predicate ContentsOnDisk(disk: Disk, items: seq<Item>) {
    forall i :: 0 <= i < |items| ==> items[i].path in disk && items[i].content == disk[items[i].path].content
  }

  /** The accumulators after the first `i` candidates agree with `Choose`. */
  ghost predicate Progress(
    cands: seq<Candidate>, budget: nat, i: nat, total: nat, selected: seq<Item>, omitted: seq<Omission>)
  {
    var mask := Choose(cands, budget, 0);
    && i <= |cands|
    && total == Cost(cands[..i], mask[..i])
    && Choose(cands[i..], budget, total) == mask[i..]
    && ListsItems(selected, Where(cands[..i], mask[..i], true))
    && ListsOmissions(omitted, Where(cands[..i], mask[..i], false))
  }

  lemma ProgressStep(
    cands: seq<Candidate>, budget: nat, i: nat, total: nat, selected: seq<Item>, omitted: seq<Omission>,
    total': nat, selected': seq<Item>, omitted': seq<Omission>)
    requires i < |cands| && Progress(cands, budget, i, total, selected, omitted)
    requires var a := cands[i].artifact;
             if a.status == Fresh && total + a.tokens <= budget
             then total' == total + a.tokens && omitted' == omitted && |selected'| == |selected| + 1
                  && selected'[..|selected|] == selected && Records(selected'[|selected|], cands[i])
             else total' == total && selected' == selected && omitted' == omitted + [OmissionOf(cands[i])]
    ensures Progress(cands, budget, i + 1, total', selected', omitted')
  {
    var mask := Choose(cands, budget, 0);
    assert cands[i..][1..] == cands[i + 1..] && mask[i..][1..] == mask[i + 1..];
    assert mask[i] == mask[i..][0];
    AppendToPrefix(cands, mask, i);
    ItemsGrow(selected, selected', Where(cands[..i], mask[..i], true), cands[i]);
  }

  lemma ItemsGrow(items: seq<Item>, longer: seq<Item>, cands: seq<Candidate>, c: Candidate)
    requires ListsItems(items, cands)
    ensures |longer| == |items| + 1 && longer[..|items|] == items && Records(longer[|items|], c) ==>
              ListsItems(longer, cands + [c])
  {
    if |longer| == |items| + 1 && longer[..|items|] == items {
      assert forall i :: 0 <= i < |items| ==> longer[i] == longer[..|items|][i];
    }
  }

  lemma {:induction false} AppendToPrefix(cands: seq<Candidate>, mask: seq<bool>, i: nat)
    requires |mask| == |cands| && i < |cands|
    ensures Cost(cands[..i + 1], mask[..i + 1]) == Cost(cands[..i], mask[..i])
            + if mask[i] then cands[i].artifact.tokens else 0
    ensures forall bit :: Where(cands[..i + 1], mask[..i + 1], bit) ==
              Where(cands[..i], mask[..i], bit) + if mask[i] == bit then [cands[i]] else []
  {
    if i > 0 {
      AppendToPrefix(cands[1..], mask[1..], i - 1);
      assert cands[1..][..i] == cands[..i + 1][1..] && mask[1..][..i] == mask[..i + 1][1..];
      assert cands[1..][..i - 1] == cands[..i][1..] && mask[1..][..i - 1] == mask[..i][1..];
    }
  }

  lemma FreshAreOnDisk(before: Document, disk: Disk, after: Document, cands: seq<Candidate>, stageId: string)
    requires RefreshedTo(before, disk, after) && IsRanking(after, stageId, cands)
    ensures forall c :: c in cands && c.artifact.status == Fresh ==> Present(disk, c.artifact.path)
  {
    forall c | c in cands && c.artifact.status == Fresh ensures Present(disk, c.artifact.path) {
      var x :| 0 <= x < |after| && after[x] == c.artifact;
      assert Core(after[x]) == Core(Staleness.RefreshedArtifact(before, disk, x));
      FreshMeansPresent(before, disk, x);
    }
  }
}
