/** Consequences of the exact refresh status: fixpoints, order sensitivity, and what registration hides. */
module RefreshLaws {
  import opened Common
  import opened Graphs
  import opened Artifacts
  import opened Staleness
  import opened Registry

  /** `after` is what a refresh of `before` against `disk` leaves, dependents aside. */
  ghost predicate RefreshedTo(before: Document, disk: Disk, after: Document) {
    && |after| == |before|
    && forall x :: 0 <= x < |before| ==> Core(after[x]) == Core(RefreshedArtifact(before, disk, x))
  }

  /** A refreshed document matches the disk, so nothing hits anything in the next refresh. */
  lemma NothingHitsAfterRefresh(before: Document, disk: Disk, after: Document, lo: int, hi: int, x: int)
    requires RefreshedTo(before, disk, after) && 0 <= lo && hi <= |after| && 0 <= x < |after|
    ensures !Changed(after, disk, x) && !HitWithin(after, disk, lo, hi, x)
  {
    forall c | 0 <= c < |after| ensures !Changed(after, disk, c) {
      assert Core(after[c]) == Core(RefreshedArtifact(before, disk, c));
    }
  }

  /** An unchanged disk: the second refresh keeps every present artifact's status and makes every absent one missing. */
  lemma SecondRefreshStatus(before: Document, disk: Disk, after: Document, x: int)
    requires RefreshedTo(before, disk, after) && 0 <= x < |after|
    ensures RefreshStatus(after, disk, x) == if Present(disk, after[x].path) then after[x].status else Missing
  {
    NothingHitsAfterRefresh(before, disk, after, 0, x, x);
    NothingHitsAfterRefresh(before, disk, after, x + 1, |after|, x);
    assert Core(after[x]) == Core(RefreshedArtifact(before, disk, x));
  }

  /** From the second refresh on, an unchanged disk leaves the whole document fixed. */
  lemma ThirdRefreshChangesNothing(before: Document, disk: Disk, once: Document, twice: Document, thrice: Document)
    requires RefreshedTo(before, disk, once) && RefreshedTo(once, disk, twice) && RefreshedTo(twice, disk, thrice)
    ensures SameCore(twice, thrice)
  {
    forall x | 0 <= x < |once| ensures Core(thrice[x]) == Core(twice[x]) {
      SecondRefreshStatus(before, disk, once, x);
      SecondRefreshStatus(once, disk, twice, x);
      assert Core(once[x]) == Core(RefreshedArtifact(before, disk, x));
      assert Core(twice[x]) == Core(RefreshedArtifact(once, disk, x));
      assert Core(thrice[x]) == Core(RefreshedArtifact(twice, disk, x));
    }
  }

  /** Below a change: stale exactly if it did not change itself, or a change later in the document reaches it. */
  lemma DownstreamOfChangeIsStaleIff(doc: Document, disk: Disk, c: int, x: int)
    requires 0 <= c < |doc| && 0 <= x < |doc| && c != x && Hits(doc, disk, c, x)
    ensures RefreshStatus(doc, disk, x) == Stale <==>
              (Present(disk, doc[x].path) && !Changed(doc, disk, x)) || HitWithin(doc, disk, x + 1, |doc|, x)
  {
    if c < x {
      assert HitWithin(doc, disk, 0, x, x);
    } else {
      assert HitWithin(doc, disk, x + 1, |doc|, x);
    }
  }

  // ----- document order -----

  /** Some artifact other than `c` changed, is present and has `x` downstream. */
  ghost predicate HitBesides(doc: Document, disk: Disk, c: int, x: int)
    requires 0 <= x < |doc|
  {
    exists i :: 0 <= i < |doc| && i != c && Hits(doc, disk, i, x)
  }

  ghost predicate OtherHit(doc: Document, disk: Disk, x: int)
    requires 0 <= x < |doc|
  {
    HitBesides(doc, disk, x, x)
  }

  lemma OtherHitIsEarlierOrLater(doc: Document, disk: Disk, x: int)
    requires 0 <= x < |doc|
    ensures OtherHit(doc, disk, x) <==> HitWithin(doc, disk, 0, x, x) || HitWithin(doc, disk, x + 1, |doc|, x)
  {
    if i :| 0 <= i < |doc| && i != x && Hits(doc, disk, i, x) {
      assert if i < x then HitWithin(doc, disk, 0, x, x) else HitWithin(doc, disk, x + 1, |doc|, x);
    }
  }

  /** A present, unchanged artifact does not care whether hits come earlier or later. */
  lemma UnchangedStatus(doc: Document, disk: Disk, x: int)
    requires 0 <= x < |doc| && Present(disk, doc[x].path) && !Changed(doc, disk, x)
    ensures RefreshStatus(doc, disk, x) == if doc[x].status == Stale || OtherHit(doc, disk, x) then Stale else Fresh
  {
    OtherHitIsEarlierOrLater(doc, disk, x);
  }

  /** Two documents of the same artifacts, in whatever order. */
  ghost predicate SameArtifacts(a: Document, b: Document) {
    UniquePaths(a) && UniquePaths(b) && forall r :: r in a <==> r in b
  }

  /** `b` is a reordering of `a` that has the artifact at `x` at `y`. */
  ghost predicate Reorders(a: Document, x: int, b: Document, y: int) {
    SameArtifacts(a, b) && 0 <= x < |a| && 0 <= y < |b| && a[x] == b[y]
  }

  lemma SameArtifactsShareNodes(a: Document, b: Document, n: Node)
    requires SameArtifacts(a, b) && n in ShapeOf(a)
    ensures n in ShapeOf(b)
  {
    var i :| 0 <= i < |a| && ShapeOf(a)[i] == n;
    assert a[i] in b;
    var j :| 0 <= j < |b| && b[j] == a[i];
    assert ShapeOf(b)[j] == n;
  }

  /** The dependency graph does not depend on the order. */
  lemma SameArtifactsSameGraph(a: Document, b: Document)
    requires SameArtifacts(a, b)
    ensures Down(a) == Down(b)
  {
    var s, t := ShapeOf(a), ShapeOf(b);
    forall n ensures n in s <==> n in t {
      if n in s { SameArtifactsShareNodes(a, b, n); }
      if n in t { SameArtifactsShareNodes(b, a, n); }
    }
    assert Mentioned(s) == Mentioned(t);
    forall p ensures DependentsOf(s, p) == DependentsOf(t, p) {
    }
  }

  lemma OtherHitTransfers(a: Document, disk: Disk, x: int, b: Document, y: int)
    requires Reorders(a, x, b, y) && OtherHit(a, disk, x)
    ensures OtherHit(b, disk, y)
  {
    SameArtifactsSameGraph(a, b);
    var c :| 0 <= c < |a| && c != x && Hits(a, disk, c, x);
    assert a[c] in b;
    var d :| 0 <= d < |b| && b[d] == a[c];
    HitMoves(a, disk, c, x, b, d, y);
    assert a[c].path != a[x].path;
  }

  lemma HitMoves(a: Document, disk: Disk, c: int, x: int, b: Document, d: int, y: int)
    requires Down(a) == Down(b) && 0 <= c < |a| && 0 <= d < |b| && 0 <= x < |a| && 0 <= y < |b|
    requires a[c] == b[d] && a[x] == b[y]
    ensures Hits(a, disk, c, x) <==> Hits(b, disk, d, y)
  {
  }

  /** Where order matters: another change reaches the artifact, and it is itself absent or changed. */
  ghost predicate OrderMatters(doc: Document, disk: Disk, x: int)
    requires 0 <= x < |doc|
  {
    OtherHit(doc, disk, x) && !(Present(disk, doc[x].path) && !Changed(doc, disk, x))
  }

  /** Where it does not matter, every reordering gives the artifact the same status. */
  lemma OrderIrrelevantElsewhere(a: Document, disk: Disk, x: int, b: Document, y: int)
    requires Reorders(a, x, b, y) && !OrderMatters(a, disk, x)
    ensures RefreshStatus(b, disk, y) == RefreshStatus(a, disk, x)
  {
    if OtherHit(a, disk, x) {
      OtherHitTransfers(a, disk, x, b, y);
      UnchangedStatus(a, disk, x);
      UnchangedStatus(b, disk, y);
    } else if OtherHit(b, disk, y) {
      OtherHitTransfers(b, disk, y, a, x);
    } else {
      OtherHitIsEarlierOrLater(a, disk, x);
      OtherHitIsEarlierOrLater(b, disk, y);
    }
  }

  function Without(doc: Document, x: int): Document
    requires 0 <= x < |doc|
  {
    doc[..x] + doc[x + 1..]
  }

  lemma MovingReorders(doc: Document, x: int)
    requires UniquePaths(doc) && 0 <= x < |doc|
    ensures Reorders(doc, x, [doc[x]] + Without(doc, x), 0)
    ensures Reorders(doc, x, Without(doc, x) + [doc[x]], |doc| - 1)
  {
    assert doc == doc[..x] + [doc[x]] + doc[x + 1..];
    var rest, front, back := Without(doc, x), [doc[x]] + Without(doc, x), Without(doc, x) + [doc[x]];
    assert forall i :: 0 <= i < |rest| ==> rest[i] == if i < x then doc[i] else doc[i + 1];
    assert forall r :: r in doc <==> r in doc[..x] || r == doc[x] || r in doc[x + 1..];
    assert UniquePaths(front) && UniquePaths(back);
  }

  /** Where it matters, the artifact ends stale when it comes first and not stale when it comes last. */
  lemma OrderDecides(doc: Document, disk: Disk, x: int)
    requires UniquePaths(doc) && 0 <= x < |doc| && OrderMatters(doc, disk, x)
    ensures RefreshStatus([doc[x]] + Without(doc, x), disk, 0) == Stale
    ensures RefreshStatus(Without(doc, x) + [doc[x]], disk, |doc| - 1) != Stale
  {
    var front := [doc[x]] + Without(doc, x);
    MovingReorders(doc, x);
    OtherHitTransfers(doc, disk, x, front, 0);
    OtherHitIsEarlierOrLater(front, disk, 0);
  }

  /** Exactly when some reordering of the same artifacts, on the same disk, changes an artifact's status. */
  lemma RefreshDependsOnOrderIff(doc: Document, disk: Disk, x: int)
    requires UniquePaths(doc) && 0 <= x < |doc|
    ensures OrderMatters(doc, disk, x) <==>
              exists b, y :: Reorders(doc, x, b, y) && RefreshStatus(b, disk, y) != RefreshStatus(doc, disk, x)
  {
    if OrderMatters(doc, disk, x) {
      MovingReorders(doc, x);
      OrderDecides(doc, disk, x);
    } else {
      forall b, y | Reorders(doc, x, b, y) ensures RefreshStatus(b, disk, y) == RefreshStatus(doc, disk, x) {
        OrderIrrelevantElsewhere(doc, disk, x, b, y);
      }
    }
  }

  const UPSTREAM := Artifact("a", None, Fresh, [], ["b"], Some("old"), 1)
  const DOWNSTREAM := Artifact("b", None, Fresh, ["a"], [], Some("old"), 1)

  /** The smallest case: both files edited, and the one that depends on the other ends fresh or stale by order alone. */
  lemma RefreshDependsOnDocumentOrder(disk: Disk)
    requires "a" in disk && "b" in disk && disk["a"].digest != "old" && disk["b"].digest != "old"
    ensures RefreshStatus([UPSTREAM, DOWNSTREAM], disk, 1) == Fresh
    ensures RefreshStatus([DOWNSTREAM, UPSTREAM], disk, 0) == Stale
  {
    var doc := [DOWNSTREAM, UPSTREAM];
    DependentIsSuccessor(doc, 0, "a");
    SeedReachable(Down(doc), {"a"}, "a");
    assert Hits(doc, disk, 1, 0);
    assert OrderMatters(doc, disk, 0);
    OrderDecides(doc, disk, 0);
    assert Without(doc, 0) == [UPSTREAM];
  }

  /**
   * A fresh status is a promise that the file is there; a missing file shows as stale only under a later change
   * upstream.
   */
  lemma FreshMeansPresent(doc: Document, disk: Disk, x: int)
    requires 0 <= x < |doc|
    ensures RefreshStatus(doc, disk, x) == Fresh ==> Present(disk, doc[x].path)
    ensures !Present(disk, doc[x].path) ==>
              (RefreshStatus(doc, disk, x) == Stale <==> HitWithin(doc, disk, x + 1, |doc|, x))
  {
  }

  // ----- from one disk to another -----

  /** Every record is as of this disk. */
  ghost predicate RecordedOn(doc: Document, disk: Disk) {
    forall i :: 0 <= i < |doc| ==> Snapshotted(doc[i], disk)
  }

  lemma RefreshRecords(before: Document, disk: Disk, after: Document)
    requires RefreshedTo(before, disk, after)
    ensures RecordedOn(after, disk)
  {
    forall i | 0 <= i < |after| ensures Snapshotted(after[i], disk) {
      assert Core(after[i]) == Core(RefreshedArtifact(before, disk, i));
    }
  }

  lemma RegisterRecords(
    doc: Document, disk: Disk, path: Path, stageId: Option<string>, dependencies: seq<Path>, after: Document)
    requires RecordedOn(doc, disk) && SameCore(RegisterSpec(doc, disk, path, stageId, dependencies), after)
    ensures RecordedOn(after, disk)
  {
    var spec := RegisterSpec(doc, disk, path, stageId, dependencies);
    forall i | 0 <= i < |after| ensures Snapshotted(after[i], disk) {
      assert Core(after[i]) == Core(spec[i]);
    }
  }

  /** A record as of one disk is out of date on another exactly if its file was edited, added or removed. */
  lemma ChangedIffEdited(doc: Document, before: Disk, after: Disk, i: int)
    requires 0 <= i < |doc| && Snapshotted(doc[i], before)
    ensures Changed(doc, after, i) <==>
              !Unedited(before, after, doc[i].path) && (doc[i].path in before || doc[i].path in after)
  {
  }

  /** An artifact other than `x` whose file is there but not as it was, and that has `x` downstream. */
  ghost predicate EditReaches(doc: Document, before: Disk, after: Disk, c: int, x: int)
    requires 0 <= x < |doc|
  {
    && 0 <= c < |doc| && c != x && doc[c].path in after && !Unedited(before, after, doc[c].path)
    && Downstream(Down(doc), doc[c].path, doc[x].path)
  }

  /** From one disk to another an unedited artifact ends stale exactly if it was, or an edit reaches it. */
  lemma UneditedStatus(doc: Document, before: Disk, after: Disk, x: int)
    requires RecordedOn(doc, before) && 0 <= x < |doc| && Unedited(before, after, doc[x].path)
    ensures RefreshStatus(doc, after, x) ==
              if doc[x].status == Stale || exists c :: EditReaches(doc, before, after, c, x) then Stale else Fresh
  {
    forall i | 0 <= i < |doc|
      ensures Changed(doc, after, i) <==>
                !Unedited(before, after, doc[i].path) && (doc[i].path in before || doc[i].path in after)
    {
      ChangedIffEdited(doc, before, after, i);
    }
    UnchangedStatus(doc, after, x);
    if c :| EditReaches(doc, before, after, c, x) {
      assert Hits(doc, after, c, x);
    }
    if OtherHit(doc, after, x) {
      var c :| 0 <= c < |doc| && c != x && Hits(doc, after, c, x);
      assert EditReaches(doc, before, after, c, x);
    }
  }

  /** An edited artifact ends fresh itself, unless another one later in the document reaches it. */
  lemma EditedStatus(doc: Document, before: Disk, after: Disk, x: int)
    requires RecordedOn(doc, before) && 0 <= x < |doc|
    requires doc[x].path in after && !Unedited(before, after, doc[x].path)
    ensures RefreshStatus(doc, after, x) ==
              if exists c :: x < c && EditReaches(doc, before, after, c, x) then Stale else Fresh
  {
    forall i | 0 <= i < |doc|
      ensures Changed(doc, after, i) <==>
                !Unedited(before, after, doc[i].path) && (doc[i].path in before || doc[i].path in after)
    {
      ChangedIffEdited(doc, before, after, i);
    }
    if c :| x < c && EditReaches(doc, before, after, c, x) {
      assert Hits(doc, after, c, x) && HitWithin(doc, after, x + 1, |doc|, x);
    }
    if HitWithin(doc, after, x + 1, |doc|, x) {
      var c :| x + 1 <= c < |doc| && Hits(doc, after, c, x);
      assert EditReaches(doc, before, after, c, x);
    }
  }

  /** With no file edited or added and nothing stale before, everything present stays fresh. */
  lemma NoEditNothingStale(doc: Document, before: Disk, after: Disk, x: int)
    requires RecordedOn(doc, before) && 0 <= x < |doc| && doc[x].path in after
    requires forall i :: 0 <= i < |doc| ==>
               doc[i].status != Stale && (doc[i].path in after ==> Unedited(before, after, doc[i].path))
    ensures RefreshStatus(doc, after, x) == Fresh
  {
    UneditedStatus(doc, before, after, x);
  }

  /** Two files registered, one on the other, then a refresh: the second ends stale exactly if the first was edited. */
  method RegisterEditRefresh(registry: ArtifactRegistry, before: Disk, after: Disk, a: Path, b: Path)
    requires registry.document == [] && a != b && a in before && a in after && Unedited(before, after, b)
    modifies registry
    ensures registry.Valid() && |registry.document| == 2
    ensures var first, second := registry.document[0], registry.document[1];
            && first.path == a && first.status == Fresh && first.contentHash == Some(after[a].digest)
            && second.path == b && second.contentHash == Some(after[b].digest)
            && second.status == if before[a].digest != after[a].digest then Stale else Fresh
  {
    registry.Register(before, a, None, []);
    ghost var one := registry.document;
    registry.Register(before, b, None, [a]);
    ghost var two := registry.document;
    TwoRegistered(before, a, b, one, two);
    TwoArtifacts(two, before, after, a, b);
    registry.Refresh(after);
    assert Core(registry.document[0]) == Core(RefreshedArtifact(two, after, 0));
    assert Core(registry.document[1]) == Core(RefreshedArtifact(two, after, 1));
  }

  lemma TwoRegistered(disk: Disk, a: Path, b: Path, one: Document, two: Document)
    requires a != b && a in disk && b in disk
    requires SameCore(RegisterSpec([], disk, a, None, []), one)
    requires SameCore(RegisterSpec(one, disk, b, None, [a]), two)
    ensures |two| == 2 && RecordedOn(two, disk) && two[0].status == two[1].status == Fresh
    ensures two[0].path == a && two[0].dependencies == [] && two[1].path == b && two[1].dependencies == [a]
  {
    assert Core(one[0]) == Core(RegisterSpec([], disk, a, None, [])[0]);
    assert one == [one[0]] && IndexOf(one, b) == 1;
    var spec := RegisterSpec(one, disk, b, None, [a]);
    assert Core(two[0]) == Core(spec[0]) && Core(two[1]) == Core(spec[1]);
  }

  lemma TwoArtifacts(doc: Document, before: Disk, after: Disk, a: Path, b: Path)
    requires |doc| == 2 && doc[0].path == a && doc[1].path == b && a != b
    requires doc[0].dependencies == [] && doc[1].dependencies == [a]
    requires RecordedOn(doc, before) && doc[0].status == doc[1].status == Fresh
    requires a in before && a in after && Unedited(before, after, b)
    ensures RefreshStatus(doc, after, 0) == Fresh
    ensures RefreshStatus(doc, after, 1) == if before[a].digest != after[a].digest then Stale else Fresh
  {
    DependentIsSuccessor(doc, 1, a);
    SeedReachable(Down(doc), {a}, a);
    assert Downstream(Down(doc), a, b);
    assert EditReaches(doc, before, after, 0, 1) <==> before[a].digest != after[a].digest;
    UneditedStatus(doc, before, after, 1);
    if Unedited(before, after, a) {
      UneditedStatus(doc, before, after, 0);
    } else {
      EditedStatus(doc, before, after, 0);
    }
  }

  // ----- registration -----

  /** Two artifacts that did not change hit nothing, so leaving out either leaves out no hit. */
  lemma SameHitsBesides(doc: Document, disk: Disk, c: int, x: int)
    requires 0 <= c < |doc| && 0 <= x < |doc| && !Changed(doc, disk, c) && !Changed(doc, disk, x)
    ensures HitBesides(doc, disk, c, x) <==> OtherHit(doc, disk, x)
  {
  }

  /**
   * Re-registering a changed artifact `c` records its new hash, so the next refresh no longer marks its downstream.
   * An artifact below it that is present, unchanged and not stale ends stale after a refresh, but after registering `c`
   * first it ends fresh exactly if no other change reaches it over the dependencies that are then registered.
   */
  lemma RegisteringHidesChangeIff(
    doc: Document, disk: Disk, c: int, x: int, stageId: Option<string>, dependencies: seq<Path>)
    requires UniquePaths(doc) && 0 <= c < |doc| && 0 <= x < |doc| && c != x && Hits(doc, disk, c, x)
    requires Present(disk, doc[x].path) && !Changed(doc, disk, x) && doc[x].status != Stale
    ensures RefreshStatus(doc, disk, x) == Stale
    ensures var registered := RegisterSpec(doc, disk, doc[c].path, stageId, dependencies);
            RefreshStatus(registered, disk, x) == if HitBesides(registered, disk, c, x) then Stale else Fresh
  {
    var registered := RegisterSpec(doc, disk, doc[c].path, stageId, dependencies);
    assert IndexOf(doc, doc[c].path) == c;
    assert registered[x] == doc[x] && !Changed(registered, disk, c);
    UnchangedStatus(doc, disk, x);
    UnchangedStatus(registered, disk, x);
    SameHitsBesides(registered, disk, c, x);
  }

  /** When the registration names no dependencies, those other changes are the ones that reached it before. */
  lemma RegisteringHidesChange(doc: Document, disk: Disk, c: int, x: int, stageId: Option<string>)
    requires UniquePaths(doc) && 0 <= c < |doc| && 0 <= x < |doc| && c != x && Hits(doc, disk, c, x)
    requires Present(disk, doc[x].path) && !Changed(doc, disk, x) && doc[x].status != Stale
    ensures RefreshStatus(doc, disk, x) == Stale
    ensures RefreshStatus(RegisterSpec(doc, disk, doc[c].path, stageId, []), disk, x) == Fresh <==>
              !HitBesides(doc, disk, c, x)
  {
    var registered := RegisterSpec(doc, disk, doc[c].path, stageId, []);
    assert IndexOf(doc, doc[c].path) == c;
    RegisteringHidesChangeIff(doc, disk, c, x, stageId, []);
    SameShapeSameGraph(doc, registered);
    assert forall i :: 0 <= i < |doc| && i != c ==> (Hits(registered, disk, i, x) <==> Hits(doc, disk, i, x));
  }

  /** The ADG is the `dependents` lists read edge by edge. */
  lemma EdgesMirrorDependents(doc: Document, edges: seq<Edge>, i: int, target: Path)
    requires DependentsExact(doc) && EdgesExact(doc, edges) && 0 <= i < |doc|
    ensures Edge(doc[i].path, target) in edges <==> target in doc[i].dependents
  {
    RegisteredAreDocumentPaths(doc);
    assert doc[i] in doc;
  }
}
