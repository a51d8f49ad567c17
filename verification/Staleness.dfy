/** What a refresh means: the status of every artifact, stated from the document and the disk alone. */
module Staleness {
  import opened Graphs
  import opened Artifacts

  ghost function Down(doc: Document): Graph {
    DownstreamGraph(ShapeOf(doc))
  }

  /** The recorded hash no longer matches the disk. */
  predicate Changed(doc: Document, disk: Disk, i: int)
    requires 0 <= i < |doc|
  {
    doc[i].contentHash != HashAt(disk, doc[i].path)
  }

  /** Artifact `c` changed, is present, and `x` lies downstream of it. */
  ghost predicate Hits(doc: Document, disk: Disk, c: int, x: int)
    requires 0 <= c < |doc| && 0 <= x < |doc|
  {
    Changed(doc, disk, c) && Present(disk, doc[c].path) && Downstream(Down(doc), doc[c].path, doc[x].path)
  }

  /** Some artifact at document position `lo <= c < hi` hits `x`. */
  ghost predicate HitWithin(doc: Document, disk: Disk, lo: int, hi: int, x: int)
    requires 0 <= lo && hi <= |doc| && 0 <= x < |doc|
  {
    exists c :: lo <= c < hi && Hits(doc, disk, c, x)
  }

  /** The status artifact `x` has right after its own turn in the refresh loop. */
  ghost function OwnStatus(doc: Document, disk: Disk, x: int): Status
    requires 0 <= x < |doc|
  {
    if !Present(disk, doc[x].path) then Missing
    else if Changed(doc, disk, x) then Fresh
    else if doc[x].status == Stale || HitWithin(doc, disk, 0, x, x) then Stale
    else Fresh
  }

  /** Status of artifact `x` once the first `k` artifacts have had their turn. */
  ghost function StatusAfter(doc: Document, disk: Disk, k: int, x: int): Status
    requires 0 <= k <= |doc| && 0 <= x < |doc|
  {
    if x < k then (if HitWithin(doc, disk, x + 1, k, x) then Stale else OwnStatus(doc, disk, x))
    else if HitWithin(doc, disk, 0, k, x) then Stale
    else doc[x].status
  }

  /** Status of artifact `x` after a whole refresh. */
  ghost function RefreshStatus(doc: Document, disk: Disk, x: int): Status
    requires 0 <= x < |doc|
  {
    if HitWithin(doc, disk, x + 1, |doc|, x) then Stale else OwnStatus(doc, disk, x)
  }

  /** The record of `x` after a refresh, dependents aside. */
  ghost function RefreshedArtifact(doc: Document, disk: Disk, x: int): Artifact
    requires 0 <= x < |doc|
  {
    var a := doc[x];
    a.(status := RefreshStatus(doc, disk, x), contentHash := HashAt(disk, a.path), tokens := TokensAt(disk, a.path))
  }

  /** The records after the first `k` turns. */
  ghost predicate RefreshedUpTo(before: Document, disk: Disk, k: int, after: Document) {
    && 0 <= k <= |before| == |after|
    && forall x :: 0 <= x < |before| ==>
         var path := before[x].path;
         var a := if x < k then before[x].(contentHash := HashAt(disk, path), tokens := TokensAt(disk, path))
                  else before[x];
         after[x] == a.(status := StatusAfter(before, disk, k, x))
  }

  /** Status that `_mark_downstream_stale(path)` leaves on artifact `x`. */
  ghost function MarkedStatus(doc: Document, path: Path, x: int): Status
    requires 0 <= x < |doc|
  {
    var hit := Downstream(Down(doc), path, doc[x].path);
    if doc[x].path == path then (if doc[x].status == Missing && !hit then Missing else Fresh)
    else if hit then Stale
    else doc[x].status
  }

  ghost predicate MarkedFrom(before: Document, path: Path, after: Document) {
    && |after| == |before|
    && forall x :: 0 <= x < |before| ==> after[x] == before[x].(status := MarkedStatus(before, path, x))
  }

  lemma SameShapeSameGraph(a: Document, b: Document)
    requires |a| == |b|
    requires forall x :: 0 <= x < |a| ==> a[x].path == b[x].path && a[x].dependencies == b[x].dependencies
    ensures ShapeOf(a) == ShapeOf(b) && Down(a) == Down(b)
  {
    assert ShapeOf(a) == ShapeOf(b);
  }

  lemma HitWithinNext(doc: Document, disk: Disk, lo: int, k: int, x: int)
    requires 0 <= lo && 0 <= k < |doc| && 0 <= x < |doc|
    ensures HitWithin(doc, disk, lo, k + 1, x) <==> HitWithin(doc, disk, lo, k, x) || (lo <= k && Hits(doc, disk, k, x))
  {
  }

  /** The update that artifact `k`'s own turn makes, before any marking. */
  function OwnTurn(a: Artifact, disk: Disk): Artifact {
    a.(status := if !Present(disk, a.path) then Missing else if a.status != Stale then Fresh else Stale,
       contentHash := HashAt(disk, a.path),
       tokens := TokensAt(disk, a.path))
  }

  /** One turn of the loop carries the closed form from `k` to `k + 1`. */
  lemma TurnExtendsClosedForm(before: Document, disk: Disk, k: int, doc: Document, after: Document)
    requires UniquePaths(before) && k < |before| && RefreshedUpTo(before, disk, k, doc)
    requires var own := doc[k := OwnTurn(doc[k], disk)];
             if Changed(before, disk, k) && Present(disk, before[k].path) then MarkedFrom(own, before[k].path, after)
             else after == own
    ensures RefreshedUpTo(before, disk, k + 1, after)
  {
    var own := doc[k := OwnTurn(doc[k], disk)];
    SameShapeSameGraph(before, own);
    forall x | 0 <= x < |before|
      ensures after[x].status == StatusAfter(before, disk, k + 1, x)
    {
      HitWithinNext(before, disk, 0, k, x);
      HitWithinNext(before, disk, x + 1, k, x);
      assert own[x].path == before[x].path;
    }
  }
}
