/** The artifact registry's records, the files they describe, and the two graphs a document spans. */
module Artifacts {
  import opened Common
  import opened Graphs

  datatype Status = Fresh | Stale | Missing

  datatype Artifact = Artifact(
    path: Path,
    stageId: Option<string>,
    status: Status,
    dependencies: seq<Path>,
    dependents: seq<Path>,
    contentHash: Option<string>,
    tokens: nat)

  /** The artifacts of a registry document, in document order. */
  type Document = seq<Artifact>

  /** What the disk holds at a path; the digest stands for SHA-256 of the bytes. */
  datatype FileImage = FileImage(digest: string, tokens: nat, mtime: int, content: string)

  type Disk = map<Path, FileImage>

  predicate Present(disk: Disk, path: Path) {
    path in disk
  }

  function HashAt(disk: Disk, path: Path): Option<string> {
    if path in disk then Some(disk[path].digest) else None
  }

  function TokensAt(disk: Disk, path: Path): nat {
    if path in disk then disk[path].tokens else 0
  }

  /** The record of `a` holds what is on the disk: the digest and tokens of its file, or none and 0 without one. */
  predicate Snapshotted(a: Artifact, disk: Disk) {
    if a.path in disk then a.contentHash == Some(disk[a.path].digest) && a.tokens == disk[a.path].tokens
    else a.contentHash == None && a.tokens == 0
  }

  /** The file is on both disks with the same content, as far as digests tell. */
  predicate Unedited(before: Disk, after: Disk, path: Path) {
    path in before && path in after && before[path].digest == after[path].digest
  }

  ghost predicate UniquePaths(doc: Document) {
    forall i, j :: 0 <= i < j < |doc| ==> doc[i].path != doc[j].path
  }

  function Paths(doc: Document): set<Path> {
    set a | a in doc :: a.path
  }

  /** Position of the artifact registered under `path`, or the document's length if there is none. */
  function IndexOf(doc: Document, path: Path): (i: nat)
    ensures i <= |doc|
    ensures i < |doc| ==> doc[i].path == path
    ensures forall j :: 0 <= j < i ==> doc[j].path != path
  {
    if doc == [] || doc[0].path == path then 0
    else
      var i := IndexOf(doc[1..], path);
      assert forall j :: 0 < j < i + 1 ==> doc[j] == doc[1..][j - 1];
      i + 1
  }

  /** The part of an artifact the dependency graph is made of. */
  datatype Node = Node(path: Path, dependencies: seq<Path>)

  type Shape = seq<Node>

  function ShapeOf(doc: Document): (shape: Shape)
    ensures |shape| == |doc|
    ensures forall i :: 0 <= i < |doc| ==> shape[i] == Node(doc[i].path, doc[i].dependencies)
  {
    seq(|doc|, i requires 0 <= i < |doc| => Node(doc[i].path, doc[i].dependencies))
  }

  function Registered(shape: Shape): set<Path> {
    set n | n in shape :: n.path
  }

  function Mentioned(shape: Shape): set<Path> {
    Registered(shape) + (set n, d | n in shape && d in n.dependencies :: d)
  }

  /** Paths of the artifacts that list `p` as a dependency. */
  function DependentsOf(shape: Shape, p: Path): set<Path> {
    set n | n in shape && p in n.dependencies :: n.path
  }

  function DependenciesOf(shape: Shape, p: Path): set<Path> {
    set n, d | n in shape && n.path == p && d in n.dependencies :: d
  }

  /** Edges from each artifact to what it depends on; an unregistered dependency is a sink. */
  function DependencyGraph(shape: Shape): Graph {
    map p | p in Registered(shape) :: DependenciesOf(shape, p)
  }

  /** Edges from each path to the artifacts that depend on it. */
  function DownstreamGraph(shape: Shape): Graph {
    map p | p in Mentioned(shape) :: DependentsOf(shape, p)
  }

  ghost predicate NoDuplicates<T>(xs: seq<T>) {
    forall i, j :: 0 <= i < j < |xs| ==> xs[i] != xs[j]
  }

  function AllPaths(doc: Document): (paths: seq<Path>)
    ensures |paths| == |doc| && forall i :: 0 <= i < |doc| ==> paths[i] == doc[i].path
    ensures forall p :: p in paths <==> p in Paths(doc)
  {
    var paths := seq(|doc|, i requires 0 <= i < |doc| => doc[i].path);
    assert forall i :: 0 <= i < |doc| ==> doc[i] in doc && paths[i] == doc[i].path;
    paths
  }

  /** Artifact `i` is registered under `p` and lists `d` as a dependency. */
  ghost predicate Lists(doc: Document, i: int, p: Path, d: Path) {
    0 <= i < |doc| && doc[i].path == p && d in doc[i].dependencies
  }

  lemma DependentsByIndex(doc: Document, d: Path, p: Path)
    ensures p in DependentsOf(ShapeOf(doc), d) <==> exists i :: Lists(doc, i, p, d)
  {
    var shape := ShapeOf(doc);
    if p in DependentsOf(shape, d) {
      var n :| n in shape && d in n.dependencies && n.path == p;
      var i :| 0 <= i < |doc| && shape[i] == n;
      assert Lists(doc, i, p, d);
    }
    if i :| Lists(doc, i, p, d) {
      assert shape[i] in shape;
    }
  }

  lemma DependenciesByIndex(doc: Document, p: Path, d: Path)
    ensures d in DependenciesOf(ShapeOf(doc), p) <==> exists i :: Lists(doc, i, p, d)
  {
    var shape := ShapeOf(doc);
    if d in DependenciesOf(shape, p) {
      var n :| n in shape && n.path == p && d in n.dependencies;
      var i :| 0 <= i < |doc| && shape[i] == n;
      assert Lists(doc, i, p, d);
    }
    if i :| Lists(doc, i, p, d) {
      assert shape[i] in shape;
    }
  }

  lemma RegisteredAreDocumentPaths(doc: Document)
    ensures Registered(ShapeOf(doc)) == Paths(doc)
  {
    var shape := ShapeOf(doc);
    forall p | p in Paths(doc) ensures p in Registered(shape) {
      var i :| 0 <= i < |doc| && doc[i].path == p;
      assert shape[i] in shape;
    }
  }

  /** Paths of the stage's own artifacts, in document order. */
  function OwnPaths(doc: Document, stageId: string): (paths: seq<Path>)
    ensures forall p :: p in paths <==> exists a :: a in doc && a.stageId == Some(stageId) && a.path == p
  {
    if doc == [] then []
    else
      assert forall a :: a in doc <==> a == doc[0] || a in doc[1..];
      (if doc[0].stageId == Some(stageId) then [doc[0].path] else []) + OwnPaths(doc[1..], stageId)
  }
}
