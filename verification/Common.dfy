/** Small shared vocabulary: optional values and results of calls that can be refused. */
module Common {

  datatype Option<+T> = None | Some(value: T)

  datatype Result<+T, +E> = Ok(value: T) | Err(error: E)
}

/** Sequences put together, and queues observed from outside: what went in and what came out. */
module Queues {

  lemma Regroup<T>(a: seq<T>, b: seq<T>, c: seq<T>)
    ensures (a + b) + c == a + (b + c)
  {
  }

  /** If one step and then the rest keep contents and order, so do both together. */
  lemma QueuesChain<T>(q: seq<T>, put: seq<T>, taken: seq<T>, mid: seq<T>, puts: seq<T>, takes: seq<T>, end: seq<T>)
    requires q + put == taken + mid && mid + puts == takes + end
    ensures q + (put + puts) == (taken + takes) + end
  {
    assert q + (put + puts) == (q + put) + puts == (taken + mid) + puts == taken + (mid + puts);
    assert taken + (takes + end) == (taken + takes) + end;
  }
}

/** Strings as `join` and `strip` make them. */
module Strings {

  /** `sep.join(parts)`. */
  function Joined(parts: seq<string>, sep: string): string {
    if parts == [] then ""
    else if |parts| == 1 then parts[0]
    else Joined(parts[..|parts| - 1], sep) + sep + parts[|parts| - 1]
  }

  lemma {:induction false} JoinedFront(parts: seq<string>, sep: string)
    requires |parts| > 1
    ensures Joined(parts, sep) == parts[0] + sep + Joined(parts[1..], sep)
  {
    var n := |parts| - 1;
    assert parts[1..][..n - 1] == parts[1..n];
    if n > 1 {
      JoinedFront(parts[..n], sep);
      assert parts[..n][1..] == parts[1..n];
    }
  }

  /** `part` occurs in `text`. */
  ghost predicate Occurs(part: string, text: string) {
    exists pre, post :: text == pre + part + post
  }

  lemma {:induction false} JoinedHoldsEach(parts: seq<string>, sep: string, k: nat)
    requires k < |parts|
    ensures Occurs(parts[k], Joined(parts, sep))
  {
    var n, text := |parts| - 1, Joined(parts, sep);
    if n == 0 {
      assert text == "" + parts[k] + "";
    } else if k == n {
      assert text == (Joined(parts[..n], sep) + sep) + parts[k] + "";
    } else {
      JoinedHoldsEach(parts[..n], sep, k);
      var pre, post :| Joined(parts[..n], sep) == pre + parts[k] + post;
      assert text == pre + parts[k] + (post + sep + parts[n]);
    }
  }
}

/** Ordering and sorting, as the program's calls to `sorted` use them. */
module Ordering {

  /** Code-point order on strings. */
  predicate Leq(a: string, b: string) {
    a == [] || (b != [] && (a[0] < b[0] || (a[0] == b[0] && Leq(a[1..], b[1..]))))
  }

  /** `a` is a prefix of `b`, or has the smaller character where they first differ. */
  ghost predicate Lexicographic(a: string, b: string) {
    a <= b || exists k :: 0 <= k < |a| && k < |b| && a[..k] == b[..k] && a[k] < b[k]
  }

  lemma LexicographicTails(a: string, b: string)
    requires a != [] && b != [] && a[0] == b[0] && Lexicographic(a[1..], b[1..])
    ensures Lexicographic(a, b)
  {
    var x, y := a[1..], b[1..];
    assert a == [a[0]] + x && b == [b[0]] + y;
    if !(x <= y) {
      var k :| 0 <= k < |x| && k < |y| && x[..k] == y[..k] && x[k] < y[k];
      assert a[..k + 1] == [a[0]] + x[..k] && b[..k + 1] == [b[0]] + y[..k];
      assert a[k + 1] < b[k + 1];
    }
  }

  lemma LexicographicHeads(a: string, b: string)
    requires a != [] && b != [] && Lexicographic(a, b)
    ensures a[0] < b[0] || (a[0] == b[0] && Lexicographic(a[1..], b[1..]))
  {
    var x, y := a[1..], b[1..];
    if a <= b {
      assert x == b[1..|a|];
    } else {
      var k :| 0 <= k < |a| && k < |b| && a[..k] == b[..k] && a[k] < b[k];
      if k > 0 {
        assert a[0] == a[..k][0] == b[..k][0] == b[0];
        assert x[..k - 1] == a[..k][1..] && y[..k - 1] == b[..k][1..];
        assert x[k - 1] < y[k - 1];
      }
    }
  }

  lemma {:induction false} LeqIsLexicographic(a: string, b: string)
    ensures Leq(a, b) <==> Lexicographic(a, b)
  {
    if a != [] && b != [] {
      LeqIsLexicographic(a[1..], b[1..]);
      if a[0] < b[0] { assert a[..0] == b[..0]; }
      if a[0] == b[0] && Leq(a[1..], b[1..]) { LexicographicTails(a, b); }
      if Lexicographic(a, b) { LexicographicHeads(a, b); }
    }
  }

  lemma {:induction false} LeqTotal(a: string, b: string)
    ensures Leq(a, b) || Leq(b, a)
    ensures Leq(a, b) && Leq(b, a) ==> a == b
  {
    if a != [] && b != [] {
      LeqTotal(a[1..], b[1..]);
      assert a == [a[0]] + a[1..] && b == [b[0]] + b[1..];
    }
  }

  lemma {:induction false} LeqTransitive(a: string, b: string, c: string)
    requires Leq(a, b) && Leq(b, c)
    ensures Leq(a, c)
  {
    if a != [] && a[0] == b[0] && b[0] == c[0] {
      LeqTransitive(a[1..], b[1..], c[1..]);
    }
  }

  ghost predicate TotalPreorder<T(!new)>(le: (T, T) -> bool) {
    && (forall x, y :: le(x, y) || le(y, x))
    && (forall x, y, z :: le(x, y) && le(y, z) ==> le(x, z))
  }

  ghost predicate SortedBy<T>(xs: seq<T>, le: (T, T) -> bool) {
    forall i, j :: 0 <= i < j < |xs| ==> le(xs[i], xs[j])
  }

  function Insert<T>(x: T, ys: seq<T>, le: (T, T) -> bool): seq<T> {
    if ys == [] then [x]
    else if le(x, ys[0]) then [x] + ys
    else [ys[0]] + Insert(x, ys[1..], le)
  }

  /** A stable sort. */
  function SortBy<T>(xs: seq<T>, le: (T, T) -> bool): seq<T> {
    if xs == [] then [] else Insert(xs[0], SortBy(xs[1..], le), le)
  }

  lemma {:induction false} InsertContents<T>(x: T, ys: seq<T>, le: (T, T) -> bool)
    ensures multiset(Insert(x, ys, le)) == multiset(ys) + multiset{x}
    ensures forall y :: y in Insert(x, ys, le) <==> y == x || y in ys
  {
    if ys != [] {
      assert ys == [ys[0]] + ys[1..];
      InsertContents(x, ys[1..], le);
    }
  }

  lemma {:induction false} InsertSorted<T(!new)>(x: T, ys: seq<T>, le: (T, T) -> bool)
    requires TotalPreorder(le) && SortedBy(ys, le)
    ensures SortedBy(Insert(x, ys, le), le)
  {
    if ys != [] && !le(x, ys[0]) {
      var rest := Insert(x, ys[1..], le);
      assert SortedBy(rest, le) by {
        assert forall i :: 0 <= i < |ys[1..]| ==> ys[1..][i] == ys[i + 1];
        InsertSorted(x, ys[1..], le);
      }
      forall y | y in rest ensures le(ys[0], y) {
        InsertContents(x, ys[1..], le);
        if y in ys[1..] {
          var i :| 0 <= i < |ys[1..]| && ys[1..][i] == y;
          assert ys[i + 1] == y;
        }
      }
    }
  }

  lemma {:induction false} SortByContents<T>(xs: seq<T>, le: (T, T) -> bool)
    ensures multiset(SortBy(xs, le)) == multiset(xs)
    ensures |SortBy(xs, le)| == |xs|
    ensures forall x :: x in SortBy(xs, le) <==> x in xs
  {
    if xs != [] {
      assert xs == [xs[0]] + xs[1..];
      SortByContents(xs[1..], le);
      InsertContents(xs[0], SortBy(xs[1..], le), le);
      assert |multiset(SortBy(xs, le))| == |multiset(xs)|;
    }
  }

  lemma {:induction false} SortBySorted<T(!new)>(xs: seq<T>, le: (T, T) -> bool)
    requires TotalPreorder(le)
    ensures SortedBy(SortBy(xs, le), le)
    ensures multiset(SortBy(xs, le)) == multiset(xs)
    ensures |SortBy(xs, le)| == |xs|
    ensures forall x :: x in SortBy(xs, le) <==> x in xs
  {
    SortByContents(xs, le);
    if xs != [] {
      SortBySorted(xs[1..], le);
      InsertSorted(xs[0], SortBy(xs[1..], le), le);
    }
  }

  /** `sorted` on a list of paths. */
  function SortPaths(paths: seq<string>): seq<string> {
    SortBy(paths, Leq)
  }

  lemma LeqIsTotalPreorder()
    ensures TotalPreorder(Leq)
  {
    forall x, y ensures Leq(x, y) || Leq(y, x) { LeqTotal(x, y); }
    forall x, y, z | Leq(x, y) && Leq(y, z) ensures Leq(x, z) { LeqTransitive(x, y, z); }
  }

  lemma SortPathsSorted(paths: seq<string>)
    ensures SortedBy(SortPaths(paths), Leq)
    ensures multiset(SortPaths(paths)) == multiset(paths)
    ensures |SortPaths(paths)| == |paths|
    ensures forall p :: p in SortPaths(paths) <==> p in paths
  {
    LeqIsTotalPreorder();
    SortBySorted(paths, Leq);
  }

  lemma SortPathsKeeps(paths: seq<string>)
    ensures forall p :: p in SortPaths(paths) <==> p in paths
  {
    SortPathsSorted(paths);
  }
}
