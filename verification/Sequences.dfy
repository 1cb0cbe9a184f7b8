/** Sorting and duplicate removal on lists, as Python's `sorted` and `dict.fromkeys` do them. */
module Sequences {

  function Elements<T(==)>(xs: seq<T>): set<T> {
    set x | x in xs
  }

  predicate Distinct<T(==)>(xs: seq<T>) {
    forall i, j :: 0 <= i < j < |xs| ==> xs[i] != xs[j]
  }

  lemma {:induction false} DistinctCount<T>(xs: seq<T>)
    requires Distinct(xs)
    ensures |Elements(xs)| == |xs|
  {
    if xs != [] {
      var front := xs[..|xs| - 1];
      DistinctCount(front);
      assert xs == front + [xs[|xs| - 1]];
      assert Elements(xs) == Elements(front) + {xs[|xs| - 1]};
    }
  }

  /** The members of `xs` outside `seen`, each where it first appears. */
  function FirstSeen<T(==)>(xs: seq<T>, seen: set<T>): seq<T> {
    if xs == [] then []
    else
      var front := FirstSeen(xs[..|xs| - 1], seen);
      var last := xs[|xs| - 1];
      if last in seen || last in front then front else front + [last]
  }

  lemma {:induction false} FirstSeenMembers<T(!new)>(xs: seq<T>, seen: set<T>)
    ensures Distinct(FirstSeen(xs, seen))
    ensures forall x :: x in FirstSeen(xs, seen) <==> x in xs && x !in seen
  {
    if xs != [] {
      FirstSeenMembers(xs[..|xs| - 1], seen);
      assert xs == xs[..|xs| - 1] + [xs[|xs| - 1]];
    }
  }

  /** Position of the first `x` in `xs`; the length if there is none. */
  function FirstIndex<T(==)>(xs: seq<T>, x: T): (i: nat)
    ensures i <= |xs|
    ensures i < |xs| ==> xs[i] == x
    ensures forall k :: 0 <= k < i ==> xs[k] != x
  {
    if xs == [] then 0
    else if xs[0] == x then 0
    else 1 + FirstIndex(xs[1..], x)
  }

  /** What has been seen for the first time after `n` steps. */
  function SeenAfter<T(==)>(xs: seq<T>, seen: set<T>, n: nat): seq<T>
    requires n <= |xs|
  {
    FirstSeen(xs[..n], seen)
  }

  lemma SeenAfterStep<T(!new)>(xs: seq<T>, seen: set<T>, n: nat)
    requires n < |xs|
    ensures var front := SeenAfter(xs, seen, n);
            SeenAfter(xs, seen, n + 1) == if xs[n] in seen || xs[n] in front then front else front + [xs[n]]
    ensures SeenAfter(xs, seen, n + 1) <= FirstSeen(xs, seen)
  {
    assert xs[..n + 1][..n] == xs[..n];
    FirstSeenOfPrefix(xs, n + 1, seen);
  }

  lemma {:induction false} FirstSeenOfPrefix<T(!new)>(xs: seq<T>, n: nat, seen: set<T>)
    requires n <= |xs|
    ensures FirstSeen(xs[..n], seen) <= FirstSeen(xs, seen)
  {
    if n < |xs| {
      var front := xs[..|xs| - 1];
      assert front[..n] == xs[..n];
      FirstSeenOfPrefix(front, n, seen);
    } else {
      assert xs[..n] == xs;
    }
  }

  /** `FirstSeen` lists its members in the order of their first appearance. */
  lemma {:induction false} FirstSeenInOrder<T(!new)>(xs: seq<T>, seen: set<T>, i: nat, j: nat)
    requires i < j < |FirstSeen(xs, seen)|
    ensures FirstIndex(xs, FirstSeen(xs, seen)[i]) < FirstIndex(xs, FirstSeen(xs, seen)[j])
  {
    var front := xs[..|xs| - 1];
    var last := xs[|xs| - 1];
    var r := FirstSeen(xs, seen);
    assert xs == front + [last];
    FirstSeenMembers(front, seen);
    if j < |FirstSeen(front, seen)| {
      FirstSeenInOrder(front, seen, i, j);
      FirstIndexInPrefix(front, last, r[i]);
      FirstIndexInPrefix(front, last, r[j]);
    } else {
      assert r[i] in front && r[j] !in front;
      FirstIndexInPrefix(front, last, r[i]);
    }
  }

  predicate InOrderOfAppearance<T(==)>(xs: seq<T>, r: seq<T>) {
    forall i, j :: 0 <= i < j < |r| ==> FirstIndex(xs, r[i]) < FirstIndex(xs, r[j])
  }

  /** Whatever appears in `xs` before a member of `r`, and is not in `seen`, is in `r` too. */
  ghost predicate NoneSkipped<T(!new)>(xs: seq<T>, seen: set<T>, r: seq<T>) {
    forall x, i :: x in xs && x !in seen && 0 <= i < |r| ==>
      FirstIndex(xs, x) < FirstIndex(xs, r[i]) ==> x in r
  }

  /** The first `n` members of `FirstSeen` are the first `n` new values met, in order. */
  lemma FirstSeenTaken<T(!new)>(xs: seq<T>, seen: set<T>, n: nat)
    requires n <= |FirstSeen(xs, seen)|
    ensures InOrderOfAppearance(xs, FirstSeen(xs, seen)[..n])
    ensures NoneSkipped(xs, seen, FirstSeen(xs, seen)[..n])
  {
    hide FirstIndex;
    var all := FirstSeen(xs, seen);
    var r := all[..n];
    FirstSeenMembers(xs, seen);
    forall i, j | 0 <= i < j < |all|
      ensures FirstIndex(xs, all[i]) < FirstIndex(xs, all[j])
    {
      FirstSeenInOrder(xs, seen, i, j);
    }
    forall x, i | x in xs && x !in seen && 0 <= i < |r| && FirstIndex(xs, x) < FirstIndex(xs, r[i])
      ensures x in r
    {
      assert x in all;
      var k :| 0 <= k < |all| && all[k] == x;
      assert k < i;
      assert r[k] == x;
    }
  }

  lemma FirstIndexInPrefix<T>(front: seq<T>, last: T, x: T)
    requires x in front
    ensures FirstIndex(front + [last], x) == FirstIndex(front, x) < |front|
  {
    var xs := front + [last];
    var i, j := FirstIndex(front, x), FirstIndex(xs, x);
    assert i < |front| by {
      var k :| 0 <= k < |front| && front[k] == x;
    }
    assert xs[i] == x;
    assert j <= i && front[j] == x;
  }

  // ---- Going round ---------------------------------------------------------------

  /** The element `i` steps on from the start, counted around the end. */
  function Around<T>(xs: seq<T>, i: nat): T
    requires xs != []
  {
    xs[i % |xs|]
  }

  /** One full turn that starts at `start`. */
  function Rotation<T>(xs: seq<T>, start: nat): (turn: seq<T>)
    requires start <= |xs|
    ensures |turn| == |xs|
  {
    xs[start..] + xs[..start]
  }

  lemma WrapAround(a: nat, n: nat)
    requires a < 2 * n
    ensures a % n == if a < n then a else a - n
  {
    if a >= n {
      assert a == 1 * n + (a - n);
    }
  }

  lemma RotationAt<T>(xs: seq<T>, start: nat, i: nat)
    requires start <= |xs| && i < |xs|
    ensures Rotation(xs, start)[i] == Around(xs, start + i)
  {
    WrapAround(start + i, |xs|);
  }

  // ---- Sorting -------------------------------------------------------------------

  function Insert<T>(less: (T, T) -> bool, x: T, xs: seq<T>): seq<T> {
    if xs == [] || less(x, xs[0]) then [x] + xs else [xs[0]] + Insert(less, x, xs[1..])
  }

  function SortBy<T>(less: (T, T) -> bool, xs: seq<T>): seq<T> {
    if xs == [] then [] else Insert(less, xs[|xs| - 1], SortBy(less, xs[..|xs| - 1]))
  }

  predicate SortedBy<T>(less: (T, T) -> bool, xs: seq<T>) {
    forall i, j :: 0 <= i < j < |xs| ==> !less(xs[j], xs[i])
  }

  /** `less` never holds both ways, and "not less" chains. */
  ghost predicate WeakOrder<T(!new)>(less: (T, T) -> bool) {
    && (forall x, y :: less(x, y) ==> !less(y, x))
    && (forall x, y, z :: !less(y, x) && !less(z, y) ==> !less(z, x))
  }

  lemma {:induction false} InsertKeeps<T>(less: (T, T) -> bool, x: T, xs: seq<T>)
    ensures multiset(Insert(less, x, xs)) == multiset{x} + multiset(xs)
  {
    if xs != [] && !less(x, xs[0]) {
      InsertKeeps(less, x, xs[1..]);
      assert xs == [xs[0]] + xs[1..];
    }
  }

  lemma {:induction false} InsertSorts<T(!new)>(less: (T, T) -> bool, x: T, xs: seq<T>)
    requires WeakOrder(less) && SortedBy(less, xs)
    ensures SortedBy(less, Insert(less, x, xs))
  {
    if xs != [] && !less(x, xs[0]) {
      var rest := Insert(less, x, xs[1..]);
      InsertSorts(less, x, xs[1..]);
      InsertKeeps(less, x, xs[1..]);
      forall j | 0 <= j < |rest|
        ensures !less(rest[j], xs[0])
      {
        assert rest[j] in multiset(rest);
        assert rest[j] == x || rest[j] in xs[1..];
      }
    } else if xs != [] {
      forall j | 0 <= j < |xs|
        ensures !less(xs[j], x)
      {
        assert j > 0 ==> !less(xs[j], xs[0]);
      }
    }
  }

  /** Sorting permutes its input and puts it in order. */
  lemma {:induction false} SortByCorrect<T(!new)>(less: (T, T) -> bool, xs: seq<T>)
    requires WeakOrder(less)
    ensures multiset(SortBy(less, xs)) == multiset(xs)
    ensures SortedBy(less, SortBy(less, xs))
  {
    hide WeakOrder, Insert;
    if xs != [] {
      var front := xs[..|xs| - 1];
      SortByCorrect(less, front);
      InsertKeeps(less, xs[|xs| - 1], SortBy(less, front));
      InsertSorts(less, xs[|xs| - 1], SortBy(less, front));
      assert xs == front + [xs[|xs| - 1]];
    }
  }
}
