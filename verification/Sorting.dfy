/** Stable sorting, permutations and sums of sequences. */
module Sorting {

  // ---------- Sorting ----------

  // x before the first element it may precede: elements equal in the order keep their order.
  function Insert<T>(x: T, s: seq<T>, le: (T, T) -> bool): seq<T> {
    if s == [] || le(x, s[0]) then [x] + s else [s[0]] + Insert(x, s[1..], le)
  }

  // The stable sorted permutation that Array.prototype.sort leaves in place.
  function Sort<T>(s: seq<T>, le: (T, T) -> bool): seq<T> {
    if s == [] then [] else Insert(s[0], Sort(s[1..], le), le)
  }

  ghost predicate Sorted<T>(s: seq<T>, le: (T, T) -> bool) {
    forall i, j :: 0 <= i < j < |s| ==> le(s[i], s[j])
  }

  ghost predicate TotalOrder<T(!new)>(le: (T, T) -> bool) {
    && (forall a, b :: le(a, b) || le(b, a))
    && (forall a, b, c :: le(a, b) && le(b, c) ==> le(a, c))
  }

  lemma {:induction false} InsertKeeps<T>(x: T, s: seq<T>, le: (T, T) -> bool)
    ensures multiset(Insert(x, s, le)) == multiset(s) + multiset{x}
  {
    if !(s == [] || le(x, s[0])) {
      InsertKeeps(x, s[1..], le);
      assert s == [s[0]] + s[1..];
    }
  }

  lemma SortedFirst<T>(a: T, s: seq<T>, le: (T, T) -> bool)
    requires Sorted(s, le) && forall y <- s :: le(a, y)
    ensures Sorted([a] + s, le)
  {
    forall j | 0 <= j < |s| ensures le(a, s[j]) { assert s[j] in s; }
  }

  lemma FirstBelow<T(!new)>(x: T, s: seq<T>, le: (T, T) -> bool)
    requires TotalOrder(le) && Sorted(s, le) && s != [] && le(x, s[0])
    ensures forall y <- s :: le(x, y)
  {
    forall y | y in s ensures le(x, y) {
      var j :| 0 <= j < |s| && s[j] == y;
      assert j == 0 || le(s[0], s[j]);
    }
  }

  lemma {:induction false} InsertSorted<T(!new)>(x: T, s: seq<T>, le: (T, T) -> bool)
    requires TotalOrder(le) && Sorted(s, le)
    ensures Sorted(Insert(x, s, le), le) && multiset(Insert(x, s, le)) == multiset(s) + multiset{x}
  {
    InsertKeeps(x, s, le);
    if s == [] {
    } else if le(x, s[0]) {
      FirstBelow(x, s, le);
      SortedFirst(x, s, le);
    } else {
      var rest := Insert(x, s[1..], le);
      InsertSorted(x, s[1..], le);
      assert le(s[0], x) && le(s[0], s[0]);
      FirstBelow(s[0], s, le);
      hide Sorted, TotalOrder;
      forall y | y in rest ensures le(s[0], y) { assert y in multiset(rest); }
      SortedFirst(s[0], rest, le);
    }
  }

  lemma {:induction false} SortSorts<T(!new)>(s: seq<T>, le: (T, T) -> bool)
    requires TotalOrder(le)
    ensures Sorted(Sort(s, le), le) && multiset(Sort(s, le)) == multiset(s) && |Sort(s, le)| == |s|
  {
    if s != [] {
      SortSorts(s[1..], le);
      InsertSorted(s[0], Sort(s[1..], le), le);
      hide Insert, Sorted, TotalOrder;
      assert s == [s[0]] + s[1..];
      assert multiset(s) == multiset(s[1..]) + multiset{s[0]};
    }
    hide Sorted, TotalOrder;
    assert |multiset(Sort(s, le))| == |Sort(s, le)| && |multiset(s)| == |s|;
  }

  lemma {:induction false} InsertAgrees<T>(x: T, s: seq<T>, le: (T, T) -> bool, le2: (T, T) -> bool)
    requires forall y <- s :: le(x, y) == le2(x, y)
    ensures Insert(x, s, le) == Insert(x, s, le2)
  {
    if s != [] { InsertAgrees(x, s[1..], le, le2); }
  }

  // Stability: an order may break its ties by position without changing the outcome.
  lemma {:induction false} SortAgrees<T(!new)>(s: seq<T>, le: (T, T) -> bool, le2: (T, T) -> bool)
    requires TotalOrder(le) && forall i, j :: 0 <= i < j < |s| ==> le(s[i], s[j]) == le2(s[i], s[j])
    ensures Sort(s, le) == Sort(s, le2)
  {
    if s != [] {
      SortAgrees(s[1..], le, le2);
      var rest := Sort(s[1..], le);
      SortSorts(s[1..], le);
      forall y | y in rest ensures le(s[0], y) == le2(s[0], y) {
        assert y in multiset(rest) && y in s[1..];
        var k :| 0 <= k < |s[1..]| && s[1..][k] == y;
        assert s[k + 1] == y;
      }
      InsertAgrees(s[0], rest, le, le2);
    }
  }

  lemma FirstOfSorted<T(!new)>(a: seq<T>, j: nat, le: (T, T) -> bool)
    requires TotalOrder(le) && Sorted(a, le) && j < |a|
    ensures le(a[0], a[j])
  {
    if j == 0 { assert le(a[0], a[0]); }
  }

  // Two sorted permutations of one collection are equal when no two of its elements tie.
  lemma {:induction false} SortedUnique<T(!new)>(a: seq<T>, b: seq<T>, le: (T, T) -> bool)
    requires TotalOrder(le) && Sorted(a, le) && Sorted(b, le) && multiset(a) == multiset(b)
    requires forall x, y :: x in a && y in a && le(x, y) && le(y, x) ==> x == y
    ensures a == b
  {
    assert |multiset(a)| == |a| && |multiset(b)| == |b|;
    if a != [] {
      SameFirst(a, b, le);
      WithoutPerm(a, 0);
      WithoutPerm(b, 0);
      assert Without(a, 0) == a[1..] && Without(b, 0) == b[1..];
      SortedUnique(a[1..], b[1..], le);
    }
  }

  lemma SameFirst<T(!new)>(a: seq<T>, b: seq<T>, le: (T, T) -> bool)
    requires TotalOrder(le) && Sorted(a, le) && Sorted(b, le) && multiset(a) == multiset(b) && a != [] && b != []
    requires forall x, y :: x in a && y in a && le(x, y) && le(y, x) ==> x == y
    ensures a[0] == b[0]
  {
    assert a[0] in multiset(b) && b[0] in multiset(a);
    var i :| 0 <= i < |b| && b[i] == a[0];
    var j :| 0 <= j < |a| && a[j] == b[0];
    FirstOfSorted(a, j, le);
    FirstOfSorted(b, i, le);
  }

  // ---------- Permutations ----------

  function Map<S, T>(f: S -> T, s: seq<S>): (r: seq<T>)
    ensures |r| == |s| && forall i :: 0 <= i < |s| ==> r[i] == f(s[i])
  {
    seq(|s|, i requires 0 <= i < |s| => f(s[i]))
  }

  function Without<T>(s: seq<T>, k: nat): seq<T>
    requires k < |s|
  {
    s[..k] + s[k + 1..]
  }

  lemma WithoutPerm<T>(s: seq<T>, k: nat)
    requires k < |s|
    ensures multiset(Without(s, k)) == multiset(s) - multiset{s[k]}
  {
    assert s == s[..k] + [s[k]] + s[k + 1..];
  }

  lemma MapWithout<S, T>(f: S -> T, s: seq<S>, k: nat)
    requires k < |s|
    ensures multiset(Map(f, s)) == multiset(Map(f, Without(s, k))) + multiset{f(s[k])}
  {
    assert Map(f, Without(s, k)) == Without(Map(f, s), k);
    WithoutPerm(Map(f, s), k);
    assert f(s[k]) in multiset(Map(f, s)) by { assert Map(f, s)[k] == f(s[k]); }
  }

  // Permuting before applying a function permutes the results.
  lemma {:induction false} MapPerm<S, T>(f: S -> T, a: seq<S>, b: seq<S>)
    requires multiset(a) == multiset(b)
    ensures multiset(Map(f, a)) == multiset(Map(f, b))
    decreases |a|
  {
    assert |multiset(a)| == |a| && |multiset(b)| == |b|;
    if a == [] {
      assert Map(f, a) == Map(f, b);
    } else {
      assert a[0] in multiset(b);
      var k :| 0 <= k < |b| && b[k] == a[0];
      WithoutPerm(b, k);
      WithoutPerm(a, 0);
      MapPerm(f, Without(a, 0), Without(b, k));
      MapWithout(f, a, 0);
      MapWithout(f, b, k);
    }
  }

  // 0, 1, ..., n - 1
  function Indices(n: nat): seq<int> {
    seq(n, i => i)
  }

  // A permutation of the first |p| indices.
  ghost predicate IsPermutation(p: seq<int>) {
    multiset(p) == multiset(Indices(|p|))
  }

  lemma PermutationInRange(p: seq<int>)
    requires IsPermutation(p)
    ensures forall i :: 0 <= i < |p| ==> 0 <= p[i] < |p|
  {
    forall i | 0 <= i < |p| ensures 0 <= p[i] < |p| { assert p[i] in multiset(Indices(|p|)); }
  }

  // Strictly increasing indices below their count are 0, 1, 2, ...
  lemma {:induction false} IncreasingIndices(s: seq<int>, i: nat)
    requires i < |s| && (forall k :: 0 <= k < |s| ==> 0 <= s[k] < |s|) && forall j, k :: 0 <= j < k < |s| ==> s[j] < s[k]
    ensures s[i] == i
  {
    AtLeast(s, i);
    AtMost(s, |s| - 1 - i);
  }

  lemma {:induction false} AtLeast(s: seq<int>, i: nat)
    requires i < |s| && (forall k :: 0 <= k < |s| ==> 0 <= s[k] < |s|) && forall j, k :: 0 <= j < k < |s| ==> s[j] < s[k]
    ensures i <= s[i]
  {
    if i > 0 { AtLeast(s, i - 1); }
  }

  lemma {:induction false} AtMost(s: seq<int>, d: nat)
    requires d < |s| && (forall k :: 0 <= k < |s| ==> 0 <= s[k] < |s|) && forall j, k :: 0 <= j < k < |s| ==> s[j] < s[k]
    ensures s[|s| - 1 - d] <= |s| - 1 - d
  {
    if d > 0 { AtMost(s, d - 1); }
  }

  // ---------- Sums ----------

  function Total(s: seq<int>): int {
    if s == [] then 0 else s[0] + Total(s[1..])
  }

  lemma {:induction false} TotalWithout(s: seq<int>, k: nat)
    requires k < |s|
    ensures Total(s) == s[k] + Total(Without(s, k))
  {
    if k > 0 {
      TotalWithout(s[1..], k - 1);
      assert Without(s, k) == [s[0]] + Without(s[1..], k - 1);
    } else {
      assert Without(s, 0) == s[1..];
    }
  }

  lemma {:induction false} TotalPerm(a: seq<int>, b: seq<int>)
    requires multiset(a) == multiset(b)
    ensures Total(a) == Total(b)
    decreases |a|
  {
    assert |multiset(a)| == |a| && |multiset(b)| == |b|;
    if a != [] {
      assert a[0] in multiset(b);
      var k :| 0 <= k < |b| && b[k] == a[0];
      WithoutPerm(b, k);
      assert a == [a[0]] + a[1..];
      TotalPerm(a[1..], Without(b, k));
      TotalWithout(b, k);
    }
  }

  // Pointwise at most, with the totals apart by at least any one difference.
  lemma {:induction false} TotalMonotone(a: seq<int>, b: seq<int>)
    requires |a| == |b| && forall i :: 0 <= i < |a| ==> a[i] <= b[i]
    ensures Total(a) <= Total(b)
    ensures forall i :: 0 <= i < |a| ==> Total(b) - Total(a) >= b[i] - a[i]
  {
    if a != [] {
      TotalMonotone(a[1..], b[1..]);
      forall i | 0 <= i < |a| ensures Total(b) - Total(a) >= b[i] - a[i] {
        if i > 0 { assert a[1..][i - 1] == a[i] && b[1..][i - 1] == b[i]; }
      }
    }
  }

  lemma {:induction false} TotalAdd(a: seq<int>, b: seq<int>, c: seq<int>)
    requires |a| == |b| == |c| && forall i :: 0 <= i < |a| ==> c[i] == a[i] + b[i]
    ensures Total(c) == Total(a) + Total(b)
  {
    if a != [] { TotalAdd(a[1..], b[1..], c[1..]); }
  }

  lemma {:induction false} TotalScale(a: seq<int>, k: int, c: seq<int>)
    requires |a| == |c| && forall i :: 0 <= i < |a| ==> c[i] == k * a[i]
    ensures Total(c) == k * Total(a)
  {
    if a != [] { TotalScale(a[1..], k, c[1..]); }
  }
}
