/**
 Sums of the integer values of a finite map, the yardstick for every conservation
 law of the ledger, the job store and the compute pool.
*/
module Sums {

  ghost function Sum<K(!new)>(m: map<K, int>): int
    decreases |m|
  {
    if m == map[] then 0
    else
      var k :| k in m;
      m[k] + Sum(m - {k})
  }

  // The value of a key, where an absent key counts as zero.
  function At<K>(m: map<K, int>, k: K): int {
    if k in m then m[k] else 0
  }

  // A term of a sum that is present only under a condition.
  function When(present: bool, n: int): int {
    if present then n else 0
  }

  // Any key may be taken out first.
  lemma {:induction false} SumRemove<K(!new)>(m: map<K, int>, k: K)
    requires k in m
    ensures Sum(m) == m[k] + Sum(m - {k})
    decreases |m|
  {
    var c :| c in m && Sum(m) == m[c] + Sum(m - {c});
    if c != k {
      SumRemove(m - {c}, k);
      SumRemove(m - {k}, c);
      assert m - {c} - {k} == m - {k} - {c};
    }
  }

  // Assigning one key moves the sum by the difference at that key.
  lemma SumUpdate<K(!new)>(m: map<K, int>, k: K, v: int)
    ensures Sum(m[k := v]) == Sum(m) - At(m, k) + v
  {
    SumRemove(m[k := v], k);
    if k in m {
      SumRemove(m, k);
      assert m[k := v] - {k} == m - {k};
    } else {
      assert m[k := v] - {k} == m;
    }
  }

  // With no negative value, each value is at most the sum.
  lemma {:induction false} SumBounds<K(!new)>(m: map<K, int>)
    requires forall k :: k in m ==> 0 <= m[k]
    ensures 0 <= Sum(m)
    ensures forall k :: k in m ==> m[k] <= Sum(m)
    decreases |m|
  {
    if m != map[] {
      var c :| c in m && Sum(m) == m[c] + Sum(m - {c});
      SumBounds(m - {c});
      forall k | k in m ensures m[k] <= Sum(m) {
        if k != c { assert k in m - {c}; }
      }
    }
  }

  // Two maps over the same keys, one pointwise at most the other.
  lemma {:induction false} SumMonotone<K(!new)>(m: map<K, int>, n: map<K, int>)
    requires m.Keys == n.Keys
    requires forall k :: k in m ==> m[k] <= n[k]
    ensures Sum(m) <= Sum(n)
    decreases |m|
  {
    if m != map[] {
      var c :| c in m;
      SumRemove(m, c);
      SumRemove(n, c);
      SumMonotone(m - {c}, n - {c});
    }
  }

  // Splitting the keys by any predicate splits the sum.
  lemma {:induction false} SumSplit<K(!new)>(m: map<K, int>, yes: map<K, int>, no: map<K, int>)
    requires forall k :: k in m <==> k in yes || k in no
    requires forall k :: !(k in yes && k in no)
    requires forall k :: k in yes ==> k in m && yes[k] == m[k]
    requires forall k :: k in no ==> k in m && no[k] == m[k]
    ensures Sum(m) == Sum(yes) + Sum(no)
    decreases |m|
  {
    if m == map[] {
      assert yes == map[] && no == map[];
    } else {
      var c :| c in m;
      SumRemove(m, c);
      if c in yes {
        SumRemove(yes, c);
        SumSplit(m - {c}, yes - {c}, no);
      } else {
        SumRemove(no, c);
        SumSplit(m - {c}, yes, no - {c});
      }
    }
  }

  // Adding pointwise adds the sums.
  lemma {:induction false} SumAdd<K(!new)>(m: map<K, int>, a: map<K, int>, b: map<K, int>)
    requires m.Keys == a.Keys == b.Keys && forall k :: k in m ==> m[k] == a[k] + b[k]
    ensures Sum(m) == Sum(a) + Sum(b)
    decreases |m|
  {
    if m == map[] {
      assert a == map[] && b == map[];
    } else {
      var c :| c in m;
      SumRemove(m, c);
      SumRemove(a, c);
      SumRemove(b, c);
      SumAdd(m - {c}, a - {c}, b - {c});
    }
  }

  lemma {:induction false} SumZero<K(!new)>(m: map<K, int>)
    requires forall k :: k in m ==> m[k] == 0
    ensures Sum(m) == 0
    decreases |m|
  {
    if m != map[] {
      var c :| c in m && Sum(m) == m[c] + Sum(m - {c});
      SumZero(m - {c});
    }
  }

  // The same sum under renamed keys, where keys with value zero may come and go.
  lemma {:induction false} SumRenamed<K(!new), N(!new)>(m: map<K, int>, n: map<N, int>, name: K -> N)
    requires forall k :: k in m ==> At(n, name(k)) == m[k]
    requires forall a, b :: a in m && b in m && name(a) == name(b) ==> a == b
    requires forall x :: x in n && n[x] != 0 ==> exists k :: k in m && name(k) == x
    ensures Sum(m) == Sum(n)
    decreases |m|
  {
    if m == map[] {
      SumZero(n);
    } else {
      var c :| c in m;
      var rest, left := m - {c}, n - {name(c)};
      SumRemove(m, c);
      forall x | x in left && left[x] != 0 ensures exists k :: k in rest && name(k) == x {
        var k :| k in m && name(k) == x;
        assert k in rest;
      }
      SumRenamed(rest, left, name);
      if name(c) in n { SumRemove(n, name(c)); } else { assert left == n; }
    }
  }
}
