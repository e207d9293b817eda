/** Largest-remainder allocation of a budget over weighted proofs. */
module ProRata {
  // FairShares describes the outcome without any sorting; the method that sorts in place, bumps
  // a prefix and sorts back reaches it; and FairShares is unique, optimal, within quota,
  // monotone and independent of order. localeCompare is given by a collation rank for every
  // string: equal ranks compare as equal.
  import opened Results
  import opened Sorting

  datatype Proof = Proof(proofId: string, recipient: string, weight: int)

  datatype Share = Share(proofId: string, recipient: string, amount: int)

  datatype Error = BadBudget | BadWeight

  type Collation = string -> real

  // ---------- The outcome ----------

  function Weights(proofs: seq<Proof>): seq<int> {
    Map((p: Proof) => p.weight, proofs)
  }

  function TotalWeight(proofs: seq<Proof>): int {
    Total(Weights(proofs))
  }

  predicate ValidProofs(proofs: seq<Proof>) {
    forall p <- proofs :: SafeInteger(p.weight) && 1 <= p.weight
  }

  // The whole part of a proof's exact share, and what is left of it in units of 1/T.
  function Floor(proofs: seq<Proof>, budget: int, i: nat): int
    requires i < |proofs| && 0 < TotalWeight(proofs)
  {
    budget * proofs[i].weight / TotalWeight(proofs)
  }

  function Remainder(proofs: seq<Proof>, budget: int, i: nat): int
    requires i < |proofs| && 0 < TotalWeight(proofs)
  {
    budget * proofs[i].weight % TotalWeight(proofs)
  }

  // The larger remainder comes first; then the proof id that collates lower; then the earlier.
  predicate Comes(proofs: seq<Proof>, budget: int, collate: Collation, i: nat, j: nat)
    requires i < |proofs| && j < |proofs| && 0 < TotalWeight(proofs)
  {
    var ri, rj := Remainder(proofs, budget, i), Remainder(proofs, budget, j);
    var ci, cj := collate(proofs[i].proofId), collate(proofs[j].proofId);
    ri > rj || (ri == rj && (ci < cj || (ci == cj && i <= j)))
  }

  predicate Bumped(proofs: seq<Proof>, budget: int, amounts: seq<int>, i: nat)
    requires i < |proofs| == |amounts| && 0 < TotalWeight(proofs)
  {
    amounts[i] == Floor(proofs, budget, i) + 1
  }

  // The budget is spent exactly; each proof gets its whole part or one more; and whoever gets
  // one more comes before whoever does not.
  ghost predicate FairShares(proofs: seq<Proof>, budget: int, collate: Collation, amounts: seq<int>) {
    && |amounts| == |proofs| && 0 < TotalWeight(proofs)
    && Total(amounts) == budget
    && (forall i :: 0 <= i < |proofs| ==> Bumped(proofs, budget, amounts, i) || amounts[i] == Floor(proofs, budget, i))
    && (forall i, j :: 0 <= i < |proofs| && 0 <= j < |proofs| && Bumped(proofs, budget, amounts, i) && !Bumped(proofs, budget, amounts, j)
          ==> Comes(proofs, budget, collate, i, j))
  }

  // ---------- Arithmetic of floors and remainders ----------

  lemma {:induction false} TotalPositive(proofs: seq<Proof>)
    requires ValidProofs(proofs)
    ensures 0 <= TotalWeight(proofs) && (proofs != [] ==> 0 < TotalWeight(proofs))
  {
    var w := Weights(proofs);
    var z := seq(|proofs|, i => 0);
    TotalMonotone(z, w);
    TotalScale(z, 0, z);
    if proofs != [] { assert w[0] == proofs[0].weight && proofs[0] in proofs; assert Total(w) - Total(z) >= w[0] - z[0]; }
  }

  lemma DivMod(n: int, t: int)
    requires 0 < t
    ensures n == n / t * t + n % t && 0 <= n % t < t
  {
  }

  function Floors(proofs: seq<Proof>, budget: int): seq<int>
    requires 0 < TotalWeight(proofs)
  {
    seq(|proofs|, i requires 0 <= i < |proofs| => Floor(proofs, budget, i))
  }

  function Remainders(proofs: seq<Proof>, budget: int): seq<int>
    requires 0 < TotalWeight(proofs)
  {
    seq(|proofs|, i requires 0 <= i < |proofs| => Remainder(proofs, budget, i))
  }

  // What the floors leave over, in units of 1/T, is the total of the remainders.
  lemma LeftOver(proofs: seq<Proof>, budget: int)
    requires 0 < TotalWeight(proofs)
    ensures (budget - Total(Floors(proofs, budget))) * TotalWeight(proofs) == Total(Remainders(proofs, budget))
  {
    var t := TotalWeight(proofs);
    var floors, rests := Floors(proofs, budget), Remainders(proofs, budget);
    var scaled := seq(|proofs|, i requires 0 <= i < |proofs| => t * floors[i]);
    var exact := seq(|proofs|, i requires 0 <= i < |proofs| => budget * Weights(proofs)[i]);
    forall i | 0 <= i < |proofs| ensures exact[i] == scaled[i] + rests[i] { DivMod(budget * proofs[i].weight, t); Commutes(floors[i], t); }
    TotalScale(floors, t, scaled);
    TotalScale(Weights(proofs), budget, exact);
    TotalAdd(scaled, rests, exact);
    SubtractProduct(budget, Total(floors), t, Total(rests));
  }

  lemma Commutes(a: int, b: int)
    ensures a * b == b * a
  {
  }

  lemma SubtractProduct(b: int, f: int, t: int, rest: int)
    requires b * t == t * f + rest
    ensures (b - f) * t == rest
  {
  }

  // Fewer units are left over than there are proofs, so the bump loop stays in bounds.
  lemma LeftOverInRange(proofs: seq<Proof>, budget: int)
    requires 0 < TotalWeight(proofs) && proofs != []
    ensures 0 <= budget - Total(Floors(proofs, budget)) < |proofs|
  {
    var t := TotalWeight(proofs);
    var rests := Remainders(proofs, budget);
    var zeros, tops := seq(|proofs|, i => 0), seq(|proofs|, i => t - 1);
    forall i | 0 <= i < |proofs| ensures 0 <= rests[i] <= t - 1 { DivMod(budget * proofs[i].weight, t); }
    TotalMonotone(zeros, rests);
    TotalMonotone(rests, tops);
    TotalScale(zeros, 0, zeros);
    var ones := seq(|proofs|, i => 1);
    TotalScale(ones, t - 1, tops);
    TotalOnes(ones);
    LeftOver(proofs, budget);
    Between(budget - Total(Floors(proofs, budget)), |proofs|, t, Total(rests));
  }

  lemma Between(left: int, n: nat, t: int, rest: int)
    requires 0 < t && 0 < n && left * t == rest && 0 <= rest <= (t - 1) * n
    ensures 0 <= left < n
  {
    if left >= n { MulMonotone(n, left, t); }
    if left < 0 { MulMonotone(left, -1, t); }
  }

  lemma {:induction false} TotalOnes(s: seq<int>)
    requires forall i :: 0 <= i < |s| ==> s[i] == 1
    ensures Total(s) == |s|
  {
    if s != [] { TotalOnes(s[1..]); }
  }

  // ---------- Quota and monotonicity ----------

  // Each row's distance above its exact share, in units of 1/T.
  function Aboves(proofs: seq<Proof>, budget: int, amounts: seq<int>): seq<int>
    requires |amounts| == |proofs|
  {
    seq(|proofs|, k requires 0 <= k < |proofs| => TotalWeight(proofs) * amounts[k] - budget * proofs[k].weight)
  }

  lemma AboveAt(proofs: seq<Proof>, budget: int, amounts: seq<int>, k: nat)
    requires |amounts| == |proofs| && k < |proofs| && 0 < TotalWeight(proofs)
    requires amounts[k] == Floor(proofs, budget, k) || Bumped(proofs, budget, amounts, k)
    ensures Aboves(proofs, budget, amounts)[k] == (if Bumped(proofs, budget, amounts, k) then TotalWeight(proofs) else 0) - Remainder(proofs, budget, k)
  {
    var t := TotalWeight(proofs);
    DivMod(budget * proofs[k].weight, t);
    if Bumped(proofs, budget, amounts, k) {
      assert t * amounts[k] == Floor(proofs, budget, k) * t + t;
    } else {
      assert t * amounts[k] == Floor(proofs, budget, k) * t;
    }
  }

  lemma NoneNegative(s: seq<int>, i: nat)
    requires Total(s) == 0 && i < |s| && forall k :: 0 <= k < |s| ==> 0 <= s[k]
    ensures s[i] == 0
  {
    var zeros := seq(|s|, k => 0);
    TotalMonotone(zeros, s);
    TotalScale(zeros, 0, zeros);
    assert Total(s) - Total(zeros) >= s[i] - zeros[i];
  }

  lemma WholeNotBumped(proofs: seq<Proof>, budget: int, collate: Collation, amounts: seq<int>, i: nat)
    requires FairShares(proofs, budget, collate, amounts) && i < |proofs|
    ensures Bumped(proofs, budget, amounts, i) ==> Remainder(proofs, budget, i) > 0
  {
    var t := TotalWeight(proofs);
    DivMod(budget * proofs[i].weight, t);
    if Bumped(proofs, budget, amounts, i) && Remainder(proofs, budget, i) == 0 {
      var above := Aboves(proofs, budget, amounts);
      forall k | 0 <= k < |proofs| ensures 0 <= above[k] {
        DivMod(budget * proofs[k].weight, t);
        AboveAt(proofs, budget, amounts, k);
        if !Bumped(proofs, budget, amounts, k) { assert Comes(proofs, budget, collate, i, k); }
      }
      AboveAt(proofs, budget, amounts, i);
      AboveCancels(proofs, budget, amounts, above);
      NoneNegative(above, i);
      assert false;
    }
  }

  // Each amount is the floor or the ceiling of the exact share: a proof whose share is
  // whole is never bumped.
  lemma WithinQuota(proofs: seq<Proof>, budget: int, collate: Collation, amounts: seq<int>, i: nat)
    requires FairShares(proofs, budget, collate, amounts) && i < |proofs|
    ensures Floor(proofs, budget, i) <= amounts[i]
    ensures Remainder(proofs, budget, i) == 0 ==> amounts[i] == Floor(proofs, budget, i)
    ensures Remainder(proofs, budget, i) > 0 ==> amounts[i] <= Floor(proofs, budget, i) + 1
  {
    WholeNotBumped(proofs, budget, collate, amounts, i);
  }

  lemma AboveCancels(proofs: seq<Proof>, budget: int, amounts: seq<int>, above: seq<int>)
    requires |amounts| == |proofs| == |above| && Total(amounts) == budget
    requires forall k :: 0 <= k < |proofs| ==> above[k] == TotalWeight(proofs) * amounts[k] - budget * proofs[k].weight
    ensures Total(above) == 0
  {
    var t := TotalWeight(proofs);
    var scaled := seq(|proofs|, k requires 0 <= k < |proofs| => t * amounts[k]);
    var exact := seq(|proofs|, k requires 0 <= k < |proofs| => budget * Weights(proofs)[k]);
    TotalScale(amounts, t, scaled);
    TotalScale(Weights(proofs), budget, exact);
    TotalAdd(above, exact, scaled);
    assert t * budget == budget * t;
  }

  lemma QuotientOrder(m: int, n: int, t: int)
    requires 0 < t && m <= n
    ensures m / t <= n / t
    ensures m < n && m / t == n / t ==> m % t < n % t
  {
    DivMod(m, t);
    DivMod(n, t);
    if n / t < m / t { MulMonotone(n / t + 1, m / t, t); }
  }

  lemma ScaleOrder(b: int, v: int, w: int)
    requires 0 <= b && v < w
    ensures b * v <= b * w && (0 < b ==> b * v < b * w)
  {
  }

  // A larger weight never gets less.
  lemma LargerWeightNotLess(proofs: seq<Proof>, budget: int, collate: Collation, amounts: seq<int>, i: nat, j: nat)
    requires FairShares(proofs, budget, collate, amounts) && i < |proofs| && j < |proofs| && 0 <= budget
    requires proofs[i].weight > proofs[j].weight
    ensures amounts[i] >= amounts[j]
  {
    if budget == 0 {
      ZeroBudget(proofs, collate, amounts, i);
      ZeroBudget(proofs, collate, amounts, j);
    } else {
      ScaleOrder(budget, proofs[j].weight, proofs[i].weight);
      QuotientOrder(budget * proofs[j].weight, budget * proofs[i].weight, TotalWeight(proofs));
      assert Floor(proofs, budget, j) <= Floor(proofs, budget, i);
      if Floor(proofs, budget, j) == Floor(proofs, budget, i) {
        assert Remainder(proofs, budget, j) < Remainder(proofs, budget, i);
        assert !Comes(proofs, budget, collate, j, i);
      }
    }
  }

  lemma ZeroBudget(proofs: seq<Proof>, collate: Collation, amounts: seq<int>, i: nat)
    requires FairShares(proofs, 0, collate, amounts) && i < |proofs|
    ensures amounts[i] == 0
  {
    WithinQuota(proofs, 0, collate, amounts, i);
    assert 0 * proofs[i].weight == 0;
  }

  // ---------- Optimality ----------

  function Abs(n: int): int {
    if n < 0 then -n else n
  }

  // How far an allocation is from the exact shares, in units of 1/T.
  function Deviations(proofs: seq<Proof>, budget: int, amounts: seq<int>): seq<int>
    requires |amounts| == |proofs|
  {
    seq(|proofs|, i requires 0 <= i < |proofs| => Abs(amounts[i] * TotalWeight(proofs) - budget * proofs[i].weight))
  }

  function Deviation(proofs: seq<Proof>, budget: int, amounts: seq<int>): int
    requires |amounts| == |proofs|
  {
    Total(Deviations(proofs, budget, amounts))
  }

  // One row under a price per unit: with exact share q·t + r, no whole amount d above q beats
  // b, which is one exactly when the price reaches t − 2r.
  lemma RowOptimal(t: int, r: int, price: int, b: int, d: int)
    requires 0 <= r < t && -t <= price <= t
    requires (b == 1 && t - 2 * r <= price) || (b == 0 && price <= t - 2 * r)
    ensures Abs(d * t - r) - price * d >= Abs(b * t - r) - price * b
  {
    if d >= 1 {
      MulMonotone(1, d, t - price);
      assert d * t - price * d == d * (t - price);
      assert d * t >= t by { MulMonotone(1, d, t); }
    } else {
      MulMonotone(d, 0, t + price);
      assert d * t + price * d == d * (t + price);
      assert d * t <= 0 by { MulMonotone(d, 0, t); }
    }
  }

  lemma MulMonotone(a: int, b: int, k: int)
    requires a <= b && 0 <= k
    ensures a * k <= b * k
  {
  }

  // A remainder no bumped row is below and no other row is above.
  lemma {:induction false} Threshold(proofs: seq<Proof>, budget: int, collate: Collation, amounts: seq<int>, n: nat) returns (rho: int)
    requires FairShares(proofs, budget, collate, amounts) && n <= |proofs|
    ensures 0 <= rho <= TotalWeight(proofs)
    ensures forall i :: 0 <= i < |proofs| && Bumped(proofs, budget, amounts, i) ==> rho <= Remainder(proofs, budget, i)
    ensures forall i :: 0 <= i < n && !Bumped(proofs, budget, amounts, i) ==> Remainder(proofs, budget, i) <= rho
  {
    var t := TotalWeight(proofs);
    if n == 0 {
      rho := 0;
      forall i | 0 <= i < |proofs| ensures 0 <= Remainder(proofs, budget, i) { DivMod(budget * proofs[i].weight, t); }
    } else {
      rho := Threshold(proofs, budget, collate, amounts, n - 1);
      DivMod(budget * proofs[n - 1].weight, t);
      if !Bumped(proofs, budget, amounts, n - 1) && rho < Remainder(proofs, budget, n - 1) {
        rho := Remainder(proofs, budget, n - 1);
        forall i | 0 <= i < |proofs| && Bumped(proofs, budget, amounts, i) ensures rho <= Remainder(proofs, budget, i) {
          assert Comes(proofs, budget, collate, i, n - 1);
        }
      }
    }
  }

  lemma RowAt(proofs: seq<Proof>, budget: int, amounts: seq<int>, other: seq<int>, i: nat, price: int)
    requires |amounts| == |proofs| == |other| && i < |proofs| && 0 < TotalWeight(proofs)
    requires -TotalWeight(proofs) <= price <= TotalWeight(proofs)
    requires Bumped(proofs, budget, amounts, i) ==> TotalWeight(proofs) - 2 * Remainder(proofs, budget, i) <= price
    requires !Bumped(proofs, budget, amounts, i) ==> amounts[i] == Floor(proofs, budget, i) && price <= TotalWeight(proofs) - 2 * Remainder(proofs, budget, i)
    ensures Deviations(proofs, budget, amounts)[i] - price * amounts[i] <= Deviations(proofs, budget, other)[i] - price * other[i]
  {
    var t := TotalWeight(proofs);
    DivMod(budget * proofs[i].weight, t);
    RowPriced(t, Floor(proofs, budget, i), Remainder(proofs, budget, i), price, amounts[i], other[i], budget * proofs[i].weight);
  }

  lemma RowPriced(t: int, q: int, r: int, price: int, mine: int, other: int, exact: int)
    requires 0 <= r < t && -t <= price <= t && exact == q * t + r
    requires (mine == q + 1 && t - 2 * r <= price) || (mine == q && price <= t - 2 * r)
    ensures Abs(mine * t - exact) - price * mine <= Abs(other * t - exact) - price * other
  {
    RowOptimal(t, r, price, mine - q, other - q);
    Apart(mine, q, t);
    Apart(other, q, t);
    Apart(mine, q, price);
    Apart(other, q, price);
  }

  lemma Apart(x: int, q: int, t: int)
    ensures x * t == q * t + (x - q) * t && t * x == t * q + t * (x - q)
  {
  }

  // No other whole-number allocation of the same budget is closer to the exact shares.
  lemma Optimal(proofs: seq<Proof>, budget: int, collate: Collation, amounts: seq<int>, other: seq<int>)
    requires FairShares(proofs, budget, collate, amounts)
    requires |other| == |proofs| && Total(other) == budget
    ensures Deviation(proofs, budget, amounts) <= Deviation(proofs, budget, other)
  {
    var t := TotalWeight(proofs);
    var rho := Threshold(proofs, budget, collate, amounts, |proofs|);
    var price := t - 2 * rho;
    var mine := seq(|proofs|, i requires 0 <= i < |proofs| => Deviations(proofs, budget, amounts)[i] - price * amounts[i]);
    var theirs := seq(|proofs|, i requires 0 <= i < |proofs| => Deviations(proofs, budget, other)[i] - price * other[i]);
    forall i | 0 <= i < |proofs| ensures mine[i] <= theirs[i] { RowAt(proofs, budget, amounts, other, i, price); }
    TotalMonotone(mine, theirs);
    Priced(Deviations(proofs, budget, amounts), amounts, price, mine);
    Priced(Deviations(proofs, budget, other), other, price, theirs);
  }

  lemma Priced(costs: seq<int>, amounts: seq<int>, price: int, net: seq<int>)
    requires |costs| == |amounts| == |net| && forall i :: 0 <= i < |net| ==> net[i] == costs[i] - price * amounts[i]
    ensures Total(net) == Total(costs) - price * Total(amounts)
  {
    var paid := seq(|amounts|, i requires 0 <= i < |amounts| => price * amounts[i]);
    TotalScale(amounts, price, paid);
    TotalAdd(net, paid, costs);
  }

  // ---------- Order independence ----------

  // At most one outcome is fair.
  lemma FairSharesUnique(proofs: seq<Proof>, budget: int, collate: Collation, a: seq<int>, b: seq<int>)
    requires FairShares(proofs, budget, collate, a) && FairShares(proofs, budget, collate, b)
    ensures a == b
  {
    forall i | 0 <= i < |proofs| ensures a[i] <= b[i] { NotAbove(proofs, budget, collate, a, b, i); }
    forall i | 0 <= i < |proofs| ensures b[i] <= a[i] { NotAbove(proofs, budget, collate, b, a, i); }
  }

  // Two fair outcomes never pull two proofs in opposite directions.
  lemma NoExchange(proofs: seq<Proof>, budget: int, collate: Collation, a: seq<int>, b: seq<int>, i: nat, j: nat)
    requires FairShares(proofs, budget, collate, a) && FairShares(proofs, budget, collate, b)
    requires i < |proofs| && j < |proofs| && a[i] > b[i]
    ensures a[j] >= b[j]
  {
    assert Bumped(proofs, budget, a, i) && !Bumped(proofs, budget, b, i);
    assert !Bumped(proofs, budget, a, j) ==> Comes(proofs, budget, collate, i, j);
    assert Bumped(proofs, budget, b, j) ==> Comes(proofs, budget, collate, j, i);
  }

  lemma NotAbove(proofs: seq<Proof>, budget: int, collate: Collation, a: seq<int>, b: seq<int>, i: nat)
    requires FairShares(proofs, budget, collate, a) && FairShares(proofs, budget, collate, b) && i < |proofs|
    ensures a[i] <= b[i]
  {
    if a[i] > b[i] {
      forall j | 0 <= j < |proofs| ensures b[j] <= a[j] { NoExchange(proofs, budget, collate, a, b, i, j); }
      TotalMonotone(b, a);
      assert false;
    }
  }

  // Distinct proofs whose ids the collation tells apart.
  ghost predicate ToldApart(proofs: seq<Proof>, collate: Collation) {
    forall i, j :: 0 <= i < j < |proofs| ==> collate(proofs[i].proofId) != collate(proofs[j].proofId)
  }

  function Permute<T>(s: seq<T>, p: seq<int>): seq<T>
    requires |p| == |s| && forall i :: 0 <= i < |p| ==> 0 <= p[i] < |s|
  {
    seq(|p|, i requires 0 <= i < |p| => s[p[i]])
  }

  lemma PermuteTotal(s: seq<int>, p: seq<int>)
    requires |p| == |s| && IsPermutation(p) && forall i :: 0 <= i < |p| ==> 0 <= p[i] < |s|
    ensures Total(Permute(s, p)) == Total(s)
  {
    var at := (i: int) => if 0 <= i < |s| then s[i] else 0;
    MapPerm(at, p, Indices(|p|));
    assert Map(at, p) == Permute(s, p);
    assert Map(at, Indices(|p|)) == s;
    TotalPerm(Permute(s, p), s);
  }

  // Shares of permuted proofs are the permuted shares.
  lemma PermutedFair(proofs: seq<Proof>, budget: int, collate: Collation, amounts: seq<int>, p: seq<int>)
    requires FairShares(proofs, budget, collate, amounts) && NoTiedEdge(proofs, budget, collate, amounts)
    requires |p| == |proofs| && IsPermutation(p) && forall i :: 0 <= i < |p| ==> 0 <= p[i] < |proofs|
    ensures FairShares(Permute(proofs, p), budget, collate, Permute(amounts, p))
  {
    var proofs', amounts' := Permute(proofs, p), Permute(amounts, p);
    assert Weights(proofs') == Permute(Weights(proofs), p);
    PermuteTotal(Weights(proofs), p);
    PermuteTotal(amounts, p);
    forall i | 0 <= i < |p|
      ensures Floor(proofs', budget, i) == Floor(proofs, budget, p[i]) && Remainder(proofs', budget, i) == Remainder(proofs, budget, p[i])
      ensures Bumped(proofs', budget, amounts', i) == Bumped(proofs, budget, amounts, p[i])
    {
    }
    forall i, j | 0 <= i < |p| && 0 <= j < |p| && Bumped(proofs', budget, amounts', i) && !Bumped(proofs', budget, amounts', j)
      ensures Comes(proofs', budget, collate, i, j)
    {
      assert Comes(proofs, budget, collate, p[i], p[j]) && !Tied(proofs, budget, collate, p[i], p[j]);
    }
  }

  lemma PermutationDistinct(p: seq<int>, i: nat, j: nat)
    requires IsPermutation(p) && i < j < |p|
    ensures p[i] != p[j]
  {
    OnceInIndices(|p|, p[i]);
    if p[i] == p[j] { CountedTwice(p, i, j); }
  }

  lemma CountedTwice<T>(s: seq<T>, i: nat, j: nat)
    requires i < j < |s| && s[i] == s[j]
    ensures multiset(s)[s[i]] >= 2
  {
    assert s == s[..i] + [s[i]] + s[i + 1..j] + [s[j]] + s[j + 1..];
  }

  lemma {:induction false} OnceInIndices(n: nat, x: int)
    ensures multiset(Indices(n))[x] == if 0 <= x < n then 1 else 0
  {
    if n > 0 {
      OnceInIndices(n - 1, x);
      assert Indices(n) == Indices(n - 1) + [n - 1];
    }
  }

  // Handing the proofs in another order only reorders the shares: each proof gets the same.
  lemma OrderIndependent(proofs: seq<Proof>, budget: int, collate: Collation, p: seq<int>, amounts: seq<int>, amounts': seq<int>)
    requires ToldApart(proofs, collate) && |p| == |proofs| && IsPermutation(p) && forall i :: 0 <= i < |p| ==> 0 <= p[i] < |proofs|
    requires FairShares(proofs, budget, collate, amounts) && FairShares(Permute(proofs, p), budget, collate, amounts')
    ensures amounts' == Permute(amounts, p)
  {
    ApartNoEdge(proofs, budget, collate, amounts);
    PermutedFair(proofs, budget, collate, amounts, p);
    FairSharesUnique(Permute(proofs, p), budget, collate, amounts', Permute(amounts, p));
  }

  lemma ApartNoEdge(proofs: seq<Proof>, budget: int, collate: Collation, amounts: seq<int>)
    requires ToldApart(proofs, collate) && |amounts| == |proofs| && 0 < TotalWeight(proofs)
    ensures NoTiedEdge(proofs, budget, collate, amounts)
  {
    forall i, j | 0 <= i < |proofs| && 0 <= j < |proofs| && Bumped(proofs, budget, amounts, i) && !Bumped(proofs, budget, amounts, j)
      ensures !Tied(proofs, budget, collate, i, j)
    {
      assert i < j || j < i;
    }
  }

  // No proof that got one more ties one that did not.
  ghost predicate NoTiedEdge(proofs: seq<Proof>, budget: int, collate: Collation, amounts: seq<int>)
    requires |amounts| == |proofs| && 0 < TotalWeight(proofs)
  {
    forall i, j :: 0 <= i < |proofs| && 0 <= j < |proofs| && Bumped(proofs, budget, amounts, i) && !Bumped(proofs, budget, amounts, j)
      ==> !Tied(proofs, budget, collate, i, j)
  }

  predicate Tied(proofs: seq<Proof>, budget: int, collate: Collation, i: nat, j: nat)
    requires i < |proofs| && j < |proofs| && 0 < TotalWeight(proofs)
  {
    Remainder(proofs, budget, i) == Remainder(proofs, budget, j) && collate(proofs[i].proofId) == collate(proofs[j].proofId)
  }

  // Every order of these proofs has the same shares, proof by proof.
  ghost predicate SharesIgnoreOrder(proofs: seq<Proof>, budget: int, collate: Collation, amounts: seq<int>)
    requires |amounts| == |proofs|
  {
    forall p, amounts' ::
      |p| == |proofs| && IsPermutation(p) && (forall i :: 0 <= i < |p| ==> 0 <= p[i] < |proofs|)
      && FairShares(Permute(proofs, p), budget, collate, amounts')
      ==> amounts' == Permute(amounts, p)
  }

  // Indices with two of them exchanged.
  function Exchange(n: nat, i: nat, j: nat): seq<int>
    requires i < n && j < n
  {
    Indices(n)[i := j][j := i]
  }

  lemma PutAt(s: seq<int>, k: nat, x: int)
    requires k < |s|
    ensures multiset(s[k := x]) == multiset(s) - multiset{s[k]} + multiset{x}
  {
  }

  lemma ExchangeBag(s: seq<int>, i: nat, j: nat)
    requires i < j < |s|
    ensures multiset(s[i := s[j]][j := s[i]]) == multiset(s)
  {
    var x, y, t := s[i], s[j], s[i := s[j]];
    PutAt(s, i, y);
    PutAt(t, j, x);
    assert x in multiset(s);
    assert multiset(t[j := x]) == multiset(s) - multiset{x} + multiset{y} - multiset{y} + multiset{x};
  }

  lemma ExchangePermutes(n: nat, i: nat, j: nat)
    requires i < j < n
    ensures IsPermutation(Exchange(n, i, j)) && forall k :: 0 <= k < n ==> 0 <= Exchange(n, i, j)[k] < n
  {
    ExchangeBag(Indices(n), i, j);
  }

  // Exchanging a bumped proof with an unbumped one it ties makes their shares unfair.
  lemma ExchangeUnfair(proofs: seq<Proof>, budget: int, collate: Collation, amounts: seq<int>, i: nat, j: nat)
    requires FairShares(proofs, budget, collate, amounts) && i < |proofs| && j < |proofs|
    requires Bumped(proofs, budget, amounts, i) && !Bumped(proofs, budget, amounts, j) && Tied(proofs, budget, collate, i, j)
    ensures i < j && IsPermutation(Exchange(|proofs|, i, j))
    ensures !FairShares(Permute(proofs, Exchange(|proofs|, i, j)), budget, collate, Permute(amounts, Exchange(|proofs|, i, j)))
  {
    assert Comes(proofs, budget, collate, i, j);
    var p := Exchange(|proofs|, i, j);
    ExchangePermutes(|proofs|, i, j);
    var proofs', amounts' := Permute(proofs, p), Permute(amounts, p);
    assert Weights(proofs') == Permute(Weights(proofs), p);
    PermuteTotal(Weights(proofs), p);
    assert proofs'[i] == proofs[j] && proofs'[j] == proofs[i] && amounts'[i] == amounts[j] && amounts'[j] == amounts[i];
    hide TotalWeight, IsPermutation, Permute;
    assert Bumped(proofs', budget, amounts', j) && !Bumped(proofs', budget, amounts', i);
    assert !Comes(proofs', budget, collate, j, i);
  }

  // For these proofs and this budget, order is irrelevant exactly when no proof that got one
  // more ties one that did not.
  lemma OrderIgnoredHereIff(proofs: seq<Proof>, budget: int, collate: Collation, amounts: seq<int>)
    requires FairShares(proofs, budget, collate, amounts)
    ensures NoTiedEdge(proofs, budget, collate, amounts) <==> SharesIgnoreOrder(proofs, budget, collate, amounts)
  {
    if NoTiedEdge(proofs, budget, collate, amounts) {
      forall p, amounts' | |p| == |proofs| && IsPermutation(p) && (forall i :: 0 <= i < |p| ==> 0 <= p[i] < |proofs|)
        && FairShares(Permute(proofs, p), budget, collate, amounts')
        ensures amounts' == Permute(amounts, p)
      {
        PermutedFair(proofs, budget, collate, amounts, p);
        FairSharesUnique(Permute(proofs, p), budget, collate, amounts', Permute(amounts, p));
      }
    } else {
      var i, j :| 0 <= i < |proofs| && 0 <= j < |proofs| && Bumped(proofs, budget, amounts, i) && !Bumped(proofs, budget, amounts, j)
        && Tied(proofs, budget, collate, i, j);
      var p := Exchange(|proofs|, i, j);
      ExchangeUnfair(proofs, budget, collate, amounts, i, j);
      ExchangePermutes(|proofs|, i, j);
      hide IsPermutation, FairShares, NoTiedEdge;
      PermutedWeight(proofs, p);
      var amounts' := FairExists(Permute(proofs, p), budget, collate);
    }
  }

  lemma PermutedWeight(proofs: seq<Proof>, p: seq<int>)
    requires |p| == |proofs| && IsPermutation(p) && forall i :: 0 <= i < |p| ==> 0 <= p[i] < |proofs|
    ensures TotalWeight(Permute(proofs, p)) == TotalWeight(proofs)
  {
    assert Weights(Permute(proofs, p)) == Permute(Weights(proofs), p);
    PermuteTotal(Weights(proofs), p);
  }

  // Fair shares always exist: the three steps find them.
  lemma FairExists(proofs: seq<Proof>, budget: int, collate: Collation) returns (amounts: seq<int>)
    requires 0 < TotalWeight(proofs) && proofs != []
    ensures FairShares(proofs, budget, collate, amounts)
  {
    LeftOverInRange(proofs, budget);
    var sorted := Sort(Rows(proofs, budget), ByRemainder(collate));
    var k := budget - Total(Floors(proofs, budget));
    var back := Sort(BumpPrefix(sorted, k), ByIndex());
    DistributedFair(proofs, budget, collate, sorted, k, back);
    amounts := Map(Amount, back);
  }

  ghost predicate Separates(collate: Collation) {
    forall a, b :: collate(a) == collate(b) ==> a == b
  }

  ghost predicate DistinctIds(proofs: seq<Proof>) {
    forall i, j :: 0 <= i < j < |proofs| ==> proofs[i].proofId != proofs[j].proofId
  }

  // Every proof gets the same however these proofs are ordered.
  ghost predicate IgnoresOrder(proofs: seq<Proof>, collate: Collation) {
    forall budget, p, amounts, amounts' ::
      |p| == |proofs| && IsPermutation(p) && (forall i :: 0 <= i < |p| ==> 0 <= p[i] < |proofs|)
      && FairShares(proofs, budget, collate, amounts) && FairShares(Permute(proofs, p), budget, collate, amounts')
      ==> amounts' == Permute(amounts, p)
  }

  // Two tied proofs and one unit: the earlier gets it.
  lemma TieGoesToEarlier(a: string, b: string, collate: Collation)
    requires collate(a) == collate(b)
    ensures FairShares([Proof(a, "", 1), Proof(b, "", 1)], 1, collate, [1, 0])
  {
    var proofs := [Proof(a, "", 1), Proof(b, "", 1)];
    assert Weights(proofs) == [1, 1] && [1, 1][1..] == [1] && [1, 0][1..] == [0] && [1][1..] == [] && [0][1..] == [];
    assert Total([1]) == 1 && Total([0]) == 0 && TotalWeight(proofs) == 2 && Total([1, 0]) == 1;
    assert Floor(proofs, 1, 0) == 0 && Floor(proofs, 1, 1) == 0 && Remainder(proofs, 1, 0) == 1 && Remainder(proofs, 1, 1) == 1;
  }

  // Odd units go to the larger remainders first, then to the ids that collate lower, then to the
  // earlier proofs.
  lemma OddUnits(proofs: seq<Proof>, budget: int, collate: Collation, amounts: seq<int>, i: nat, j: nat)
    requires FairShares(proofs, budget, collate, amounts) && i < |proofs| && j < |proofs| && i != j
    requires var t := TotalWeight(proofs);
      var (a, b) := (budget * proofs[i].weight % t, budget * proofs[j].weight % t);
      a > b || (a == b && (collate(proofs[i].proofId) < collate(proofs[j].proofId) || (collate(proofs[i].proofId) == collate(proofs[j].proofId) && i < j)))
    ensures var t := TotalWeight(proofs);
      amounts[j] == budget * proofs[j].weight / t + 1 ==> amounts[i] == budget * proofs[i].weight / t + 1
  {
    assert Bumped(proofs, budget, amounts, i) || amounts[i] == Floor(proofs, budget, i);
  }

  // Order never matters for proofs with distinct ids exactly when the collation ties no two ids.
  lemma OrderIgnoredIff(collate: Collation)
    ensures Separates(collate) <==> forall proofs :: DistinctIds(proofs) ==> IgnoresOrder(proofs, collate)
  {
    if Separates(collate) {
      forall proofs | DistinctIds(proofs) ensures IgnoresOrder(proofs, collate) {
        forall budget, p, amounts, amounts' |
          |p| == |proofs| && IsPermutation(p) && (forall i :: 0 <= i < |p| ==> 0 <= p[i] < |proofs|)
          && FairShares(proofs, budget, collate, amounts) && FairShares(Permute(proofs, p), budget, collate, amounts')
          ensures amounts' == Permute(amounts, p)
        {
          OrderIndependent(proofs, budget, collate, p, amounts, amounts');
        }
      }
    } else {
      var a, b :| collate(a) == collate(b) && a != b;
      TieShows(a, b, collate);
    }
  }

  lemma TieShows(a: string, b: string, collate: Collation)
    requires a != b && collate(a) == collate(b)
    ensures DistinctIds([Proof(a, "", 1), Proof(b, "", 1)]) && !IgnoresOrder([Proof(a, "", 1), Proof(b, "", 1)], collate)
  {
    var proofs, p := [Proof(a, "", 1), Proof(b, "", 1)], [1, 0];
    TieGoesToEarlier(a, b, collate);
    TieGoesToEarlier(b, a, collate);
    assert Indices(2) == [0, 1];
    assert IsPermutation(p) by { assert multiset(p) == multiset{0, 1} && multiset([0, 1]) == multiset{0, 1}; }
    assert Permute(proofs, p) == [Proof(b, "", 1), Proof(a, "", 1)];
    assert Permute([1, 0], p) == [0, 1];
    assert [1, 0] != [0, 1] by { assert [1, 0][0] != [0, 1][0]; }
    hide FairShares, IsPermutation;
  }

  // ---------- Sorting in place, bumping a prefix and sorting back ----------

  datatype Row = Row(proofId: string, recipient: string, index: int, amount: int, remainder: int)

  function ByRemainder(collate: Collation): (Row, Row) -> bool {
    (a: Row, b: Row) => a.remainder > b.remainder || (a.remainder == b.remainder && collate(a.proofId) <= collate(b.proofId))
  }

  // The same order with its ties broken by input position, which a stable sort respects.
  function ByRemainderThenIndex(collate: Collation): (Row, Row) -> bool {
    (a: Row, b: Row) => a.remainder > b.remainder
      || (a.remainder == b.remainder && (collate(a.proofId) < collate(b.proofId) || (collate(a.proofId) == collate(b.proofId) && a.index <= b.index)))
  }

  function ByIndex(): (Row, Row) -> bool {
    (a: Row, b: Row) => a.index <= b.index
  }

  function Index(r: Row): int { r.index }

  function Amount(r: Row): int { r.amount }

  function Rows(proofs: seq<Proof>, budget: int): seq<Row>
    requires 0 < TotalWeight(proofs)
  {
    seq(|proofs|, i requires 0 <= i < |proofs| =>
      Row(proofs[i].proofId, proofs[i].recipient, i, Floor(proofs, budget, i), Remainder(proofs, budget, i)))
  }

  function BumpPrefix(rows: seq<Row>, k: int): seq<Row> {
    seq(|rows|, i requires 0 <= i < |rows| => if i < k then rows[i].(amount := rows[i].amount + 1) else rows[i])
  }

  lemma {:induction false} BumpTotal(rows: seq<Row>, k: nat)
    requires k <= |rows|
    ensures Total(Map(Amount, BumpPrefix(rows, k))) == Total(Map(Amount, rows)) + k
  {
    var after, before := Map(Amount, BumpPrefix(rows, k)), Map(Amount, rows);
    if rows != [] {
      var rest := if k == 0 then 0 else k - 1;
      BumpTotal(rows[1..], rest);
      assert BumpPrefix(rows, k)[1..] == BumpPrefix(rows[1..], rest);
      assert after[1..] == Map(Amount, BumpPrefix(rows[1..], rest));
      assert before[1..] == Map(Amount, rows[1..]);
    }
  }

  lemma ByIndexTotal()
    ensures TotalOrder(ByIndex())
  {
  }

  // Rows sorted by distinct indices stand at their indices.
  lemma SortedAtIndex(back: seq<Row>, i: nat)
    requires Sorted(back, ByIndex()) && IsPermutation(Map(Index, back)) && i < |back|
    ensures back[i].index == i
  {
    var p := Map(Index, back);
    PermutationInRange(p);
    forall j, k | 0 <= j < k < |p| ensures p[j] < p[k] {
      PermutationDistinct(p, j, k);
      assert ByIndex()(back[j], back[k]);
    }
    hide IsPermutation, Sorted;
    IncreasingIndices(p, i);
  }

  // Sorting by index puts a permuted list of rows back in input order.
  lemma BackInOrder(rows: seq<Row>, back: seq<Row>, i: nat)
    requires IsPermutation(Map(Index, rows)) && back == Sort(rows, ByIndex()) && i < |rows|
    ensures |back| == |rows| && back[i].index == i && multiset(back) == multiset(rows)
  {
    hide Sort, TotalOrder, Sorted, ByIndex;
    ByIndexTotal();
    SortSorts(rows, ByIndex());
    MapPerm(Index, back, rows);
    SortedAtIndex(back, i);
  }

  lemma RemainderOrders(collate: Collation)
    ensures TotalOrder(ByRemainder(collate)) && TotalOrder(ByRemainderThenIndex(collate))
  {
  }

  lemma RowsAgree(proofs: seq<Proof>, budget: int, collate: Collation, i: nat, j: nat)
    requires 0 < TotalWeight(proofs) && i < j < |proofs|
    ensures var rows := Rows(proofs, budget);
            ByRemainder(collate)(rows[i], rows[j]) == ByRemainderThenIndex(collate)(rows[i], rows[j])
  {
    hide Floor, Remainder, TotalWeight;
  }

  lemma RowColumns(proofs: seq<Proof>, budget: int)
    requires 0 < TotalWeight(proofs)
    ensures |Rows(proofs, budget)| == |proofs|
    ensures Map(Index, Rows(proofs, budget)) == Indices(|proofs|)
    ensures Map(Amount, Rows(proofs, budget)) == Floors(proofs, budget)
  {
    hide Floor, Remainder, TotalWeight;
  }

  lemma SortedRows(proofs: seq<Proof>, budget: int, collate: Collation, sorted: seq<Row>)
    requires 0 < TotalWeight(proofs) && sorted == Sort(Rows(proofs, budget), ByRemainder(collate))
    ensures |sorted| == |proofs| && multiset(sorted) == multiset(Rows(proofs, budget)) && Sorted(sorted, ByRemainderThenIndex(collate))
    ensures IsPermutation(Map(Index, sorted))
    ensures Total(Map(Amount, sorted)) == Total(Floors(proofs, budget))
  {
    hide ByRemainder, ByRemainderThenIndex, TotalWeight, Floors, Sort, Sorted, TotalOrder;
    var rows := Rows(proofs, budget);
    RemainderOrders(collate);
    RowColumns(proofs, budget);
    forall i, j | 0 <= i < j < |rows| ensures ByRemainder(collate)(rows[i], rows[j]) == ByRemainderThenIndex(collate)(rows[i], rows[j]) {
      RowsAgree(proofs, budget, collate, i, j);
    }
    SortAgrees(rows, ByRemainder(collate), ByRemainderThenIndex(collate));
    SortSorts(rows, ByRemainderThenIndex(collate));
    hide Rows;
    MapPerm(Index, sorted, rows);
    MapPerm(Amount, sorted, rows);
    TotalPerm(Map(Amount, sorted), Map(Amount, rows));
  }

  lemma InBag<T>(s: seq<T>, x: T) returns (q: nat)
    requires x in multiset(s)
    ensures q < |s| && s[q] == x
  {
    q :| 0 <= q < |s| && s[q] == x;
  }

  // The row that ends at position i comes from proof i, bumped when its sorted place is early.
  lemma PlaceOf(proofs: seq<Proof>, budget: int, collate: Collation, sorted: seq<Row>, k: nat, back: seq<Row>, i: nat) returns (q: nat)
    requires 0 < TotalWeight(proofs) && sorted == Sort(Rows(proofs, budget), ByRemainder(collate))
    requires back == Sort(BumpPrefix(sorted, k), ByIndex()) && i < |proofs|
    ensures |back| == |proofs| && q < |sorted| && sorted[q] == Rows(proofs, budget)[i] && back[i] == BumpPrefix(sorted, k)[q]
  {
    hide Sort, Sorted, IsPermutation, TotalWeight, Floor, Remainder, Floors, Total;
    SortedRows(proofs, budget, collate, sorted);
    var bumped, rows := BumpPrefix(sorted, k), Rows(proofs, budget);
    assert Map(Index, bumped) == Map(Index, sorted);
    BackInOrder(bumped, back, i);
    assert back[i] in multiset(back);
    q := InBag(bumped, back[i]);
    assert sorted[q] in multiset(sorted);
    var m := InBag(rows, sorted[q]);
  }

  // The run of the three steps, and what is left to say about it.
  ghost predicate Distributed(proofs: seq<Proof>, budget: int, collate: Collation, sorted: seq<Row>, k: nat, back: seq<Row>) {
    && 0 < TotalWeight(proofs) && sorted == Sort(Rows(proofs, budget), ByRemainder(collate))
    && k == budget - Total(Floors(proofs, budget)) && k <= |proofs|
    && back == Sort(BumpPrefix(sorted, k), ByIndex())
  }

  lemma DistributedRow(proofs: seq<Proof>, budget: int, collate: Collation, sorted: seq<Row>, k: nat, back: seq<Row>, i: nat)
    requires Distributed(proofs, budget, collate, sorted, k, back) && i < |proofs|
    ensures |back| == |proofs| && (back[i].amount == Floor(proofs, budget, i) || back[i].amount == Floor(proofs, budget, i) + 1)
    ensures back[i].proofId == proofs[i].proofId && back[i].recipient == proofs[i].recipient
  {
    var q := PlaceOf(proofs, budget, collate, sorted, k, back, i);
    hide Sort, IsPermutation, TotalWeight, Floors;
  }

  lemma DistributedOrder(proofs: seq<Proof>, budget: int, collate: Collation, sorted: seq<Row>, k: nat, back: seq<Row>, i: nat, j: nat)
    requires Distributed(proofs, budget, collate, sorted, k, back) && i < |proofs| && j < |proofs| && |back| == |proofs|
    requires back[i].amount == Floor(proofs, budget, i) + 1 && back[j].amount == Floor(proofs, budget, j)
    ensures Comes(proofs, budget, collate, i, j)
  {
    SortedRows(proofs, budget, collate, sorted);
    var q := PlaceOf(proofs, budget, collate, sorted, k, back, i);
    var r := PlaceOf(proofs, budget, collate, sorted, k, back, j);
    hide Sort, IsPermutation, TotalWeight, Floors, Floor, Remainder, Total;
    assert q < k <= r;
    assert ByRemainderThenIndex(collate)(sorted[q], sorted[r]);
  }

  lemma DistributedTotal(proofs: seq<Proof>, budget: int, collate: Collation, sorted: seq<Row>, k: nat, back: seq<Row>)
    requires Distributed(proofs, budget, collate, sorted, k, back)
    ensures |back| == |proofs| && Total(Map(Amount, back)) == budget
  {
    SortedRows(proofs, budget, collate, sorted);
    var bumped := BumpPrefix(sorted, k);
    BumpTotal(sorted, k);
    SortSorts(bumped, ByIndex());
    MapPerm(Amount, back, bumped);
    TotalPerm(Map(Amount, back), Map(Amount, bumped));
  }

  lemma DistributedFair(proofs: seq<Proof>, budget: int, collate: Collation, sorted: seq<Row>, k: nat, back: seq<Row>)
    requires Distributed(proofs, budget, collate, sorted, k, back)
    ensures |back| == |proofs| && FairShares(proofs, budget, collate, Map(Amount, back))
    ensures forall i :: 0 <= i < |proofs| ==> back[i].proofId == proofs[i].proofId && back[i].recipient == proofs[i].recipient
  {
    DistributedTotal(proofs, budget, collate, sorted, k, back);
    var amounts := Map(Amount, back);
    forall i | 0 <= i < |proofs|
      ensures amounts[i] == Floor(proofs, budget, i) || Bumped(proofs, budget, amounts, i)
      ensures back[i].proofId == proofs[i].proofId && back[i].recipient == proofs[i].recipient
    {
      DistributedRow(proofs, budget, collate, sorted, k, back, i);
    }
    forall i, j | 0 <= i < |proofs| && 0 <= j < |proofs| && Bumped(proofs, budget, amounts, i) && !Bumped(proofs, budget, amounts, j)
      ensures Comes(proofs, budget, collate, i, j)
    {
      DistributedOrder(proofs, budget, collate, sorted, k, back, i, j);
    }
  }

  method SortInPlace(rows: array<Row>, le: (Row, Row) -> bool)
    requires TotalOrder(le)
    modifies rows
    ensures rows[..] == Sort(old(rows[..]), le)
  {
    var sorted := Sort(rows[..], le);
    SortSorts(rows[..], le);
    for i := 0 to rows.Length
      invariant rows[..i] == sorted[..i]
    {
      rows[i] := sorted[i];
    }
  }

  function Amounts(shares: seq<Share>): seq<int> {
    Map((s: Share) => s.amount, shares)
  }

  // Shares for these proofs, in the order the proofs came in.
  predicate Answers(proofs: seq<Proof>, shares: seq<Share>) {
    |shares| == |proofs| && forall i :: 0 <= i < |proofs| ==> shares[i].proofId == proofs[i].proofId && shares[i].recipient == proofs[i].recipient
  }

  method CheckWeights(proofs: seq<Proof>) returns (totalWeight: int, valid: bool)
    ensures valid <==> ValidProofs(proofs)
    ensures valid ==> totalWeight == TotalWeight(proofs)
  {
    totalWeight := 0;
    for i := 0 to |proofs|
      invariant forall k :: 0 <= k < i ==> SafeInteger(proofs[k].weight) && 1 <= proofs[k].weight
      invariant totalWeight + Total(Weights(proofs)[i..]) == TotalWeight(proofs)
    {
      if !(SafeInteger(proofs[i].weight) && 1 <= proofs[i].weight) { return 0, false; }
      totalWeight := totalWeight + proofs[i].weight;
    }
    return totalWeight, true;
  }

  method LeftToShare(rows: array<Row>, budget: int) returns (remaining: int)
    ensures remaining == budget - Total(Map(Amount, rows[..]))
  {
    remaining := budget;
    ghost var amounts := Map(Amount, rows[..]);
    for i := 0 to rows.Length
      invariant remaining == budget - Total(amounts) + Total(amounts[i..])
    {
      remaining := remaining - rows[i].amount;
    }
  }

  method Bump(rows: array<Row>, remaining: nat)
    requires remaining <= rows.Length
    modifies rows
    ensures rows[..] == BumpPrefix(old(rows[..]), remaining)
  {
    for i := 0 to remaining
      invariant rows[..] == BumpPrefix(old(rows[..]), i)
    {
      rows[i] := rows[i].(amount := rows[i].amount + 1);
    }
  }

  method Distribute(proofs: seq<Proof>, budget: int, collate: Collation, totalWeight: int) returns (rows: array<Row>)
    requires totalWeight == TotalWeight(proofs) && 0 < totalWeight && proofs != []
    ensures fresh(rows) && rows.Length == |proofs| && FairShares(proofs, budget, collate, Map(Amount, rows[..]))
    ensures forall i :: 0 <= i < |proofs| ==> rows[i].proofId == proofs[i].proofId && rows[i].recipient == proofs[i].recipient
  {
    rows := new Row[|proofs|](i requires 0 <= i < |proofs| =>
      Row(proofs[i].proofId, proofs[i].recipient, i, budget * proofs[i].weight / totalWeight, budget * proofs[i].weight % totalWeight));
    assert rows[..] == Rows(proofs, budget);
    hide Floor, Remainder, TotalWeight, FairShares, Sort, Total;
    assert Map(Amount, rows[..]) == Floors(proofs, budget);
    var remaining := LeftToShare(rows, budget);
    LeftOverInRange(proofs, budget);
    SortInPlace(rows, ByRemainder(collate));
    ghost var sorted := rows[..];
    Bump(rows, remaining);
    SortInPlace(rows, ByIndex());
    DistributedFair(proofs, budget, collate, sorted, remaining, rows[..]);
  }

  method AllocateProRata(proofs: seq<Proof>, budget: int, collate: Collation) returns (r: Result<seq<Share>, Error>)
    ensures r == Err(BadBudget) <==> !(SafeInteger(budget) && 0 <= budget)
    ensures r.Ok? <==> SafeInteger(budget) && 0 <= budget && ValidProofs(proofs)
    ensures r.Ok? ==> Answers(proofs, r.value)
    ensures r.Ok? && proofs != [] ==> FairShares(proofs, budget, collate, Amounts(r.value))
    ensures r.Ok? <==> 0 <= budget < 0x20_0000_0000_0000 && forall i :: 0 <= i < |proofs| ==> 1 <= proofs[i].weight < 0x20_0000_0000_0000
    ensures r.Err? ==> r.error == if 0 <= budget < 0x20_0000_0000_0000 then BadWeight else BadBudget
    ensures r.Ok? ==> |r.value| == |proofs| && forall i :: 0 <= i < |proofs| ==> r.value[i].proofId == proofs[i].proofId && r.value[i].recipient == proofs[i].recipient
  {
    hide FairShares;
    if !(SafeInteger(budget) && 0 <= budget) { return Err(BadBudget); }
    var totalWeight, valid := CheckWeights(proofs);
    if !valid { return Err(BadWeight); }
    TotalPositive(proofs);
    if totalWeight == 0 || budget == 0 {
      var none := Map((p: Proof) => Share(p.proofId, p.recipient, 0), proofs);
      if proofs != [] { NothingIsFair(proofs, collate, Amounts(none)); }
      return Ok(none);
    }
    var rows := Distribute(proofs, budget, collate, totalWeight);
    var shares := Map((row: Row) => Share(row.proofId, row.recipient, row.amount), rows[..]);
    assert Amounts(shares) == Map(Amount, rows[..]);
    return Ok(shares);
  }

  lemma {:induction false} TotalZeros(s: seq<int>)
    requires forall i :: 0 <= i < |s| ==> s[i] == 0
    ensures Total(s) == 0
  {
    if s != [] { TotalZeros(s[1..]); }
  }

  // With nothing to share out, nothing is a fair share.
  lemma NothingIsFair(proofs: seq<Proof>, collate: Collation, amounts: seq<int>)
    requires 0 < TotalWeight(proofs) && |amounts| == |proofs| && forall i :: 0 <= i < |amounts| ==> amounts[i] == 0
    ensures FairShares(proofs, 0, collate, amounts)
  {
    TotalZeros(amounts);
    forall i | 0 <= i < |proofs| ensures Floor(proofs, 0, i) == 0 { assert 0 * proofs[i].weight == 0; }
  }

  // Every share is a safe integer between zero and the budget.
  lemma SharesWithinBudget(proofs: seq<Proof>, budget: int, collate: Collation, amounts: seq<int>, i: nat)
    requires FairShares(proofs, budget, collate, amounts) && ValidProofs(proofs) && 0 <= budget && i < |proofs|
    ensures 0 <= amounts[i] <= budget
  {
    var zeros := seq(|proofs|, k => 0);
    forall k | 0 <= k < |proofs| ensures 0 <= amounts[k] {
      assert proofs[k] in proofs;
      MulMonotone(0, budget, proofs[k].weight);
      QuotientOrder(0, budget * proofs[k].weight, TotalWeight(proofs));
    }
    TotalMonotone(zeros, amounts);
    TotalZeros(zeros);
    assert Total(amounts) - Total(zeros) >= amounts[i] - zeros[i];
  }
}
