/** Recognised capacity of a compute commitment, and the epoch budget it backs. */
module Allocation {
  import opened Results

  const PPM: int := 1_000_000

  datatype Error = NotAnInteger(field: string) | AboveMillion(name: string)

  // ---------- Recognised capacity ----------

  datatype Terms = Terms(nominal: int, assurancePpm: int, availabilityPpm: int, reservePpm: int)

  predicate InRange(n: int, minimum: int) {
    SafeInteger(n) && minimum <= n
  }

  function FieldName(i: nat): string {
    if i == 0 then "assurance_ppm" else if i == 1 then "availability_ppm" else "reserve_ppm"
  }

  function Factors(t: Terms): seq<int> {
    [t.assurancePpm, t.availabilityPpm, t.reservePpm]
  }

  predicate ValidTerms(t: Terms) {
    InRange(t.nominal, 1) && forall f <- Factors(t) :: InRange(f, 0) && f <= PPM
  }

  // Three successive floors.
  function Recognised(t: Terms): int {
    t.nominal * t.assurancePpm / PPM * t.availabilityPpm / PPM * t.reservePpm / PPM
  }

  lemma TermsInRange(t: Terms)
    ensures ValidTerms(t) <==>
      && 1 <= t.nominal < 0x20_0000_0000_0000 && 0 <= t.assurancePpm <= 1_000_000
      && 0 <= t.availabilityPpm <= 1_000_000 && 0 <= t.reservePpm <= 1_000_000
  {
    assert t.assurancePpm in Factors(t) && t.availabilityPpm in Factors(t) && t.reservePpm in Factors(t);
  }

  method RecognisedCapacity(t: Terms) returns (r: Result<int, Error>)
    ensures r.Ok? <==> ValidTerms(t)
    ensures r.Ok? ==> r.value == Recognised(t)
    ensures r.Ok? <==>
      && 1 <= t.nominal < 0x20_0000_0000_0000 && 0 <= t.assurancePpm <= 1_000_000
      && 0 <= t.availabilityPpm <= 1_000_000 && 0 <= t.reservePpm <= 1_000_000
    ensures r.Ok? ==> r.value == t.nominal * t.assurancePpm / 1_000_000 * t.availabilityPpm / 1_000_000 * t.reservePpm / 1_000_000
    ensures !(1 <= t.nominal < 0x20_0000_0000_0000) ==> r == Err(NotAnInteger("nominal_capacity"))
  {
    TermsInRange(t);
    if !InRange(t.nominal, 1) { return Err(NotAnInteger("nominal_capacity")); }
    var result := t.nominal;
    var factors := Factors(t);
    for i := 0 to 3
      invariant forall k :: 0 <= k < i ==> InRange(factors[k], 0) && factors[k] <= PPM
      invariant i == 0 ==> result == t.nominal
      invariant i == 1 ==> result == t.nominal * t.assurancePpm / PPM
      invariant i == 2 ==> result == t.nominal * t.assurancePpm / PPM * t.availabilityPpm / PPM
      invariant i == 3 ==> result == Recognised(t)
    {
      if !InRange(factors[i], 0) { return Err(NotAnInteger(FieldName(i))); }
      if factors[i] > PPM { return Err(AboveMillion(FieldName(i))); }
      result := result * factors[i] / PPM;
    }
    return Ok(result);
  }

  lemma FloorBounds(n: int)
    ensures n / PPM * PPM <= n < (n / PPM + 1) * PPM
  {
  }

  lemma MulMono(a: int, b: int, k: int)
    requires a <= b && 0 <= k
    ensures a * k <= b * k
  {
  }

  lemma FloorMono(a: int, b: int)
    requires a <= b
    ensures a / PPM <= b / PPM
  {
  }

  // The three floors never exceed the exact product and lose less than three units.
  lemma RecognisedBounds(t: Terms)
    requires ValidTerms(t)
    ensures 0 <= Recognised(t) <= t.nominal
    ensures Recognised(t) * (PPM * PPM * PPM) <= t.nominal * t.assurancePpm * t.availabilityPpm * t.reservePpm
    ensures t.nominal * t.assurancePpm * t.availabilityPpm * t.reservePpm < (Recognised(t) + 3) * (PPM * PPM * PPM)
  {
    var n, a, b, c := t.nominal, t.assurancePpm, t.availabilityPpm, t.reservePpm;
    assert a in Factors(t) && b in Factors(t) && c in Factors(t);
    var r1 := n * a / PPM;
    var r2 := r1 * b / PPM;
    var r3 := r2 * c / PPM;
    OneFloor(n, a);
    OneFloor(r1, b);
    OneFloor(r2, c);
    NextFloor(n * a, r1, PPM, PPM - 1, b, r2);
    NextFloor(n * a * b, r2, PPM * PPM, PPM * (PPM - 1) + (PPM - 1) * PPM, c, r3);
  }

  lemma OneFloor(x: int, f: int)
    requires 0 <= x && 0 <= f <= PPM
    ensures 0 <= x * f / PPM <= x
    ensures (x * f / PPM) * PPM <= x * f <= (x * f / PPM) * PPM + PPM - 1
  {
    FloorBounds(x * f);
    MulMono(0, x, f);
    MulMono(f, PPM, x);
  }

  // If x is r units of `unit` plus at most `slack`, and s is the floor of r·f over a million,
  // then x·f is s units a million times as large, plus a correspondingly larger slack.
  lemma NextFloor(x: int, r: int, unit: int, slack: int, f: int, s: int)
    requires r * unit <= x <= r * unit + slack && 0 <= unit && 0 <= slack && 0 <= f <= PPM
    requires s * PPM <= r * f <= s * PPM + PPM - 1
    ensures s * (unit * PPM) <= x * f <= s * (unit * PPM) + unit * (PPM - 1) + slack * PPM
  {
    MulMono(r * unit, x, f);
    MulMono(x, r * unit + slack, f);
    assert r * unit * f == r * f * unit;
    assert (r * unit + slack) * f == r * f * unit + slack * f;
    MulMono(s * PPM, r * f, unit);
    MulMono(r * f, s * PPM + PPM - 1, unit);
    MulMono(f, PPM, slack);
    assert s * PPM * unit == s * (unit * PPM);
    assert (s * PPM + PPM - 1) * unit == s * (unit * PPM) + unit * (PPM - 1);
    assert slack * f == f * slack && slack * PPM == PPM * slack;
  }

  // Recognised capacity rises with each term.
  lemma RecognisedMonotone(t: Terms, u: Terms)
    requires ValidTerms(t) && ValidTerms(u)
    requires t.nominal <= u.nominal && t.assurancePpm <= u.assurancePpm && t.availabilityPpm <= u.availabilityPpm && t.reservePpm <= u.reservePpm
    ensures Recognised(t) <= Recognised(u)
  {
    assert t.assurancePpm in Factors(t) && t.availabilityPpm in Factors(t) && t.reservePpm in Factors(t);
    StepMono(t.nominal, t.assurancePpm, u.nominal, u.assurancePpm);
    var t1, u1 := t.nominal * t.assurancePpm / PPM, u.nominal * u.assurancePpm / PPM;
    StepMono(t1, t.availabilityPpm, u1, u.availabilityPpm);
    StepMono(t1 * t.availabilityPpm / PPM, t.reservePpm, u1 * u.availabilityPpm / PPM, u.reservePpm);
  }

  lemma StepMono(x: int, f: int, y: int, g: int)
    requires 0 <= x <= y && 0 <= f <= g
    ensures 0 <= x * f / PPM <= y * g / PPM
  {
    MulMono(x, y, f);
    MulMono(f, g, y);
    assert 0 <= x * f <= y * f <= y * g;
    FloorMono(0, x * f);
    FloorMono(x * f, y * g);
  }

  // ---------- The epoch budget ----------

  function TotalRecognised(commitments: seq<Terms>): int {
    if commitments == [] then 0 else Recognised(commitments[0]) + TotalRecognised(commitments[1..])
  }

  function TotalNominal(commitments: seq<Terms>): int {
    if commitments == [] then 0 else commitments[0].nominal + TotalNominal(commitments[1..])
  }

  // The sum of the exact products, in units of a million to the third.
  function TotalExact(commitments: seq<Terms>): int {
    if commitments == [] then 0
    else
      var t := commitments[0];
      t.nominal * t.assurancePpm * t.availabilityPpm * t.reservePpm + TotalExact(commitments[1..])
  }

  // Recognised capacity never adds up to more than the exact products or the nominal amounts.
  lemma {:induction false} TotalBounds(commitments: seq<Terms>)
    requires forall t <- commitments :: ValidTerms(t)
    ensures 0 <= TotalRecognised(commitments) <= TotalNominal(commitments)
    ensures TotalRecognised(commitments) * (PPM * PPM * PPM) <= TotalExact(commitments)
    ensures commitments != [] ==> TotalExact(commitments) < (TotalRecognised(commitments) + 3 * |commitments|) * (PPM * PPM * PPM)
  {
    if commitments != [] {
      assert commitments[0] in commitments;
      hide ValidTerms;
      RecognisedBounds(commitments[0]);
      TotalBounds(commitments[1..]);
    }
  }

  // The sum over the commitments is exact, and so is the quotient.
  method EpochBudget(commitments: seq<Terms>, unitsPerEntitlement: int) returns (r: Result<int, Error>)
    ensures r.Ok? <==> InRange(unitsPerEntitlement, 1) && forall t <- commitments :: ValidTerms(t)
    ensures r.Ok? ==> r.value * unitsPerEntitlement <= TotalRecognised(commitments) < (r.value + 1) * unitsPerEntitlement
    ensures r.Ok? ==> 0 <= r.value
    ensures r.Ok? ==> 1 <= unitsPerEntitlement < 0x20_0000_0000_0000
    ensures !(1 <= unitsPerEntitlement < 0x20_0000_0000_0000) ==> r == Err(NotAnInteger("computeUnitsPerEntitlement"))
  {
    if !InRange(unitsPerEntitlement, 1) { return Err(NotAnInteger("computeUnitsPerEntitlement")); }
    var capacity := 0;
    for i := 0 to |commitments|
      invariant forall k :: 0 <= k < i ==> ValidTerms(commitments[k])
      invariant 0 <= capacity && capacity + TotalRecognised(commitments[i..]) == TotalRecognised(commitments)
    {
      var one := RecognisedCapacity(commitments[i]);
      if one.Err? { return Err(one.error); }
      RecognisedBounds(commitments[i]);
      assert commitments[i..][1..] == commitments[i + 1..];
      capacity := capacity + one.value;
    }
    QuotientBounds(capacity, unitsPerEntitlement);
    return Ok(capacity / unitsPerEntitlement);
  }

  lemma QuotientBounds(n: int, d: int)
    requires 0 <= n && 0 < d
    ensures 0 <= n / d && n / d * d <= n < (n / d + 1) * d
  {
    assert n == d * (n / d) + n % d;
  }
}
