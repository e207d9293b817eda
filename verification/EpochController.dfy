/** Closing an epoch without interruption over the in-memory ledger and proof store. */
module EpochController {
  // List the proofs, find the budget, share it out, allocate, mark the proofs, report. The epoch
  // id is given; of the report's signature only its refusal of unsafe numbers is modelled.
  import opened Results
  import opened Sums
  import A = Allocation
  import R = ProRata
  import L = Ledger
  import LT = LedgerTheorems
  import S = ProofStore
  import E = Epochs
  import ET = EpochTheorems
  import Registry
  import Sorting

  datatype Report = Report(epochId: string, plan: E.Plan, totalWeight: int, allocatedTotal: int)

  datatype Error =
    | NoProofs | NoBacking | BadCommitments(capacityError: A.Error) | BadShares(shareError: R.Error)
    | Refused(ledgerError: L.Error) | NotMarked(storeError: S.Error) | NotSigned(report: Report)

  // The report a close has made, whether or not it could then be signed.
  function Made(r: Result<Report, Error>): Option<Report> {
    match r
    case Ok(report) => Some(report)
    case Err(e) => if e.NotSigned? then Some(e.report) else None
  }

  // What a report says: a plan over exactly the listed proofs that spends its whole budget.
  ghost predicate Reports(store: S.Store, idOrder: R.Collation, profile: Option<string>, report: Report) {
    && report.plan.ids == S.UnconsumedOf(store, store.order, profile)
    && E.PlanOk(store, idOrder, report.plan)
    && report.allocatedTotal == report.plan.budget
    && report.totalWeight == R.TotalWeight(E.Weighed(store, report.plan.ids))
  }

  // What a close needs before it reaches the ledger: proofs to reward, and commitments that
  // back at least one entitlement and no more than a safe integer of them.
  ghost predicate CanPlan(store: S.Store, profile: Option<string>, commitments: seq<A.Terms>, units: int) {
    var ids := S.UnconsumedOf(store, store.order, profile);
    && ids != [] && E.AllIn(store, ids) && R.ValidProofs(E.Weighed(store, ids))
    && A.InRange(units, 1) && (forall t <- commitments :: A.ValidTerms(t))
    && units <= A.TotalRecognised(commitments) < (MAX_SAFE + 1) * units
  }

  lemma BudgetInRange(budget: int, total: int, units: int)
    requires 0 < units && budget * units <= total < (budget + 1) * units
    ensures 0 < budget <==> units <= total
    ensures budget <= MAX_SAFE <==> total < (MAX_SAFE + 1) * units
  {
    if 0 < budget { R.MulMonotone(1, budget, units); } else { R.MulMonotone(budget + 1, 1, units); }
    if budget <= MAX_SAFE { R.MulMonotone(budget + 1, MAX_SAFE + 1, units); } else { R.MulMonotone(MAX_SAFE + 1, budget, units); }
  }

  lemma Planned(store: S.Store, idOrder: R.Collation, p: E.Plan)
    requires p.ids != [] && L.Distinct(p.ids) && E.AllIn(store, p.ids) && E.Backed(p)
    requires R.ValidProofs(E.Weighed(store, p.ids)) && R.Answers(E.Weighed(store, p.ids), p.shares)
    requires R.FairShares(E.Weighed(store, p.ids), p.budget, idOrder, R.Amounts(p.shares))
    ensures E.PlanOk(store, idOrder, p)
  {
  }

  lemma ListedAll(s: S.Store, profile: Option<string>)
    requires S.Valid(s)
    ensures var ids := S.UnconsumedOf(s, s.order, profile);
            L.Distinct(ids) && E.AllIn(s, ids) && forall id <- ids :: S.IsUnconsumed(s, id)
    ensures forall id :: id in S.UnconsumedOf(s, s.order, profile) <==>
      id in s.proofs && s.proofs[id].consumedBy.None? && (profile.None? || profile.value == "" || s.proofs[id].profile == profile.value)
  {
    S.UnconsumedIs(s, s.order, profile);
  }

  // What an accepted plan adds to the issued totals and the replay set.
  lemma Issues(l: L.State, store: S.Store, idOrder: R.Collation, p: E.Plan)
    requires E.PlanOk(store, idOrder, p)
    ensures var s := L.Allocate(l, p.series, E.Items(p.shares));
      s.result.Ok? ==>
        && s.state.consumedProofs == l.consumedProofs + (set id <- p.ids)
        && forall series :: At(s.state.issued, series) == At(l.issued, series) + When(series == p.series, p.budget)
  {
    var items := E.Items(p.shares);
    E.PlanItems(store, idOrder, p);
    hide E.PlanOk, L.Allocate;
    if L.Allocate(l, p.series, items).result.Ok? {
      forall series ensures At(L.Allocate(l, p.series, items).state.issued, series) == At(l.issued, series) + When(series == p.series, p.budget) {
        LT.AllocateIssues(l, p.series, items, series);
      }
      LT.AllocateIssues(l, p.series, items, p.series);
    }
  }

  lemma PlanInStore(store: S.Store, idOrder: R.Collation, p: E.Plan)
    requires E.PlanOk(store, idOrder, p)
    ensures E.AllIn(store, p.ids)
  {
  }

  class EpochController {
    const registry: Registry.SettlementRegistry
    const store: S.InMemoryProofStore
    const idOrder: R.Collation

    constructor (registry: Registry.SettlementRegistry, store: S.InMemoryProofStore, idOrder: R.Collation)
      ensures this.registry == registry && this.store == store && this.idOrder == idOrder
    {
      this.registry, this.store, this.idOrder := registry, store, idOrder;
    }

    // Everything a close works out before it changes anything.
    method PlanClose(seriesId: string, profile: Option<string>, commitments: seq<A.Terms>, units: int) returns (r: Result<E.Plan, Error>)
      requires S.Valid(store.Model())
      ensures r.Ok? <==> CanPlan(store.Model(), profile, commitments, units)
      ensures r == Err(NoProofs) <==> S.UnconsumedOf(store.Model(), store.order, profile) == []
      ensures r.Ok? ==> r.value.series == seriesId && r.value.commitments == commitments && r.value.units == units
      ensures r.Ok? ==> r.value.ids == S.UnconsumedOf(store.Model(), store.order, profile) && E.PlanOk(store.Model(), idOrder, r.value)
      ensures r.Err? ==> !r.error.Refused? && !r.error.NotMarked? && !r.error.NotSigned?
      ensures r.Ok? ==> r.value.profile == profile
      ensures r.Ok? ==> forall id :: id in r.value.ids <==>
        && id in store.proofs && store.proofs[id].consumedBy.None?
        && (profile.None? || profile.value == "" || store.proofs[id].profile == profile.value)
    {
      ListedAll(store.Model(), profile);
      var ids := store.Unconsumed(profile);
      if ids == [] { return Err(NoProofs); }
      hide S.Valid, S.UnconsumedOf, R.FairShares, E.PlanOk, R.Answers, A.ValidTerms, A.TotalRecognised, S.OnePerSubject;
      var budget := A.EpochBudget(commitments, units);
      if budget.Err? { return Err(BadCommitments(budget.error)); }
      BudgetInRange(budget.value, A.TotalRecognised(commitments), units);
      if budget.value <= 0 { return Err(NoBacking); }
      var weighed := E.Weighed(store.Model(), ids);
      var shares := R.AllocateProRata(weighed, budget.value, idOrder);
      if shares.Err? { return Err(BadShares(shares.error)); }
      var plan := E.Plan(seriesId, profile, ids, shares.value, budget.value, commitments, units);
      Planned(store.Model(), idOrder, plan);
      return Ok(plan);
    }

    // The two steps of a close that change anything: allocate, then mark.
    method Reward(plan: E.Plan, epochId: string) returns (r: Result<(), L.Error>)
      requires S.Valid(store.Model()) && E.PlanOk(store.Model(), idOrder, plan) && forall id <- plan.ids :: S.IsUnconsumed(store.Model(), id)
      modifies registry, store
      ensures S.Valid(store.Model())
      ensures r.Ok? <==> ET.RecipientsRegistered(old(registry.Model()), old(store.Model()), plan.ids) && ET.Unissued(old(registry.Model()), plan.ids)
      ensures r.Err? ==> registry.Model() == old(registry.Model()) && store.Model() == old(store.Model())
      ensures r.Ok? ==>
        && L.Allocate(old(registry.Model()), plan.series, E.Items(plan.shares)) == L.Step(registry.Model(), Ok(()))
        && store.Model() == S.Mark(old(store.Model()), plan.ids, epochId)
      ensures r.Ok? ==>
        && (forall id <- old(store.proofs) ::
              id in store.proofs && store.proofs[id] == if id in plan.ids then old(store.proofs)[id].(consumedBy := Some(epochId)) else old(store.proofs)[id])
        && registry.consumedProofs == old(registry.consumedProofs) + (set id <- plan.ids)
        && (forall series :: At(registry.issuedBySeries, series) == At(old(registry.issuedBySeries), series) + When(series == plan.series, plan.budget))
    {
      ET.PlanShape(store.Model(), idOrder, plan);
      ghost var before := store.Model();
      ET.LedgerAcceptsIff(registry.Model(), before, idOrder, plan);
      Issues(registry.Model(), before, idOrder, plan);
      S.ConsumeKeeps(before, plan.ids, epochId);
      hide S.Valid, E.PlanOk, ET.RecipientsRegistered, ET.Unissued, L.Allocate, E.Items, L.Distinct;
      var accepted := registry.Allocate(plan.series, E.Items(plan.shares));
      if accepted.Err? { return Err(accepted.error); }
      var marked := store.Consume(plan.ids, epochId);
      assert marked.Ok?;
      return Ok(());
    }

    method Close(seriesId: string, profile: Option<string>, commitments: seq<A.Terms>, units: int, epochId: string) returns (r: Result<Report, Error>)
      requires S.Valid(store.Model())
      modifies registry, store
      ensures S.Valid(store.Model())
      ensures Made(r).None? ==> registry.Model() == old(registry.Model()) && store.Model() == old(store.Model())
      ensures r == Err(NoProofs) <==> S.UnconsumedOf(old(store.Model()), old(store.order), profile) == []
      ensures Made(r).Some? <==>
        && CanPlan(old(store.Model()), profile, commitments, units)
        && var ids := S.UnconsumedOf(old(store.Model()), old(store.order), profile);
           ET.RecipientsRegistered(old(registry.Model()), old(store.Model()), ids) && ET.Unissued(old(registry.Model()), ids)
      ensures r.Ok? <==> Made(r).Some? && E.Signable(old(store.Model()), Made(r).value.plan)
      ensures Made(r).Some? ==>
        var report := Made(r).value;
        && Reports(old(store.Model()), idOrder, profile, report)
        && report.epochId == epochId && report.plan.series == seriesId && report.plan.commitments == commitments && report.plan.units == units
        && L.Allocate(old(registry.Model()), seriesId, E.Items(report.plan.shares)) == L.Step(registry.Model(), Ok(()))
        && store.Model() == S.Mark(old(store.Model()), report.plan.ids, epochId)
      ensures Made(r).Some? ==>
        var p := Made(r).value.plan;
        && (forall id :: id in p.ids <==>
              && id in old(store.proofs) && old(store.proofs)[id].consumedBy.None?
              && (profile.None? || profile.value == "" || old(store.proofs)[id].profile == profile.value))
        && (forall id <- old(store.proofs) ::
              id in store.proofs && store.proofs[id] == if id in p.ids then old(store.proofs)[id].(consumedBy := Some(epochId)) else old(store.proofs)[id])
        && registry.consumedProofs == old(registry.consumedProofs) + (set id <- p.ids)
        && (forall series :: At(registry.issuedBySeries, series) == At(old(registry.issuedBySeries), series) + When(series == seriesId, p.budget))
    {
      var planned := PlanClose(seriesId, profile, commitments, units);
      if planned.Err? { return Err(planned.error); }
      var plan := planned.value;
      ListedAll(store.Model(), profile);
      E.PlanItems(store.Model(), idOrder, plan);
      E.ItemsTotal(plan.shares);
      PlanInStore(store.Model(), idOrder, plan);
      var report := Report(epochId, plan, R.TotalWeight(E.Weighed(store.Model(), plan.ids)), Sorting.Total(R.Amounts(plan.shares)));
      hide S.Valid, S.UnconsumedOf, E.PlanOk, S.Mark;
      hide CanPlan, ET.RecipientsRegistered, ET.Unissued, L.Allocate, E.Items, R.TotalWeight, Sorting.Total, S.IsUnconsumed;
      var rewarded := Reward(plan, epochId);
      if rewarded.Err? { return Err(Refused(rewarded.error)); }
      r := if report.totalWeight <= MAX_SAFE then Ok(report) else Err(NotSigned(report));
    }
  }
}
