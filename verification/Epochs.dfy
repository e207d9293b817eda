/** Epoch closes over the ledger and the proof store, each split at its awaits. */
module Epochs {
  // A close lists proofs and works out the shares, then allocates, then marks the proofs, then
  // records its report. Any number of closes interleave with proof additions and other ledger
  // calls, and a close may stop anywhere.
  import opened Results
  import opened Sums
  import Sorting
  import A = Allocation
  import R = ProRata
  import L = Ledger
  import T = LedgerTheorems
  import P = Proofs
  import C = Canonical
  import S = ProofStore

  datatype Controller = Controller(hash: P.Hash, keyOrder: C.Collation, idOrder: R.Collation, minimum: string)

  // What a close has worked out before it allocates.
  datatype Plan = Plan(
    series: string, profile: Option<string>, ids: seq<string>, shares: seq<R.Share>, budget: int,
    commitments: seq<A.Terms>, units: int)

  // One accepted allocation, of a close or made directly on the ledger.
  datatype Epoch = Epoch(series: string, ids: seq<string>, total: int, plan: Option<Plan>)

  datatype Marked = Marked(plan: Plan, epoch: string)

  datatype State = State(
    ledger: L.State,
    store: S.Store,
    bundles: map<string, seq<P.Validation>>, // the attestations each stored proof was issued from
    open: map<int, Plan>,                    // closes that have listed proofs and not yet allocated
    granted: map<int, Plan>,                 // closes that have allocated and not yet marked
    marked: map<int, Marked>,                // closes that have marked and not yet recorded
    recorded: map<string, string>,           // the epoch recorded for each series, in the tables
    committed: seq<Epoch>)

  const Empty := State(L.Empty, S.Empty, map[], map[], map[], map[], map[], [])

  datatype Op =
    | OpAttest(origin: P.Origin, validations: seq<P.Validation>, now: int)
    | OpLedger(call: L.Op)
    | OpRead(close: int, plan: Plan)
    | OpCommit(close: int)
    | OpConsume(close: int, epoch: string, rows: bool)
    | OpRecord(close: int, rows: bool)

  // ---------- Steps ----------

  function AsStored(p: P.LanguageProof): S.Stored {
    S.Stored(p.interaction, p.recipient, p.profile, p.weight, None)
  }

  ghost predicate AllIn(store: S.Store, ids: seq<string>) {
    forall id <- ids :: id in store.proofs
  }

  function Weighed(store: S.Store, ids: seq<string>): seq<R.Proof>
    requires forall id <- ids :: id in store.proofs
  {
    seq(|ids|, i requires 0 <= i < |ids| => R.Proof(ids[i], store.proofs[ids[i]].recipient, store.proofs[ids[i]].weight))
  }

  function Items(shares: seq<R.Share>): seq<L.Allocation> {
    seq(|shares|, i requires 0 <= i < |shares| => L.Allocation(shares[i].proofId, shares[i].recipient, shares[i].amount))
  }

  predicate Backed(p: Plan) {
    && SafeInteger(p.budget) && 0 < p.budget && 0 < p.units && (forall t <- p.commitments :: A.ValidTerms(t))
    && p.budget * p.units <= A.TotalRecognised(p.commitments) < (p.budget + 1) * p.units
  }

  // The plan fairly shares a backed budget over distinct stored proofs.
  ghost predicate PlanOk(store: S.Store, idOrder: R.Collation, p: Plan) {
    && p.ids != [] && L.Distinct(p.ids) && AllIn(store, p.ids) && Backed(p)
    && R.ValidProofs(Weighed(store, p.ids))
    && R.Answers(Weighed(store, p.ids), p.shares)
    && R.FairShares(Weighed(store, p.ids), p.budget, idOrder, R.Amounts(p.shares))
  }

  // Both stores list only unconsumed proofs, each once.
  ghost predicate Readable(c: Controller, s: State, p: Plan) {
    PlanOk(s.store, c.idOrder, p) && forall id <- p.ids :: S.IsUnconsumed(s.store, id)
  }

  function Attest(c: Controller, s: State, o: P.Origin, validations: seq<P.Validation>, now: int): State {
    match P.Issue(c.hash, c.keyOrder, c.minimum, o, validations, now)
    case Err(_) => s
    case Ok(p) =>
      var (store, r) := S.AddProof(s.store, p.proofId, AsStored(p));
      if r.Ok? then s.(store := store, bundles := s.bundles[p.proofId := validations]) else s
  }

  function Direct(s: State, call: L.Op): State {
    var (ledger, accepted) := L.Apply(s.ledger, call);
    s.(ledger := ledger,
       committed := if accepted && call.OpAllocate?
         then s.committed + [Epoch(call.series, L.ProofIds(call.items), T.AllocationTotal(call.items), None)]
         else s.committed)
  }

  function Commit(s: State, close: int): State
    requires close in s.open
  {
    var p := s.open[close];
    var r := L.Allocate(s.ledger, p.series, Items(p.shares));
    var closed := s.(ledger := r.state, open := s.open - {close});
    if r.result.Ok?
    then closed.(granted := closed.granted[close := p], committed := s.committed + [Epoch(p.series, p.ids, p.budget, Some(p))])
    else closed
  }

  function ConsumePlan(s: State, close: int, epoch: string, rows: bool): State
    requires close in s.granted
  {
    var p := s.granted[close];
    s.(store := if rows then S.ConsumeRows(s.store, p.ids, epoch) else S.ConsumeProofs(s.store, p.ids, epoch).0,
       granted := s.granted - {close},
       marked := if S.ConsumeProofs(s.store, p.ids, epoch).1.Ok? then s.marked[close := Marked(p, epoch)] else s.marked)
  }

  // A report is signed before it is recorded, and canonical text takes safe numbers only.
  predicate Signable(store: S.Store, p: Plan) {
    (forall id <- p.ids :: id in store.proofs) && R.TotalWeight(Weighed(store, p.ids)) <= MAX_SAFE
  }

  // The in-memory store records nothing and never refuses; the table takes one row per series
  // and one per epoch id, and no row without a language profile.
  predicate CanRecord(s: State, m: Marked, rows: bool) {
    Signable(s.store, m.plan) && (rows ==> m.plan.profile.Some? && m.plan.series !in s.recorded && m.epoch !in s.recorded.Values)
  }

  function RecordEpoch(s: State, close: int, rows: bool): State
    requires close in s.marked
  {
    var m := s.marked[close];
    s.(marked := s.marked - {close}, recorded := if rows && CanRecord(s, m, rows) then s.recorded[m.plan.series := m.epoch] else s.recorded)
  }

  ghost function Step(c: Controller, s: State, op: Op): State {
    match op
    case OpAttest(o, validations, now) => Attest(c, s, o, validations, now)
    case OpLedger(call) => Direct(s, call)
    case OpRead(close, plan) => if close !in s.granted && Readable(c, s, plan) then s.(open := s.open[close := plan]) else s
    case OpCommit(close) => if close in s.open then Commit(s, close) else s
    case OpConsume(close, epoch, rows) => if close in s.granted then ConsumePlan(s, close, epoch, rows) else s
    case OpRecord(close, rows) => if close in s.marked then RecordEpoch(s, close, rows) else s
  }

  ghost function Run(c: Controller, s: State, ops: seq<Op>): State
    decreases |ops|
  {
    if ops == [] then s else Run(c, Step(c, s, ops[0]), ops[1..])
  }

  // ---------- The invariant ----------

  // The stored proof carries the highest weight among its attestations, and they agree on it.
  ghost predicate Attested(p: S.Stored, validations: seq<P.Validation>) {
    && validations != [] && validations[0].profile == p.profile
    && (forall v <- validations :: v.interaction == p.interaction && v.recipient == p.recipient && P.Weight(v.rewardState) <= p.weight)
    && (exists v <- validations :: P.Weight(v.rewardState) == p.weight)
    && 1 <= p.weight <= 4
  }

  ghost predicate BundlesOk(s: State) {
    forall id <- s.store.proofs :: id in s.bundles && Attested(s.store.proofs[id], s.bundles[id])
  }

  ghost predicate EpochOk(store: S.Store, idOrder: R.Collation, e: Epoch) {
    L.Distinct(e.ids) && (e.plan.Some? ==> PlanOk(store, idOrder, e.plan.value) && e == Epoch(e.plan.value.series, e.plan.value.ids, e.plan.value.budget, e.plan))
  }

  ghost predicate PlansOk(c: Controller, s: State) {
    && (forall k <- s.open :: PlanOk(s.store, c.idOrder, s.open[k]))
    && (forall k <- s.granted :: PlanOk(s.store, c.idOrder, s.granted[k]))
    && (forall i :: 0 <= i < |s.committed| ==> EpochOk(s.store, c.idOrder, s.committed[i]))
  }

  ghost predicate Apart(e: Epoch, f: Epoch) {
    forall id <- e.ids :: id !in f.ids
  }

  ghost predicate Disjoint(committed: seq<Epoch>) {
    forall i, j :: 0 <= i < j < |committed| ==> Apart(committed[i], committed[j])
  }

  ghost predicate Holds(committed: seq<Epoch>, id: string) {
    exists i :: 0 <= i < |committed| && id in committed[i].ids
  }

  // The ledger's replay set is exactly the proofs of the committed epochs.
  ghost predicate ReplayOk(s: State) {
    forall id :: id in s.ledger.consumedProofs <==> Holds(s.committed, id)
  }

  // A proof is marked only after it was allocated.
  ghost predicate MarksOk(s: State) {
    && (forall k <- s.granted, id <- s.granted[k].ids :: id in s.ledger.consumedProofs)
    && (forall id <- s.store.proofs :: s.store.proofs[id].consumedBy.Some? ==> id in s.ledger.consumedProofs)
  }

  function CommittedTotal(committed: seq<Epoch>, series: string): int {
    if committed == [] then 0
    else
      var last := committed[|committed| - 1];
      CommittedTotal(committed[..|committed| - 1], series) + When(last.series == series, last.total)
  }

  ghost predicate IssuedOk(s: State) {
    forall series :: L.IssuedTotal(s.ledger, series) == CommittedTotal(s.committed, series)
  }

  ghost predicate Closed(committed: seq<Epoch>, p: Plan) {
    exists i :: 0 <= i < |committed| && committed[i] == Epoch(p.series, p.ids, p.budget, Some(p))
  }

  ghost predicate HasClose(committed: seq<Epoch>, series: string) {
    exists i :: 0 <= i < |committed| && committed[i].plan.Some? && committed[i].series == series
  }

  // Whoever marks or records has allocated.
  ghost predicate RecordsOk(s: State) {
    && (forall k <- s.granted :: Closed(s.committed, s.granted[k]))
    && (forall k <- s.marked :: Closed(s.committed, s.marked[k].plan))
    && (forall series <- s.recorded :: HasClose(s.committed, series))
  }

  ghost predicate Inv(c: Controller, s: State) {
    S.Valid(s.store) && BundlesOk(s) && PlansOk(c, s) && Disjoint(s.committed) && ReplayOk(s) && MarksOk(s) && IssuedOk(s) && RecordsOk(s)
  }

  // ---------- Each step keeps it ----------

  lemma PlanStable(s: S.Store, t: S.Store, idOrder: R.Collation, p: Plan)
    requires S.Extends(s, t) && PlanOk(s, idOrder, p)
    ensures PlanOk(t, idOrder, p)
  {
    forall id | id in p.ids ensures id in t.proofs && t.proofs[id].(consumedBy := None) == s.proofs[id].(consumedBy := None) {}
    forall i | 0 <= i < |p.ids| ensures Weighed(t, p.ids)[i] == Weighed(s, p.ids)[i] {
      assert p.ids[i] in p.ids;
      assert t.proofs[p.ids[i]].(consumedBy := None) == s.proofs[p.ids[i]].(consumedBy := None);
    }
    assert Weighed(t, p.ids) == Weighed(s, p.ids);
  }

  lemma PlansStable(c: Controller, s: State, t: State)
    requires S.Extends(s.store, t.store) && PlansOk(c, s)
    requires t.open.Keys <= s.open.Keys && forall k <- t.open :: t.open[k] == s.open[k]
    requires t.granted.Keys <= s.granted.Keys && forall k <- t.granted :: t.granted[k] == s.granted[k]
    requires t.committed == s.committed
    ensures PlansOk(c, t)
  {
    hide PlanOk, S.Extends;
    forall k | k in t.open ensures PlanOk(t.store, c.idOrder, t.open[k]) { PlanStable(s.store, t.store, c.idOrder, s.open[k]); }
    forall k | k in t.granted ensures PlanOk(t.store, c.idOrder, t.granted[k]) { PlanStable(s.store, t.store, c.idOrder, s.granted[k]); }
    forall i | 0 <= i < |t.committed| ensures EpochOk(t.store, c.idOrder, t.committed[i]) {
      var e := s.committed[i];
      if e.plan.Some? { PlanStable(s.store, t.store, c.idOrder, e.plan.value); }
    }
  }

  // More accepted allocations take no record away.
  lemma RecordsGrow(s: State, t: State)
    requires RecordsOk(s) && s.committed <= t.committed && t.marked == s.marked && t.recorded == s.recorded
    requires forall k <- t.granted :: k in s.granted && t.granted[k] == s.granted[k]
    ensures RecordsOk(t)
  {
    forall p | Closed(s.committed, p) ensures Closed(t.committed, p) {
      var i :| 0 <= i < |s.committed| && s.committed[i] == Epoch(p.series, p.ids, p.budget, Some(p));
      assert t.committed[i] == s.committed[i];
    }
    forall series | HasClose(s.committed, series) ensures HasClose(t.committed, series) {
      var i :| 0 <= i < |s.committed| && s.committed[i].plan.Some? && s.committed[i].series == series;
      assert t.committed[i] == s.committed[i];
    }
    hide Closed, HasClose;
  }

  // What an added proof leaves of the parts of the invariant about the store.
  lemma AddedOk(s: State, id: string, p: S.Stored, validations: seq<P.Validation>)
    requires BundlesOk(s) && MarksOk(s) && id !in s.store.proofs && Attested(p, validations) && p.consumedBy.None?
    ensures var t := s.(store := S.Store(s.store.proofs[id := p], s.store.order + [id]), bundles := s.bundles[id := validations]);
            BundlesOk(t) && MarksOk(t)
  {
    hide Attested;
  }

  lemma IssuedAttested(c: Controller, o: P.Origin, validations: seq<P.Validation>, now: int)
    requires P.Issue(c.hash, c.keyOrder, c.minimum, o, validations, now).Ok?
    ensures Attested(AsStored(P.Issue(c.hash, c.keyOrder, c.minimum, o, validations, now).value), validations)
  {
    P.IssuedWeight(c.hash, c.keyOrder, c.minimum, o, validations, now);
    IssuedProfile(c, o, validations, now);
    hide P.Issue, P.Weight;
  }

  lemma AttestKeeps(c: Controller, s: State, o: P.Origin, validations: seq<P.Validation>, now: int)
    requires Inv(c, s)
    ensures Inv(c, Attest(c, s, o, validations, now))
  {
    var r := P.Issue(c.hash, c.keyOrder, c.minimum, o, validations, now);
    var t := Attest(c, s, o, validations, now);
    if r.Ok? && t != s {
      IssuedAttested(c, o, validations, now);
      hide P.Issue, PlanOk, S.OnePerSubject, Attested, BundlesOk, MarksOk, PlansOk, Disjoint, ReplayOk, IssuedOk, RecordsOk, S.Valid, S.Extends;
      var p := AsStored(r.value);
      S.AddKeeps(s.store, r.value.proofId, p);
      PlansStable(c, s, t);
      AddedOk(s, r.value.proofId, p, validations);
      SameIssue(s, t);
      RecordsGrow(s, t);
    }
  }

  lemma IssuedProfile(c: Controller, o: P.Origin, validations: seq<P.Validation>, now: int)
    requires P.Issue(c.hash, c.keyOrder, c.minimum, o, validations, now).Ok?
    ensures validations != [] && P.Issue(c.hash, c.keyOrder, c.minimum, o, validations, now).value.profile == validations[0].profile
  {
    hide P.FirstRefusal, P.Highest, P.ProofId;
  }

  // Calls other than allocate neither issue nor use up proofs.
  lemma OthersIssueNothing(l: L.State, call: L.Op)
    requires !call.OpAllocate?
    ensures L.Apply(l, call).0.issued == l.issued && L.Apply(l, call).0.consumedProofs == l.consumedProofs
  {
    hide L.Key;
    match call
    case OpTransfer(r, now, signed) => hide L.Refusal;
    case OpLock(r, now, signed) => hide L.Refusal;
    case _ =>
  }

  // One more accepted allocation of fresh, distinct proofs.
  lemma AppendKeeps(c: Controller, s: State, t: State, e: Epoch)
    requires Disjoint(s.committed) && ReplayOk(s) && IssuedOk(s) && t.committed == s.committed + [e]
    requires t.ledger.consumedProofs == s.ledger.consumedProofs + (set id <- e.ids) && (set id <- e.ids) !! s.ledger.consumedProofs
    requires forall series :: L.IssuedTotal(t.ledger, series) == L.IssuedTotal(s.ledger, series) + When(series == e.series, e.total)
    ensures Disjoint(t.committed) && ReplayOk(t) && IssuedOk(t)
  {
    var n := |s.committed|;
    forall i, j | 0 <= i < j < |t.committed| ensures Apart(t.committed[i], t.committed[j]) {
      if j < n {
        assert Apart(s.committed[i], s.committed[j]);
      } else {
        forall id | id in t.committed[i].ids ensures id !in e.ids {
          assert Holds(s.committed, id);
          assert id in s.ledger.consumedProofs;
        }
      }
    }
    forall id ensures id in t.ledger.consumedProofs <==> Holds(t.committed, id) {
      assert id in s.ledger.consumedProofs <==> Holds(s.committed, id);
      if Holds(s.committed, id) { var i :| 0 <= i < n && id in s.committed[i].ids; assert id in t.committed[i].ids; }
      if id in e.ids { assert id in t.committed[n].ids; }
    }
    assert t.committed[..n] == s.committed && t.committed[n] == e;
  }

  lemma DirectKeeps(c: Controller, s: State, call: L.Op)
    requires Inv(c, s)
    ensures Inv(c, Direct(s, call))
  {
    hide L.Apply, PlanOk, S.OnePerSubject, Attested, IssuedOk, ReplayOk, Disjoint, RecordsOk;
    var t := Direct(s, call);
    RecordsGrow(s, t);
    if call.OpAllocate? && L.Apply(s.ledger, call).1 {
      var e := Epoch(call.series, L.ProofIds(call.items), T.AllocationTotal(call.items), None);
      AllocateAppends(s.ledger, call);
      AppendKeeps(c, s, t, e);
      MarksGrow(s, t);
    } else {
      NothingIssued(s.ledger, call);
      SameIssue(s, t);
      MarksGrow(s, t);
    }
  }

  lemma SameIssue(s: State, t: State)
    requires t.ledger.issued == s.ledger.issued && t.ledger.consumedProofs == s.ledger.consumedProofs && t.committed == s.committed
    requires Disjoint(s.committed) && ReplayOk(s) && IssuedOk(s)
    ensures Disjoint(t.committed) && ReplayOk(t) && IssuedOk(t)
  {
  }

  lemma MarksGrow(s: State, t: State)
    requires MarksOk(s) && t.store == s.store && t.granted == s.granted && s.ledger.consumedProofs <= t.ledger.consumedProofs
    ensures MarksOk(t)
  {
  }

  lemma NothingIssued(l: L.State, call: L.Op)
    requires !(call.OpAllocate? && L.Apply(l, call).1)
    ensures L.Apply(l, call).0.issued == l.issued && L.Apply(l, call).0.consumedProofs == l.consumedProofs
  {
    if call.OpAllocate? {
      hide L.FirstBadItem, L.Distinct, L.CreditAll;
    } else {
      OthersIssueNothing(l, call);
    }
  }

  lemma AllocateAppends(l: L.State, call: L.Op)
    requires call.OpAllocate? && L.Apply(l, call).1
    ensures var m := L.Apply(l, call).0;
            var ids := L.ProofIds(call.items);
            && L.Distinct(ids) && m.consumedProofs == l.consumedProofs + (set id <- ids) && (set id <- ids) !! l.consumedProofs
            && forall series :: L.IssuedTotal(m, series) == L.IssuedTotal(l, series) + When(series == call.series, T.AllocationTotal(call.items))
  {
    var m := L.Apply(l, call).0;
    assert m == L.Allocate(l, call.series, call.items).state && L.Allocate(l, call.series, call.items).result.Ok?;
    hide L.Allocate, L.Apply;
    T.AllocateIssues(l, call.series, call.items, call.series);
    forall series ensures L.IssuedTotal(m, series) == L.IssuedTotal(l, series) + When(series == call.series, T.AllocationTotal(call.items)) {
      T.AllocateIssues(l, call.series, call.items, series);
    }
  }

  lemma {:induction false} ItemsTotal(shares: seq<R.Share>)
    ensures T.AllocationTotal(Items(shares)) == Sorting.Total(R.Amounts(shares))
  {
    if shares != [] {
      ItemsTotal(shares[1..]);
      assert Items(shares)[1..] == Items(shares[1..]);
      assert R.Amounts(shares)[1..] == R.Amounts(shares[1..]);
    }
  }

  // The items of a plan carry its proofs, and add up to its budget.
  lemma PlanItems(store: S.Store, idOrder: R.Collation, p: Plan)
    requires PlanOk(store, idOrder, p)
    ensures L.ProofIds(Items(p.shares)) == p.ids
    ensures T.AllocationTotal(Items(p.shares)) == p.budget
  {
    ItemsTotal(p.shares);
    assert |p.shares| == |p.ids|;
    forall i | 0 <= i < |p.ids| ensures p.shares[i].proofId == p.ids[i] { assert Weighed(store, p.ids)[i].proofId == p.ids[i]; }
    hide R.FairShares;
  }

  // A close that has allocated becomes granted.
  lemma GrantedOk(c: Controller, s: State, t: State, close: int, e: Epoch)
    requires PlansOk(c, s) && MarksOk(s) && close in s.open && t.store == s.store
    requires e == Epoch(s.open[close].series, s.open[close].ids, s.open[close].budget, Some(s.open[close]))
    requires t.open == s.open - {close} && t.granted == s.granted[close := s.open[close]] && t.committed == s.committed + [e]
    requires t.ledger.consumedProofs == s.ledger.consumedProofs + (set id <- e.ids)
    ensures PlansOk(c, t) && MarksOk(t)
  {
    assert L.Distinct(e.ids);
    hide PlanOk;
    assert EpochOk(t.store, c.idOrder, e);
  }

  lemma GrantedRecords(s: State, t: State, close: int, e: Epoch)
    requires RecordsOk(s) && close in s.open && t.marked == s.marked && t.recorded == s.recorded
    requires e == Epoch(s.open[close].series, s.open[close].ids, s.open[close].budget, Some(s.open[close]))
    requires t.granted == s.granted[close := s.open[close]] && t.committed == s.committed + [e]
    ensures RecordsOk(t)
  {
    RecordsGrow(s, t.(granted := s.granted));
    assert t.committed[|s.committed|] == e;
    hide HasClose;
  }

  lemma RefusedOk(c: Controller, s: State, t: State, close: int)
    requires PlansOk(c, s) && MarksOk(s) && BundlesOk(s) && t == s.(ledger := t.ledger, open := s.open - {close})
    requires t.ledger.consumedProofs == s.ledger.consumedProofs
    ensures PlansOk(c, t) && MarksOk(t)
  {
    hide PlanOk;
  }

  lemma CommitKeeps(c: Controller, s: State, close: int)
    requires Inv(c, s) && close in s.open
    ensures Inv(c, Commit(s, close))
  {
    var p := s.open[close];
    var call := L.OpAllocate(p.series, Items(p.shares));
    var t := Commit(s, close);
    PlanItems(s.store, c.idOrder, p);
    assert L.Apply(s.ledger, call) == (t.ledger, L.Allocate(s.ledger, p.series, Items(p.shares)).result.Ok?);
    hide PlanOk, S.OnePerSubject, S.Valid, Attested, L.Allocate, L.Apply, IssuedOk, ReplayOk, Disjoint, PlansOk, MarksOk, RecordsOk;
    assert BundlesOk(t);
    hide BundlesOk;
    if L.Allocate(s.ledger, p.series, Items(p.shares)).result.Ok? {
      AllocateAppends(s.ledger, call);
      AppendKeeps(c, s, t, Epoch(p.series, p.ids, p.budget, Some(p)));
      GrantedOk(c, s, t, close, Epoch(p.series, p.ids, p.budget, Some(p)));
      GrantedRecords(s, t, close, Epoch(p.series, p.ids, p.budget, Some(p)));
    } else {
      NothingIssued(s.ledger, call);
      SameIssue(s, t);
      RefusedOk(c, s, t, close);
      RecordsGrow(s, t);
    }
  }

  // Marking proofs that were allocated.
  lemma MarkedOk(s: State, t: State, close: int, epoch: string, rows: bool)
    requires BundlesOk(s) && MarksOk(s) && close in s.granted && t == ConsumePlan(s, close, epoch, rows)
    ensures BundlesOk(t) && MarksOk(t)
  {
    forall id | id in t.store.proofs
      ensures id in s.bundles && Attested(t.store.proofs[id], s.bundles[id])
      ensures t.store.proofs[id].consumedBy.Some? ==> id in s.ledger.consumedProofs
    {
      assert id in s.store.proofs && t.store.proofs[id].(consumedBy := None) == s.store.proofs[id].(consumedBy := None);
      SameAttested(s.store.proofs[id], t.store.proofs[id], s.bundles[id]);
    }
  }

  lemma SameAttested(p: S.Stored, q: S.Stored, validations: seq<P.Validation>)
    requires Attested(p, validations) && p.(consumedBy := None) == q.(consumedBy := None)
    ensures Attested(q, validations)
  {
    assert q.profile == p.profile && q.interaction == p.interaction && q.recipient == p.recipient && q.weight == p.weight by {
      assert p.(consumedBy := None).profile == q.(consumedBy := None).profile;
    }
  }

  lemma ConsumeKeeps(c: Controller, s: State, close: int, epoch: string, rows: bool)
    requires Inv(c, s) && close in s.granted
    ensures Inv(c, ConsumePlan(s, close, epoch, rows))
  {
    var t := ConsumePlan(s, close, epoch, rows);
    S.ConsumeKeeps(s.store, s.granted[close].ids, epoch);
    hide PlanOk, PlansOk, S.OnePerSubject, S.Valid, S.Extends, S.ConsumeRows, Disjoint, BundlesOk, MarksOk, ReplayOk, IssuedOk, RecordsOk;
    PlansStable(c, s, t);
    MarkedOk(s, t, close, epoch, rows);
    SameIssue(s, t);
    MarkedRecords(s, t, close, epoch);
  }

  lemma MarkedRecords(s: State, t: State, close: int, epoch: string)
    requires RecordsOk(s) && close in s.granted && t.granted == s.granted - {close} && t.committed == s.committed && t.recorded == s.recorded
    requires t.marked == s.marked || t.marked == s.marked[close := Marked(s.granted[close], epoch)]
    ensures RecordsOk(t)
  {
    hide Closed, HasClose;
  }

  // The record of a close that has allocated.
  lemma RecordKeeps(c: Controller, s: State, close: int, rows: bool)
    requires Inv(c, s) && close in s.marked
    ensures Inv(c, RecordEpoch(s, close, rows))
  {
    hide PlanOk, S.Valid, BundlesOk, Disjoint, MarksOk, ReplayOk, IssuedOk, CanRecord;
    var p := s.marked[close].plan;
    assert HasClose(s.committed, p.series) by {
      var i :| 0 <= i < |s.committed| && s.committed[i] == Epoch(p.series, p.ids, p.budget, Some(p));
    }
    hide Closed, HasClose;
    UnrecordedParts(s, RecordEpoch(s, close, rows));
  }

  lemma UnrecordedParts(s: State, t: State)
    requires BundlesOk(s) && MarksOk(s) && ReplayOk(s) && IssuedOk(s)
    requires t.ledger == s.ledger && t.store == s.store && t.bundles == s.bundles && t.granted == s.granted && t.committed == s.committed
    ensures BundlesOk(t) && MarksOk(t) && ReplayOk(t) && IssuedOk(t)
  {
  }

  lemma ReadKeeps(c: Controller, s: State, close: int, plan: Plan)
    requires Inv(c, s) && Readable(c, s, plan)
    ensures Inv(c, s.(open := s.open[close := plan]))
  {
    hide PlanOk, S.OnePerSubject, Attested, Disjoint;
  }

  lemma StepKeeps(c: Controller, s: State, op: Op)
    requires Inv(c, s)
    ensures Inv(c, Step(c, s, op))
  {
    hide Inv, Attest, Direct, Commit, ConsumePlan, RecordEpoch, Readable;
    match op
    case OpAttest(o, validations, now) => AttestKeeps(c, s, o, validations, now);
    case OpLedger(call) => DirectKeeps(c, s, call);
    case OpRead(close, plan) => if Readable(c, s, plan) { ReadKeeps(c, s, close, plan); }
    case OpCommit(close) => if close in s.open { CommitKeeps(c, s, close); }
    case OpConsume(close, epoch, rows) => if close in s.granted { ConsumeKeeps(c, s, close, epoch, rows); }
    case OpRecord(close, rows) => if close in s.marked { RecordKeeps(c, s, close, rows); }
  }

  lemma {:induction false} RunKeeps(c: Controller, s: State, ops: seq<Op>)
    requires Inv(c, s)
    ensures Inv(c, Run(c, s, ops))
    decreases |ops|
  {
    hide Inv, Step;
    if ops != [] {
      StepKeeps(c, s, ops[0]);
      RunKeeps(c, Step(c, s, ops[0]), ops[1..]);
    }
  }

  lemma Reachable(c: Controller, ops: seq<Op>)
    ensures Inv(c, Run(c, Empty, ops))
  {
    assert Inv(c, Empty);
    RunKeeps(c, Empty, ops);
  }
}
