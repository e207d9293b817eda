/** Safety of epoch closing over every run. */
module EpochTheorems {
  // A proof is issued at most once, each subject contributes one weight, issuance is the sum of
  // the epochs' budgets, and exactly when a close gets past the ledger, also after an earlier
  // close stopped half way.
  import opened Results
  import opened Epochs
  import L = Ledger
  import A = Allocation
  import R = ProRata
  import P = Proofs
  import S = ProofStore

  // The ways an invariant gives up one of its parts, without the rest in the way.
  lemma Parts(c: Controller, s: State)
    requires Inv(c, s)
    ensures S.Valid(s.store) && BundlesOk(s) && PlansOk(c, s) && Disjoint(s.committed) && ReplayOk(s) && MarksOk(s) && IssuedOk(s) && RecordsOk(s)
  {
  }

  // ---------- Each proof in one epoch ----------

  lemma ApartAt(committed: seq<Epoch>, i: nat, a: nat, j: nat, b: nat)
    requires Disjoint(committed) && i < j < |committed| && a < |committed[i].ids| && b < |committed[j].ids|
    ensures committed[i].ids[a] != committed[j].ids[b]
  {
    assert Apart(committed[i], committed[j]);
    assert committed[i].ids[a] in committed[i].ids;
  }

  // In any run, a proof id occurs at most once over all accepted allocations: two closes that
  // both allocated never share a proof, even when they listed the same ones.
  lemma IssuedOnce(c: Controller, ops: seq<Op>, i: nat, a: nat, j: nat, b: nat)
    requires var committed := Run(c, Empty, ops).committed;
             i < |committed| && a < |committed[i].ids| && j < |committed| && b < |committed[j].ids| && committed[i].ids[a] == committed[j].ids[b]
    ensures i == j && a == b
  {
    var s := Run(c, Empty, ops);
    Reachable(c, ops);
    hide Run;
    Parts(c, s);
    hide Inv, PlanOk;
    var e, f := s.committed[i], s.committed[j];
    assert e.ids[a] in e.ids && f.ids[b] in f.ids;
    if i < j { ApartAt(s.committed, i, a, j, b); } else if j < i { ApartAt(s.committed, j, b, i, a); }
    assert EpochOk(s.store, c.idOrder, e);
  }

  // What was committed stays committed.
  lemma {:induction false} CommittedGrows(c: Controller, s: State, ops: seq<Op>)
    ensures s.committed <= Run(c, s, ops).committed
    decreases |ops|
  {
    if ops != [] {
      StepGrows(c, s, ops[0]);
      CommittedGrows(c, Step(c, s, ops[0]), ops[1..]);
    }
  }

  lemma StepGrows(c: Controller, s: State, op: Op)
    ensures s.committed <= Step(c, s, op).committed
  {
    hide L.Apply, L.Allocate, P.Issue, Readable;
  }

  // ---------- Issuance ----------

  // A series has issued exactly the totals of its accepted allocations; a close's total is its
  // budget, which its recognised compute capacity backs.
  lemma IssuedByEpochs(c: Controller, ops: seq<Op>, series: string)
    ensures var s := Run(c, Empty, ops);
            && L.IssuedTotal(s.ledger, series) == CommittedTotal(s.committed, series)
            && forall e <- s.committed :: e.plan.Some? ==> e.total == e.plan.value.budget && e.ids == e.plan.value.ids && Backed(e.plan.value)
  {
    var s := Run(c, Empty, ops);
    Reachable(c, ops);
    hide Run;
    Parts(c, s);
    hide Inv;
    forall e | e in s.committed && e.plan.Some? ensures e.total == e.plan.value.budget && e.ids == e.plan.value.ids && Backed(e.plan.value) {
      assert EpochOk(s.store, c.idOrder, e);
    }
  }

  lemma Scaled(a: int, b: int, k: int)
    requires a <= b && 0 <= k
    ensures a * k <= b * k
  {
  }

  // No committed close of any run issues more than its commitments' capacity: not more than
  // the nominal amounts, and not more than the exact products of their terms.
  lemma WithinNominal(c: Controller, ops: seq<Op>, i: nat)
    requires var s := Run(c, Empty, ops); i < |s.committed| && s.committed[i].plan.Some?
    ensures var e := Run(c, Empty, ops).committed[i];
            var p := e.plan.value;
            && e.total * p.units <= A.TotalNominal(p.commitments)
            && e.total * p.units * (A.PPM * A.PPM * A.PPM) <= A.TotalExact(p.commitments)
  {
    var s := Run(c, Empty, ops);
    Reachable(c, ops);
    hide Run;
    Parts(c, s);
    hide Inv, A.ValidTerms, A.TotalNominal, A.TotalExact, A.TotalRecognised;
    assert EpochOk(s.store, c.idOrder, s.committed[i]);
    var p := s.committed[i].plan.value;
    A.TotalBounds(p.commitments);
    Scaled(p.budget * p.units, A.TotalRecognised(p.commitments), A.PPM * A.PPM * A.PPM);
  }

  // ---------- Weights ----------

  // Over all closes of a run, each interaction, agent and profile counts once, with the
  // highest weight its validators attested.
  lemma OneWeightPerSubject(c: Controller, ops: seq<Op>, i: nat, a: nat, j: nat, b: nat)
    requires var s := Run(c, Empty, ops);
             && i < |s.committed| && a < |s.committed[i].ids| && s.committed[i].plan.Some?
             && j < |s.committed| && b < |s.committed[j].ids| && s.committed[j].plan.Some?
    ensures var s := Run(c, Empty, ops);
            var id, other := s.committed[i].ids[a], s.committed[j].ids[b];
            && id in s.store.proofs && other in s.store.proofs
            && (S.SameSubject(s.store.proofs[id], s.store.proofs[other]) ==> i == j && a == b)
            && id in s.bundles && Attested(s.store.proofs[id], s.bundles[id])
            && PlanOk(s.store, c.idOrder, s.committed[i].plan.value) && s.committed[i].plan.value.ids == s.committed[i].ids
  {
    var s := Run(c, Empty, ops);
    Reachable(c, ops);
    var id, other := s.committed[i].ids[a], s.committed[j].ids[b];
    Parts(c, s);
    PlanStored(c, s, i, a);
    PlanStored(c, s, j, b);
    if S.SameSubject(s.store.proofs[id], s.store.proofs[other]) {
      assert id == other;
      IssuedOnce(c, ops, i, a, j, b);
    }
  }

  lemma PlanStored(c: Controller, s: State, i: nat, a: nat)
    requires PlansOk(c, s) && i < |s.committed| && a < |s.committed[i].ids| && s.committed[i].plan.Some?
    ensures s.committed[i].ids[a] in s.store.proofs
    ensures PlanOk(s.store, c.idOrder, s.committed[i].plan.value) && s.committed[i].plan.value.ids == s.committed[i].ids
  {
    assert EpochOk(s.store, c.idOrder, s.committed[i]);
    assert s.committed[i].ids[a] in s.committed[i].ids;
  }

  // ---------- When a close gets past the ledger ----------

  lemma {:induction false} NoBadItem(l: L.State, items: seq<L.Allocation>)
    ensures L.FirstBadItem(l, items).None? <==> forall i :: 0 <= i < |items| ==> items[i].recipient in l.agents && SafeInteger(items[i].amount) && 0 <= items[i].amount
  {
    if items != [] {
      NoBadItem(l, items[1..]);
      assert items == [items[0]] + items[1..];
    }
  }

  // Every share of a plan is an amount the ledger takes.
  lemma PlanAmounts(store: S.Store, idOrder: R.Collation, p: Plan, i: nat)
    requires PlanOk(store, idOrder, p) && i < |p.ids|
    ensures |p.shares| == |p.ids| && SafeInteger(p.shares[i].amount) && 0 <= p.shares[i].amount
    ensures p.shares[i].recipient == store.proofs[p.ids[i]].recipient
  {
    R.SharesWithinBudget(Weighed(store, p.ids), p.budget, idOrder, R.Amounts(p.shares), i);
    assert Weighed(store, p.ids)[i].recipient == store.proofs[p.ids[i]].recipient;
  }

  ghost predicate RecipientsRegistered(l: L.State, store: S.Store, ids: seq<string>) {
    forall id <- ids :: id in store.proofs && store.proofs[id].recipient in l.agents
  }

  ghost predicate Unissued(l: L.State, ids: seq<string>) {
    forall id <- ids :: id !in l.consumedProofs
  }

  // The ledger accepts a plan exactly when none of its proofs was allocated before and all
  // its recipients are registered; otherwise the ledger does not change.
  lemma LedgerAcceptsIff(l: L.State, store: S.Store, idOrder: R.Collation, p: Plan)
    requires PlanOk(store, idOrder, p)
    ensures var r := L.Allocate(l, p.series, Items(p.shares));
            && (r.result.Ok? <==> RecipientsRegistered(l, store, p.ids) && Unissued(l, p.ids))
            && (r.result.Err? ==> r.state == l)
  {
    var items := Items(p.shares);
    PlanItems(store, idOrder, p);
    NoBadItem(l, items);
    PlanShape(store, idOrder, p);
    forall i | 0 <= i < |p.ids|
      ensures |p.shares| == |p.ids| && SafeInteger(items[i].amount) && 0 <= items[i].amount
      ensures p.ids[i] in store.proofs && items[i].recipient == store.proofs[p.ids[i]].recipient
    {
      PlanAmounts(store, idOrder, p, i);
    }
    hide PlanOk, L.FirstBadItem, L.CreditAll;
    RegisteredItems(l, store, p.ids, items);
  }

  // In a run, the proofs allocated before are those of the committed epochs.
  lemma AcceptedIff(c: Controller, s: State, p: Plan)
    requires Inv(c, s) && PlanOk(s.store, c.idOrder, p)
    ensures var r := L.Allocate(s.ledger, p.series, Items(p.shares));
            && (r.result.Ok? <==> RecipientsRegistered(s.ledger, s.store, p.ids) && forall id <- p.ids :: !Holds(s.committed, id))
            && (r.result.Err? ==> r.state == s.ledger)
  {
    hide PlanOk, L.Allocate;
    LedgerAcceptsIff(s.ledger, s.store, c.idOrder, p);
    Parts(c, s);
    hide Inv, S.Valid, BundlesOk, PlansOk, Disjoint, MarksOk, IssuedOk, Holds;
  }

  lemma RegisteredItems(l: L.State, store: S.Store, ids: seq<string>, items: seq<L.Allocation>)
    requires |items| == |ids| && forall i :: 0 <= i < |ids| ==> ids[i] in store.proofs && items[i].recipient == store.proofs[ids[i]].recipient
    ensures RecipientsRegistered(l, store, ids) <==> forall i :: 0 <= i < |items| ==> items[i].recipient in l.agents
  {
    if RecipientsRegistered(l, store, ids) {
      forall i | 0 <= i < |items| ensures items[i].recipient in l.agents { assert ids[i] in ids; }
    } else {
      var id :| id in ids && !(id in store.proofs && store.proofs[id].recipient in l.agents);
      var i :| 0 <= i < |ids| && ids[i] == id;
      assert items[i].recipient !in l.agents;
    }
  }

  lemma PlanShape(store: S.Store, idOrder: R.Collation, p: Plan)
    requires PlanOk(store, idOrder, p)
    ensures |p.shares| == |p.ids| && L.Distinct(p.ids) && AllIn(store, p.ids)
  {
  }

  // ---------- A close without interruption ----------

  lemma FourSteps(c: Controller, s: State, op1: Op, op2: Op, op3: Op, op4: Op)
    ensures Run(c, s, [op1, op2, op3, op4]) == Step(c, Step(c, Step(c, Step(c, s, op1), op2), op3), op4)
  {
    hide Step;
    var s1 := Step(c, s, op1);
    var s2 := Step(c, s1, op2);
    var s3 := Step(c, s2, op3);
    assert [op1, op2, op3, op4][1..] == [op2, op3, op4] && [op2, op3, op4][1..] == [op3, op4] && [op3, op4][1..] == [op4] && [op4][1..] == [];
    assert Run(c, s, [op1, op2, op3, op4]) == Run(c, s1, [op2, op3, op4]) == Run(c, s2, [op3, op4]) == Run(c, s3, [op4]) == Run(c, Step(c, s3, op4), []);
  }

  // The four steps of a close with nothing in between allocate, mark exactly the listed proofs
  // and leave no close behind; a plan the ledger refuses changes nothing.
  lemma CloseAtOnce(c: Controller, s: State, close: int, p: Plan, epoch: string)
    requires Readable(c, s, p) && close !in s.open && close !in s.granted && close !in s.marked
    ensures var t := Run(c, s, [OpRead(close, p), OpCommit(close), OpConsume(close, epoch, false), OpRecord(close, false)]);
      var r := L.Allocate(s.ledger, p.series, Items(p.shares));
      t == if r.result.Ok?
           then s.(ledger := r.state, store := S.Mark(s.store, p.ids, epoch), committed := s.committed + [Epoch(p.series, p.ids, p.budget, Some(p))])
           else s.(ledger := r.state)
  {
    FourSteps(c, s, OpRead(close, p), OpCommit(close), OpConsume(close, epoch, false), OpRecord(close, false));
    hide Run, L.Allocate, PlanOk, Signable, S.Mark;
    var a := s.(open := s.open[close := p]);
    assert Step(c, s, OpRead(close, p)) == a;
    assert a.open - {close} == s.open;
    var b := Commit(a, close);
    assert Step(c, a, OpCommit(close)) == b;
    if close in b.granted {
      var d := ConsumePlan(b, close, epoch, false);
      assert Step(c, b, OpConsume(close, epoch, false)) == d;
      assert b.granted - {close} == s.granted;
      assert d.marked - {close} == s.marked;
    }
  }

  // Attesting stores the proof that is issued, with its attestations, unless its id is known or
  // its interaction already has one; a ledger call does to the ledger what the registry does.
  lemma OtherSteps(c: Controller, s: State, o: P.Origin, validations: seq<P.Validation>, now: int, call: L.Op)
    ensures Step(c, s, OpLedger(call)).ledger == L.Apply(s.ledger, call).0 && Step(c, s, OpLedger(call)).store == s.store
    ensures var (t, r) := (Step(c, s, OpAttest(o, validations, now)), P.Issue(c.hash, c.keyOrder, c.minimum, o, validations, now));
      && t.ledger == s.ledger && t.committed == s.committed
      && (r.Ok? && r.value.proofId !in s.store.proofs
          && (forall k <- s.store.proofs ::
                !(s.store.proofs[k].interaction == r.value.interaction && s.store.proofs[k].recipient == r.value.recipient && s.store.proofs[k].profile == r.value.profile))
          ==> t.store.proofs == s.store.proofs[r.value.proofId := S.Stored(r.value.interaction, r.value.recipient, r.value.profile, r.value.weight, None)]
              && t.store.order == s.store.order + [r.value.proofId] && t.bundles == s.bundles[r.value.proofId := validations])
  {
    hide L.Apply, P.Issue;
  }

  // What each store lists for a profile.
  ghost predicate ListsInMemory(s: State, p: Plan) {
    p.ids == S.UnconsumedOf(s.store, s.store.order, p.profile)
  }

  // The tables leave out proofs the ledger has already issued.
  ghost predicate ListsTables(s: State, p: Plan) {
    forall id <- p.ids :: id in S.UnconsumedRows(s.store, s.ledger.consumedProofs, p.profile)
  }

  // After a close that allocated and then stopped, a close reading the in-memory store is
  // refused for every profile that still lists one of those proofs, whoever is registered.
  lemma StoppedCloseBlocks(c: Controller, s: State, close: int, id: string, p: Plan)
    requires Inv(c, s) && close in s.granted && id in s.granted[close].ids
    requires id in s.store.proofs && s.store.proofs[id].consumedBy.None?
    requires p.profile.None? || p.profile.value == "" || s.store.proofs[id].profile == p.profile.value
    requires PlanOk(s.store, c.idOrder, p) && ListsInMemory(s, p)
    ensures L.Allocate(s.ledger, p.series, Items(p.shares)).result.Err?
    ensures L.Allocate(s.ledger, p.series, Items(p.shares)).state == s.ledger
  {
    AcceptedIff(c, s, p);
    Parts(c, s);
    S.UnconsumedIs(s.store, s.store.order, p.profile);
    assert id in p.ids && Holds(s.committed, id);
  }

  // The allocation step on the tables; a text column takes no NUL.
  function CommitTables(s: State, close: int): State
    requires close in s.open
  {
    if L.NulFree(s.open[close].series) then Commit(s, close) else s.(open := s.open - {close})
  }

  // The tables refuse the allocation of a close that listed from them only for a series with a
  // NUL or an unregistered recipient; and every recipient of a stored proof row is registered,
  // as that column references the table of agents.
  lemma TablesCloseProceeds(c: Controller, s: State, close: int)
    requires Inv(c, s) && close in s.open && close !in s.granted && ListsTables(s, s.open[close])
    ensures var p := s.open[close];
            && (close in CommitTables(s, close).granted <==> L.NulFree(p.series) && RecipientsRegistered(s.ledger, s.store, p.ids))
            && (L.Allocate(s.ledger, p.series, Items(p.shares)).result.Ok? <==> RecipientsRegistered(s.ledger, s.store, p.ids))
  {
    var p := s.open[close];
    Parts(c, s);
    AcceptedIff(c, s, p);
    hide Inv, PlanOk, L.Allocate, RecipientsRegistered;
  }

  // ---------- When a close on the tables returns ----------

  // The rest of a close on the tables without interruption, and whether it returns.
  function CloseTables(s: State, close: int, epoch: string): (State, bool)
    requires close in s.open
  {
    var s1 := CommitTables(s, close);
    if close !in s1.granted then (s1, false)
    else
      var s2 := ConsumePlan(s1, close, epoch, true);
      if close !in s2.marked then (s2, false)
      else (RecordEpoch(s2, close, true), CanRecord(s2, s2.marked[close], true))
  }

  lemma ListedUnconsumed(s: State, p: Plan)
    requires ListsTables(s, p)
    ensures forall id <- p.ids :: S.IsUnconsumed(s.store, id)
  {
  }

  lemma SignableAfter(s: State, p: Plan, epoch: string)
    requires AllIn(s.store, p.ids)
    ensures Signable(S.ConsumeRows(s.store, p.ids, epoch), p) <==> Signable(s.store, p)
  {
    assert Weighed(S.ConsumeRows(s.store, p.ids, epoch), p.ids) == Weighed(s.store, p.ids);
  }

  // A close whose listing is still current, about to allocate.
  ghost predicate AboutToClose(c: Controller, s: State, close: int) {
    Inv(c, s) && close in s.open && close !in s.granted && close !in s.marked && ListsTables(s, s.open[close])
  }

  // A close on the tables returns exactly when its series has no NUL and no recorded epoch yet,
  // its recipients are registered, its total weight is a safe integer, it has a language profile,
  // and its epoch id is new.
  lemma TablesCloseReturnsIff(c: Controller, s: State, close: int, epoch: string)
    requires AboutToClose(c, s, close)
    ensures var p := s.open[close];
            CloseTables(s, close, epoch).1 <==>
              && L.NulFree(p.series) && RecipientsRegistered(s.ledger, s.store, p.ids) && Signable(s.store, p)
              && p.profile.Some? && p.series !in s.recorded && epoch !in s.recorded.Values
  {
    var p := s.open[close];
    TablesCloseProceeds(c, s, close);
    if L.NulFree(p.series) && RecipientsRegistered(s.ledger, s.store, p.ids) {
      TablesMark(c, s, close, epoch);
    }
    hide AboutToClose, CommitTables, L.NulFree, RecipientsRegistered, Signable, ConsumePlan;
  }

  // A close that returns has written its epoch id under its series, and no other record.
  lemma TablesCloseRecords(c: Controller, s: State, close: int, epoch: string)
    requires AboutToClose(c, s, close) && CloseTables(s, close, epoch).1
    ensures var (t, p) := (CloseTables(s, close, epoch).0, s.open[close]);
      && t.recorded == s.recorded[p.series := epoch]
      && L.Allocate(s.ledger, p.series, Items(p.shares)) == L.Step(t.ledger, Ok(()))
      && t.committed == s.committed + [Epoch(p.series, p.ids, p.budget, Some(p))]
      && forall id <- p.ids :: id in t.store.proofs && t.store.proofs[id].consumedBy == Some(epoch)
  {
    TablesCloseReturnsIff(c, s, close, epoch);
    TablesMark(c, s, close, epoch);
    hide AboutToClose, CommitTables, L.NulFree, RecipientsRegistered, Signable, ConsumePlan, L.Allocate;
  }

  // What the first two steps of such a close do.
  lemma TablesMark(c: Controller, s: State, close: int, epoch: string)
    requires AboutToClose(c, s, close) && L.NulFree(s.open[close].series) && RecipientsRegistered(s.ledger, s.store, s.open[close].ids)
    ensures var (s1, p) := (CommitTables(s, close), s.open[close]);
            && close in s1.granted
            && var s2 := ConsumePlan(s1, close, epoch, true);
               && close in s2.marked && s2.marked[close] == Marked(p, epoch) && s2.recorded == s.recorded
               && (Signable(s2.store, p) <==> Signable(s.store, p))
               && L.Allocate(s.ledger, p.series, Items(p.shares)) == L.Step(s2.ledger, Ok(()))
               && s2.committed == s.committed + [Epoch(p.series, p.ids, p.budget, Some(p))]
               && forall id <- p.ids :: id in s2.store.proofs && s2.store.proofs[id].consumedBy == Some(epoch)
  {
    var p := s.open[close];
    Parts(c, s);
    assert PlanOk(s.store, c.idOrder, p);
    TablesCloseProceeds(c, s, close);
    ListedUnconsumed(s, p);
    SignableAfter(s, p, epoch);
    hide Inv, PlanOk, L.Allocate, L.NulFree, RecipientsRegistered, ListsTables, Signable, S.Valid, BundlesOk, PlansOk, Disjoint, ReplayOk, MarksOk, IssuedOk, RecordsOk;
  }

  // With safe weights, as every issued proof carries at most four, only huge closes cannot be
  // signed.
  lemma {:induction false} WeightsSafe(store: S.Store, ids: seq<string>)
    requires forall id <- ids :: id in store.proofs && store.proofs[id].weight <= 4
    ensures R.TotalWeight(Weighed(store, ids)) <= 4 * |ids|
    decreases |ids|
  {
    if ids != [] {
      WeightsSafe(store, ids[1..]);
      assert R.Weights(Weighed(store, ids))[1..] == R.Weights(Weighed(store, ids[1..]));
    }
  }

  lemma SmallSignable(c: Controller, s: State, p: Plan)
    requires Inv(c, s) && PlanOk(s.store, c.idOrder, p) && 4 * |p.ids| <= MAX_SAFE
    ensures Signable(s.store, p)
  {
    Parts(c, s);
    hide Inv;
    forall id | id in p.ids ensures id in s.store.proofs && s.store.proofs[id].weight <= 4 { assert Attested(s.store.proofs[id], s.bundles[id]); }
    WeightsSafe(s.store, p.ids);
  }

  // A close that is refused only at its record throws after it has allocated and marked: the
  // ledger and the proofs keep its whole effect, and only the record is missing. So do a second
  // close of a recorded series and a close without a language profile.
  lemma UnrecordedCloseThrows(c: Controller, s: State, close: int, epoch: string)
    requires AboutToClose(c, s, close)
    requires L.NulFree(s.open[close].series) && RecipientsRegistered(s.ledger, s.store, s.open[close].ids)
    requires s.open[close].profile.None? || s.open[close].series in s.recorded || epoch in s.recorded.Values || !Signable(s.store, s.open[close])
    ensures var p := s.open[close];
            var (t, returned) := CloseTables(s, close, epoch);
            && !returned && t.recorded == s.recorded
            && L.Allocate(s.ledger, p.series, Items(p.shares)) == L.Step(t.ledger, Ok(()))
            && t.committed == s.committed + [Epoch(p.series, p.ids, p.budget, Some(p))]
            && forall id <- p.ids :: id in t.store.proofs && t.store.proofs[id].consumedBy == Some(epoch)
  {
    TablesMark(c, s, close, epoch);
    hide AboutToClose, CommitTables, L.NulFree, RecipientsRegistered, Signable, ConsumePlan, L.Allocate;
  }

  // In every run a recorded series has an allocation by a close, and keeps its one record.
  lemma RecordedOnce(c: Controller, ops: seq<Op>, more: seq<Op>, series: string)
    requires series in Run(c, Empty, ops).recorded
    ensures HasClose(Run(c, Empty, ops).committed, series)
    ensures var t := Run(c, Run(c, Empty, ops), more); series in t.recorded && t.recorded[series] == Run(c, Empty, ops).recorded[series]
  {
    Reachable(c, ops);
    Parts(c, Run(c, Empty, ops));
    RecordStays(c, Run(c, Empty, ops), more, series);
  }

  lemma {:induction false} RecordStays(c: Controller, s: State, ops: seq<Op>, series: string)
    requires series in s.recorded
    ensures series in Run(c, s, ops).recorded && Run(c, s, ops).recorded[series] == s.recorded[series]
    decreases |ops|
  {
    if ops != [] {
      StepRecords(c, s, ops[0], series);
      RecordStays(c, Step(c, s, ops[0]), ops[1..], series);
    }
  }

  lemma StepRecords(c: Controller, s: State, op: Op, series: string)
    requires series in s.recorded
    ensures series in Step(c, s, op).recorded && Step(c, s, op).recorded[series] == s.recorded[series]
  {
    hide L.Apply, L.Allocate, P.Issue, Readable;
  }
}
