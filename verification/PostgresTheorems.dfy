/** What the serial order of commits means for the tables of any reachable database. */
module PostgresTheorems {
  import opened Results
  import opened Sums
  import opened Postgres
  import opened PostgresRefinement
  import opened PostgresSerial
  import L = Ledger
  import LI = LedgerInvariants
  import LT = LedgerTheorems
  import J = Jobs
  import G = Joint

  // ---------- The report ----------

  function AccountBalances(db: DB, series: string): map<RowKey, int> {
    map k | k in db && k.AccountK? && k.series == series && db[k].AccountR? :: db[k].account.balance
  }

  function RowName(k: RowKey): string {
    if k.AccountK? then L.Key(k.holder, k.series) else ""
  }

  lemma RowBalance(db: DB, l: L.State, k: RowKey, series: string)
    requires AccountsAgree(db, l) && k in AccountBalances(db, series)
    ensures L.NulFree(k.holder) && At(LI.Balances(l.accounts, series), RowName(k)) == AccountBalances(db, series)[k]
  {
    assert AccountK(k.holder, k.series) in db;
    assert AccountOf(db, k.holder, series) == L.AccountAt(l, L.Key(k.holder, series));
    L.KeySplits(k.holder, series);
  }

  lemma BalanceRow(db: DB, l: L.State, key: string, series: string)
    requires AccountsAgree(db, l) && LI.AgentsOk(l) && key in LI.Balances(l.accounts, series) && LI.Balances(l.accounts, series)[key] != 0
    ensures AccountK(L.AgentOf(key), series) in AccountBalances(db, series) && RowName(AccountK(L.AgentOf(key), series)) == key
  {
    L.KeyRebuilds(key);
    assert AccountOf(db, L.AgentOf(key), series) == L.AccountAt(l, L.Key(L.AgentOf(key), series));
  }

  // The balances of a series' rows add up to the ledger's circulation.
  lemma TableCirculation(db: DB, l: L.State, series: string)
    requires AccountsAgree(db, l) && LI.AgentsOk(l)
    ensures Sum(AccountBalances(db, series)) == LI.Circulating(l, series)
  {
    var rows, balances := AccountBalances(db, series), LI.Balances(l.accounts, series);
    forall k | k in rows ensures At(balances, RowName(k)) == rows[k] { RowBalance(db, l, k, series); }
    forall a, b | a in rows && b in rows && RowName(a) == RowName(b) ensures a == b {
      RowBalance(db, l, a, series);
      RowBalance(db, l, b, series);
      L.KeyInjective(a.holder, a.series, b.holder, b.series);
    }
    forall x | x in balances && balances[x] != 0 ensures exists k :: k in rows && RowName(k) == x {
      BalanceRow(db, l, x, series);
    }
    SumRenamed(rows, balances, RowName);
  }

  // In every reachable database the proof rows of a series add up to its account balances
  // plus its retirement rows, whatever the series is called.
  lemma TablesConserve(events: seq<Event>, series: string)
    ensures var db := Run(Start, events).db;
            Sum(ProofAmounts(db, series)) == Sum(AccountBalances(db, series)) + Sum(RetirementAmounts(db, series))
  {
    CommitOrderIsSerial(events);
    var s := Run(Start, events);
    hide Run;
    var l := Machine(s.log).ledger;
    hide Machine, Accepted;
    Conservation(s.db, l, series);
  }

  lemma Conservation(db: DB, l: L.State, series: string)
    requires LedgerAgrees(db, l) && LI.Inv(l)
    ensures Sum(ProofAmounts(db, series)) == Sum(AccountBalances(db, series)) + Sum(RetirementAmounts(db, series))
    ensures Sum(ProofAmounts(db, series)) == L.IssuedTotal(l, series) && Sum(RetirementAmounts(db, series)) == L.RetiredTotal(l, series)
  {
    TableCirculation(db, l, series);
    assert L.IssuedTotal(l, series) == LI.Circulating(l, series) + L.RetiredTotal(l, series);
  }

  // ---------- A report across commits ----------

  // What an accepted call issues in a series, and what it retires.
  function Issues(g: G.State, op: G.Op, series: string): int {
    if op.OpLedger? && op.ledgerOp.OpAllocate? && op.ledgerOp.series == series && G.Apply(g, op).1 then LT.AllocationTotal(op.ledgerOp.items) else 0
  }

  function RetiredBy(g: G.State, op: G.Op): Option<string> {
    if !G.Apply(g, op).1 then None
    else match op
      case OpLedger(o) => if o.OpRetire? then Some(o.id) else None
      case OpComplete(id, p) => if id in g.jobs.jobs then Some(g.jobs.jobs[id].redemptionId) else None
      case _ => None
  }

  function Retires(g: G.State, op: G.Op, series: string): int {
    match RetiredBy(g, op)
    case None => 0
    case Some(r) => if r in g.ledger.redemptions && g.ledger.redemptions[r].request.seriesId == series then g.ledger.redemptions[r].request.amount else 0
  }

  function IssuedOver(g: G.State, ops: seq<G.Op>, series: string): int
    decreases |ops|
  {
    if ops == [] then 0 else Issues(g, ops[0], series) + IssuedOver(G.Apply(g, ops[0]).0, ops[1..], series)
  }

  function RetiredOver(g: G.State, ops: seq<G.Op>, series: string): int
    decreases |ops|
  {
    if ops == [] then 0 else Retires(g, ops[0], series) + RetiredOver(G.Apply(g, ops[0]).0, ops[1..], series)
  }

  lemma EndMoves(l: L.State, id: string, outcome: L.Status, series: string)
    requires L.IsLocked(l, id)
    ensures L.IssuedTotal(L.End(l, id, outcome), series) == L.IssuedTotal(l, series)
    ensures L.RetiredTotal(L.End(l, id, outcome), series) ==
            L.RetiredTotal(l, series) + When(outcome == L.Retired && l.redemptions[id].request.seriesId == series, l.redemptions[id].request.amount)
  {
    hide L.Key;
  }

  lemma LedgerMoves(l: L.State, o: L.Op, series: string)
    ensures var (m, accepted) := L.Apply(l, o);
            && L.IssuedTotal(m, series) == L.IssuedTotal(l, series) + When(accepted && o.OpAllocate? && o.series == series, if o.OpAllocate? then LT.AllocationTotal(o.items) else 0)
            && L.RetiredTotal(m, series) == L.RetiredTotal(l, series)
                 + When(accepted && o.OpRetire? && o.id in l.redemptions && l.redemptions[o.id].request.seriesId == series,
                        if o.OpRetire? && o.id in l.redemptions then l.redemptions[o.id].request.amount else 0)
  {
    hide L.Key, L.End, L.FirstBadItem, L.Distinct, L.Refusal;
    match o
    case OpAllocate(s, items) => if L.Allocate(l, s, items).result.Ok? { LT.AllocateIssues(l, s, items, series); CreditAllRetires(l, s, items, series); }
    case OpRetire(id, receipt) => if L.IsLocked(l, id) { EndMoves(l, id, L.Retired, series); }
    case OpRelease(id) => if L.IsLocked(l, id) { EndMoves(l, id, L.Refunded, series); }
    case _ =>
  }

  lemma {:induction false} CreditAllRetires(l: L.State, s: string, items: seq<L.Allocation>, series: string)
    ensures L.RetiredTotal(L.CreditAll(l, s, items), series) == L.RetiredTotal(l, series)
    decreases |items|
  {
    hide L.Key;
    if items != [] { CreditAllRetires(L.CreditOne(l, s, items[0]), s, items[1..], series); }
  }

  lemma StepMoves(g: G.State, op: G.Op, series: string)
    ensures var h := G.Apply(g, op).0;
            && L.IssuedTotal(h.ledger, series) == L.IssuedTotal(g.ledger, series) + Issues(g, op, series)
            && L.RetiredTotal(h.ledger, series) == L.RetiredTotal(g.ledger, series) + Retires(g, op, series)
  {
    hide L.Apply, L.End, G.Insert, G.Claim, G.Precheck, G.RegisterProvider, J.Complete, J.Fail;
    InsertLeaves(g, op);
    match op
    case OpLedger(o) => LedgerMoves(g.ledger, o, series); RetireKnown(g.ledger, o);
    case OpComplete(id, p) => if G.Complete(g, id, p).1 { EndMoves(g.ledger, g.jobs.jobs[id].redemptionId, L.Retired, series); }
    case OpFail(id, p, retryable) =>
      var f := J.Fail(g.jobs, id, p, retryable);
      if f.result.Ok? && f.result.value.status != J.Queued && L.IsLocked(g.ledger, f.result.value.redemptionId) {
        EndMoves(g.ledger, f.result.value.redemptionId, L.Refunded, series);
      }
    case _ =>
  }

  lemma RetireKnown(l: L.State, o: L.Op)
    ensures o.OpRetire? && L.Apply(l, o).1 ==> o.id in l.redemptions
  {
  }

  lemma InsertLeaves(g: G.State, op: G.Op)
    ensures op.OpInsert? || op.OpClaim? || op.OpPrecheck? || op.OpRegisterProvider? ==> G.Apply(g, op).0.ledger == g.ledger
  {
  }

  lemma {:induction false} RunMoves(g: G.State, ops: seq<G.Op>, series: string)
    ensures var h := G.Run(g, ops);
            && L.IssuedTotal(h.ledger, series) == L.IssuedTotal(g.ledger, series) + IssuedOver(g, ops, series)
            && L.RetiredTotal(h.ledger, series) == L.RetiredTotal(g.ledger, series) + RetiredOver(g, ops, series)
    decreases |ops|
  {
    hide Issues, Retires, G.Apply;
    if ops != [] {
      StepMoves(g, ops[0], series);
      RunMoves(G.Apply(g, ops[0]).0, ops[1..], series);
    }
  }

  // Neither is ever negative.
  lemma {:induction false} OverNonNegative(g: G.State, ops: seq<G.Op>, series: string)
    requires G.BaseInv(g)
    ensures 0 <= IssuedOver(g, ops, series) && 0 <= RetiredOver(g, ops, series)
    decreases |ops|
  {
    hide G.Apply;
    if ops != [] {
      IssuesNonNegative(g, ops[0], series);
      assert 0 <= Retires(g, ops[0], series) by { assert LI.RedemptionsOk(g.ledger); }
      G.BaseKeeps(g, ops[0]);
      hide G.BaseInv, Issues, Retires;
      OverNonNegative(G.Apply(g, ops[0]).0, ops[1..], series);
    }
  }

  lemma {:induction false} GoodTotal(l: L.State, items: seq<L.Allocation>)
    requires L.FirstBadItem(l, items) == None
    ensures 0 <= LT.AllocationTotal(items)
  {
    if items != [] { GoodTotal(l, items[1..]); }
  }

  lemma IssuesNonNegative(g: G.State, op: G.Op, series: string)
    ensures 0 <= Issues(g, op, series)
  {
    if Issues(g, op, series) != 0 {
      hide L.CreditAll, L.Distinct;
      GoodTotal(g.ledger, op.ledgerOp.items);
    }
  }

  // The calls committed by some more events.
  function MoreOps(s: System, events: seq<Event>): seq<G.Op>
    requires |s.log| <= |Run(s, events).log|
  {
    Ops(Run(s, events).log)[|s.log|..]
  }

  lemma {:induction false} LogGrows(s: System, events: seq<Event>)
    ensures s.log <= Run(s, events).log
    decreases |events|
  {
    hide CanAdvance, CanBegin, CanPrecheck, Program, Exec;
    if events != [] { LogGrows(Next(s, events[0]), events[1..]); }
  }

  lemma {:induction false} RunJoins(g: G.State, ops: seq<G.Op>, more: seq<G.Op>)
    ensures G.Run(g, ops + more) == G.Run(G.Run(g, ops), more)
    decreases |ops|
  {
    hide G.Apply;
    if ops == [] {
      assert ops + more == more;
    } else {
      assert (ops + more)[1..] == ops[1..] + more;
      RunJoins(G.Apply(g, ops[0]).0, ops[1..], more);
    }
  }

  lemma MoreMachine(s: System, events: seq<Event>)
    requires |s.log| <= |Run(s, events).log|
    ensures Machine(Run(s, events).log) == G.Run(Machine(s.log), MoreOps(s, events))
  {
    hide Run, G.Run;
    LogGrows(s, events);
    assert Ops(Run(s, events).log) == Ops(s.log) + MoreOps(s, events);
    RunJoins(G.Empty, Ops(s.log), MoreOps(s, events));
  }

  // What commits between two moments adds to the tables' sums.
  lemma SumsMove(before: seq<Event>, between: seq<Event>, series: string)
    ensures var s := Run(Start, before);
            var t := Run(s, between);
            |s.log| <= |t.log|
            && var (g, ops) := (Machine(s.log), MoreOps(s, between));
               && Sum(ProofAmounts(t.db, series)) == Sum(ProofAmounts(s.db, series)) + IssuedOver(g, ops, series)
               && Sum(RetirementAmounts(t.db, series)) == Sum(RetirementAmounts(s.db, series)) + RetiredOver(g, ops, series)
               && 0 <= IssuedOver(g, ops, series) && 0 <= RetiredOver(g, ops, series)
  {
    var s := Run(Start, before);
    var t := Run(s, between);
    CommitOrderIsSerial(before);
    StartInv();
    RunSerialized(Start, before);
    RunSimulates(s, between);
    LogGrows(s, between);
    MoreMachine(s, between);
    RunMoves(Machine(s.log), MoreOps(s, between), series);
    OverNonNegative(Machine(s.log), MoreOps(s, between), series);
    hide Run, Machine, Accepted, IssuedOver, RetiredOver, G.Run, ProofAmounts, RetirementAmounts;
    TotalsRead(s.db, Machine(s.log).ledger, series);
    TotalsRead(t.db, Machine(t.log).ledger, series);
  }

  lemma StartInv()
    ensures Inv(Start) && Serialized(Start)
  {
  }

  lemma TotalsRead(db: DB, l: L.State, series: string)
    requires LedgerAgrees(db, l)
    ensures L.IssuedTotal(l, series) == Sum(ProofAmounts(db, series)) && L.RetiredTotal(l, series) == Sum(RetirementAmounts(db, series))
  {
  }

  // The report reads issues, accounts and retirements in three separate queries. Read in that
  // order, it calls the series conserved exactly when nothing was issued in it between the first
  // two queries and nothing retired between the last two.
  lemma ReportInOrder(before: seq<Event>, first: seq<Event>, second: seq<Event>, series: string)
    ensures var s := Run(Start, before);
            var t := Run(s, first);
            var u := Run(t, second);
            |s.log| <= |t.log| <= |u.log|
            && (Sum(ProofAmounts(s.db, series)) == Sum(AccountBalances(t.db, series)) + Sum(RetirementAmounts(u.db, series)) <==>
                 IssuedOver(Machine(s.log), MoreOps(s, first), series) == 0 && RetiredOver(Machine(t.log), MoreOps(t, second), series) == 0)
  {
    SumsMove(before, first, series);
    RunEvents(Start, before, first);
    TablesConserve(before + first, series);
    SumsMove(before + first, second, series);
    hide Run, Machine, IssuedOver, RetiredOver, MoreOps, ProofAmounts, AccountBalances, RetirementAmounts;
  }

  lemma {:induction false} RunEvents(s: System, events: seq<Event>, more: seq<Event>)
    ensures Run(s, events + more) == Run(Run(s, events), more)
    decreases |events|
  {
    hide Next;
    if events == [] {
      assert events + more == more;
    } else {
      assert (events + more)[1..] == events[1..] + more;
      RunEvents(Next(s, events[0]), events[1..], more);
    }
  }

  // With the accounts read first, it does so exactly when what was issued in the series by the
  // time issues are read equals what was retired by the time retirements are.
  lemma ReportAccountsFirst(before: seq<Event>, untilIssues: seq<Event>, untilRetirements: seq<Event>, series: string)
    ensures var s := Run(Start, before);
            var (t, u) := (Run(s, untilIssues), Run(s, untilRetirements));
            |s.log| <= |t.log| && |s.log| <= |u.log|
            && (Sum(ProofAmounts(t.db, series)) == Sum(AccountBalances(s.db, series)) + Sum(RetirementAmounts(u.db, series)) <==>
                 IssuedOver(Machine(s.log), MoreOps(s, untilIssues), series) == RetiredOver(Machine(s.log), MoreOps(s, untilRetirements), series))
  {
    SumsMove(before, untilIssues, series);
    SumsMove(before, untilRetirements, series);
    TablesConserve(before, series);
    hide Run, Machine, IssuedOver, RetiredOver, MoreOps, ProofAmounts, AccountBalances, RetirementAmounts;
  }

  // ---------- Jobs and redemptions ----------

  // When redemptions are ended only through jobs, each job row and its redemption row agree
  // on holder, series, amount and status in every reachable database.
  lemma JobRowsAgree(events: seq<Event>, id: string)
    requires forall c <- Run(Start, events).log :: !G.EndsDirectly(c.op)
    ensures var db := Run(Start, events).db;
            JobIn(db, id).Some? ==>
              var j := JobIn(db, id).value;
              && RedemptionIn(db, j.redemptionId).Some?
              && var r := RedemptionIn(db, j.redemptionId).value;
                 && r.request.holderAgent == j.holderAgent && r.request.seriesId == j.seriesId && r.request.amount == j.amount
                 && r.status == G.Expected(j.status)
  {
    CommitOrderIsSerial(events);
    var s := Run(Start, events);
    hide Run, Agrees, G.BaseInv, Accepted;
    forall op <- Ops(s.log) ensures !G.EndsDirectly(op) {
      var k :| 0 <= k < |s.log| && Ops(s.log)[k] == op;
      assert s.log[k] in s.log;
    }
    G.Reachable(Ops(s.log));
    var g := Machine(s.log);
    RowsRead(s.db, g, id, "", "", "");
    if JobIn(s.db, id).Some? {
      RowsRead(s.db, g, id, "", "", g.jobs.jobs[id].redemptionId);
      assert G.Agrees(g.ledger, g.jobs.jobs[id]);
    }
  }

  // Every running or completed job row names a commitment row of its own provider whose resource
  // class the job lists, in every reachable database.
  lemma JobRowsMatched(events: seq<Event>, id: string)
    ensures var db := Run(Start, events).db;
      JobIn(db, id).Some? && (JobIn(db, id).value.status == J.Running || JobIn(db, id).value.status == J.Completed) ==>
        var j := JobIn(db, id).value;
        && j.commitmentId.Some? && CapacityIn(db, j.commitmentId.value).Some?
        && var c := CapacityIn(db, j.commitmentId.value).value.commitment;
           c.resourceClass in j.resourceClasses && j.providerId == Some(c.providerId)
  {
    CommitOrderIsSerial(events);
    var s := Run(Start, events);
    hide Run, Agrees, G.BaseInv, Accepted;
    G.RunMatches(G.Empty, Ops(s.log));
    var g := Machine(s.log);
    RowsRead(s.db, g, id, "", "", "");
    if JobIn(s.db, id).Some? {
      assert J.Matched(g.jobs, id);
      if g.jobs.jobs[id].commitmentId.Some? { RowsRead(s.db, g, "", g.jobs.jobs[id].commitmentId.value, "", ""); }
    }
  }

  // Every job row is within its attempt limit, and every commitment row accounts for the
  // jobs that carry it, in every reachable database.
  lemma JobRowsBounded(events: seq<Event>, id: string, c: string)
    ensures var s := Run(Start, events);
            && (JobIn(s.db, id).Some? ==> J.AttemptsOk(JobIn(s.db, id).value))
            && (CapacityIn(s.db, c).Some? ==>
                  var cap := CapacityIn(s.db, c).value;
                  0 <= cap.remaining <= cap.recognised && cap.recognised == cap.remaining + Sum(J.Carried(Machine(s.log).jobs.jobs, c)))
  {
    CommitOrderIsSerial(events);
    var s := Run(Start, events);
    hide Run, Agrees, Accepted, Machine;
    var g := Machine(s.log);
    RowsRead(s.db, g, id, c, "", "");
    if id in g.jobs.jobs { assert J.JobOk(g.jobs, id); }
    if c in g.jobs.commitments { J.RemainingInRange(g.jobs, c); }
  }

  // ---------- Check constraints ----------

  // The check constraint on balances and locks never refuses the end of a locked redemption.
  lemma SettleNeverRefused(v: DB, l: L.State, t: Target, id: string, outcome: L.Status)
    requires LedgerAgrees(v, l) && LI.Inv(l) && L.IsLocked(l, id) && Finds(v, t, id, l.redemptions[id])
    ensures Exec(Settle(t, outcome), v).Some?
  {
    HolderRowExists(v, l, id);
    HolderInRange(l, id);
    hide LedgerAgrees, LI.Inv, L.Key, L.AccountAt, L.NulFree, Exec;
    SettleRuns(v, t, id, l.redemptions[id], L.AccountAt(l, LI.KeyOf(l.redemptions[id])), outcome);
  }

  lemma SettleRuns(v: DB, t: Target, id: string, r: L.Redemption, a: L.Account, outcome: L.Status)
    requires Finds(v, t, id, r) && AccountIn(v, r.request.holderAgent, r.request.seriesId) == Some(a)
    requires 0 < r.request.amount <= a.locked <= a.balance && 0 <= a.sequence
    ensures Exec(Settle(t, outcome), v).Some?
  {
  }

  lemma HolderInRange(l: L.State, id: string)
    requires LI.Inv(l) && L.IsLocked(l, id)
    ensures var a := L.AccountAt(l, LI.KeyOf(l.redemptions[id]));
            0 < l.redemptions[id].request.amount <= a.locked <= a.balance && 0 <= a.sequence
  {
    LI.LockCovered(l, id);
    LI.AccountInRange(l, LI.KeyOf(l.redemptions[id]));
    hide LI.LocksMatch, L.Key;
  }
}
