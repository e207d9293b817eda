/**
 One transaction at a time: each committed program, run alone, does to the tables what the
 registry call does to the ledger and what the store call does to the jobs.

 Tables and machine agree part by part: agents and request marks as sets of keys, accounts
 read as zero where absent, redemptions and jobs row by row, the issued and retired totals as
 sums of proof and retirement rows.

 The proofs first run a program statement by statement on rows that agree with a state, then
 compare what the statements wrote with what the call does, one lemma for each kind of call
 and one, CallRefines, for all of them.
*/
module PostgresRefinement {
  import opened Results
  import opened Sums
  import opened Postgres
  import L = Ledger
  import LI = LedgerInvariants
  import J = Jobs
  import G = Joint

  // ---------- Running a program statement by statement ----------

  // The rows after a run of statements, if none fails.
  function ExecAll(p: seq<Stmt>, v: DB): Option<DB> {
    if p == [] then Some(v)
    else match Exec(p[0], v)
      case None => None
      case Some(d) => ExecAll(p[1..], v + d)
  }

  lemma {:induction false} ExecAppend(p: seq<Stmt>, q: seq<Stmt>, v: DB)
    ensures ExecAll(p + q, v) == match ExecAll(p, v) case None => None case Some(u) => ExecAll(q, u)
    decreases |p|
  {
    if p == [] {
      assert p + q == q;
    } else {
      assert (p + q)[1..] == p[1..] + q;
      if Exec(p[0], v).Some? { ExecAppend(p[1..], q, v + Exec(p[0], v).value); }
    }
  }

  // Replaying from the back and running from the front give the same rows.
  lemma {:induction false} ReplayRuns(p: seq<Stmt>, db: DB)
    requires Replay(p, db).Some?
    ensures ExecAll(p, db) == Some(db + Replay(p, db).value.0)
    decreases |p|
  {
    if p == [] {
      assert db + map[] == db;
    } else {
      var front, st := p[..|p| - 1], p[|p| - 1];
      ReplayRuns(front, db);
      ExecAppend(front, [st], db);
      assert p == front + [st];
      var w := Replay(front, db).value.0;
      var d := Exec(st, db + w).value;
      assert ExecAll([st], db + w) == Some(db + w + d) by { assert [st][1..] == []; }
      assert db + (w + d) == db + w + d;
    }
  }

  // Two halves of a program that runs through.
  lemma Halves(p: seq<Stmt>, q: seq<Stmt>, v: DB) returns (u: DB)
    requires ExecAll(p + q, v).Some?
    ensures ExecAll(p, v) == Some(u) && ExecAll(q, u) == ExecAll(p + q, v)
  {
    ExecAppend(p, q, v);
    u := ExecAll(p, v).value;
  }

  // The first statement of a program that runs through.
  lemma First(st: Stmt, rest: seq<Stmt>, v: DB) returns (u: DB)
    requires ExecAll([st] + rest, v).Some?
    ensures Exec(st, v).Some? && u == v + Exec(st, v).value && ExecAll(rest, u) == ExecAll([st] + rest, v)
    ensures Exec(st, v).value == map[] ==> u == v
  {
    assert ([st] + rest)[1..] == rest;
    u := v + Exec(st, v).value;
  }

  // ---------- What the tables say ----------

  function AccountOf(db: DB, holder: string, series: string): L.Account {
    if AccountIn(db, holder, series).Some? then AccountIn(db, holder, series).value else L.ZeroAccount
  }

  function ProofAmounts(db: DB, series: string): map<RowKey, int> {
    map k | k in db && k.ProofK? && db[k].ProofR? && db[k].seriesId == series :: db[k].amount
  }

  function RetirementAmounts(db: DB, series: string): map<RowKey, int> {
    map k | k in db && k.RetirementK? && db[k].ProofR? && db[k].seriesId == series :: db[k].amount
  }

  function Lookup<V>(m: map<string, V>, k: string): Option<V> {
    if k in m then Some(m[k]) else None
  }

  ghost predicate AgentsAgree(db: DB, l: L.State) {
    (forall a :: a in l.agents <==> AgentK(a) in db) && LI.NulFreeAgents(l)
  }

  ghost predicate AccountsAgree(db: DB, l: L.State) {
    && (forall h, s :: L.NulFree(h) ==> AccountOf(db, h, s) == L.AccountAt(l, L.Key(h, s)))
    && (forall h, s :: AccountK(h, s) in db ==> AccountIn(db, h, s).Some? && L.NulFree(h))
  }

  ghost predicate RequestsAgree(db: DB, l: L.State) {
    && (forall id :: id in l.acceptedIds <==> RequestK(id) in db)
    && (forall n :: n in l.acceptedNonces <==> NonceK(n) in db)
    && (forall p :: p in l.consumedProofs <==> ProofK(p) in db)
  }

  ghost predicate RedemptionsAgree(db: DB, l: L.State) {
    && (forall id :: RedemptionIn(db, id) == Lookup(l.redemptions, id))
    && (forall id :: RedemptionK(id) in db ==> RedemptionIn(db, id).Some?)
  }

  ghost predicate TotalsAgree(db: DB, l: L.State) {
    && (forall s :: L.IssuedTotal(l, s) == Sum(ProofAmounts(db, s)))
    && (forall s :: L.RetiredTotal(l, s) == Sum(RetirementAmounts(db, s)))
  }

  ghost predicate JobsAgree(db: DB, s: J.State) {
    && (forall id :: JobIn(db, id) == Lookup(s.jobs, id))
    && (forall id :: JobK(id) in db ==> JobIn(db, id).Some?)
    && (forall r :: JobRedemptionK(r) in db <==> J.HasRedemption(s.jobs, r))
  }

  ghost predicate CapacityAgrees(db: DB, s: J.State) {
    && (forall c :: CapacityIn(db, c) == Lookup(s.commitments, c))
    && (forall c :: CommitmentK(c) in db ==> CapacityIn(db, c).Some?)
    && (forall p :: ProviderIn(db, p) == Lookup(s.providers, p))
  }

  ghost predicate LedgerAgrees(db: DB, l: L.State) {
    AgentsAgree(db, l) && AccountsAgree(db, l) && RequestsAgree(db, l) && RedemptionsAgree(db, l) && TotalsAgree(db, l)
  }

  ghost predicate Agrees(db: DB, g: G.State) {
    LedgerAgrees(db, g.ledger) && JobsAgree(db, g.jobs) && CapacityAgrees(db, g.jobs)
  }

  // ---------- Frames ----------

  // The two databases have the same rows of the kinds the jobs live in.
  ghost predicate SameJobRows(db: DB, db': DB) {
    forall k: RowKey :: k.ProviderK? || k.CommitmentK? || k.JobK? || k.JobRedemptionK? ==> (k in db <==> k in db') && (k in db ==> db[k] == db'[k])
  }

  ghost predicate SameLedgerRows(db: DB, db': DB) {
    forall k: RowKey :: !(k.ProviderK? || k.CommitmentK? || k.JobK? || k.JobRedemptionK?) ==> (k in db <==> k in db') && (k in db ==> db[k] == db'[k])
  }

  lemma JobsFrame(db: DB, db': DB, s: J.State)
    requires SameJobRows(db, db') && JobsAgree(db, s) && CapacityAgrees(db, s)
    ensures JobsAgree(db', s) && CapacityAgrees(db', s)
  {
    forall id ensures JobIn(db', id) == Lookup(s.jobs, id) && (JobK(id) in db' ==> JobIn(db', id).Some?) {
      assert JobK(id) in db <==> JobK(id) in db';
      assert JobIn(db, id) == Lookup(s.jobs, id);
    }
    forall c ensures CapacityIn(db', c) == Lookup(s.commitments, c) && (CommitmentK(c) in db' ==> CapacityIn(db', c).Some?) {
      assert CommitmentK(c) in db <==> CommitmentK(c) in db';
      assert CapacityIn(db, c) == Lookup(s.commitments, c);
    }
    forall p ensures ProviderIn(db', p) == Lookup(s.providers, p) {
      assert ProviderK(p) in db <==> ProviderK(p) in db';
      assert ProviderIn(db, p) == Lookup(s.providers, p);
    }
    forall r ensures JobRedemptionK(r) in db' <==> J.HasRedemption(s.jobs, r) {
      assert JobRedemptionK(r) in db <==> JobRedemptionK(r) in db';
    }
  }

  lemma LedgerFrame(db: DB, db': DB, l: L.State)
    requires SameLedgerRows(db, db') && LedgerAgrees(db, l)
    ensures LedgerAgrees(db', l)
  {
    forall a ensures a in l.agents <==> AgentK(a) in db' { assert AgentK(a) in db <==> AgentK(a) in db'; }
    forall h, s ensures AccountIn(db', h, s) == AccountIn(db, h, s) && (AccountK(h, s) in db' <==> AccountK(h, s) in db) { assert AccountK(h, s) in db <==> AccountK(h, s) in db'; }
    forall h, s | L.NulFree(h) ensures AccountOf(db', h, s) == L.AccountAt(l, L.Key(h, s)) { assert AccountOf(db, h, s) == L.AccountAt(l, L.Key(h, s)); }
    forall id ensures id in l.acceptedIds <==> RequestK(id) in db' { assert RequestK(id) in db <==> RequestK(id) in db'; }
    forall n ensures n in l.acceptedNonces <==> NonceK(n) in db' { assert NonceK(n) in db <==> NonceK(n) in db'; }
    forall p ensures p in l.consumedProofs <==> ProofK(p) in db' { assert ProofK(p) in db <==> ProofK(p) in db'; }
    forall id ensures RedemptionIn(db', id) == Lookup(l.redemptions, id) && (RedemptionK(id) in db' ==> RedemptionIn(db', id).Some?) {
      assert RedemptionK(id) in db <==> RedemptionK(id) in db';
      assert RedemptionIn(db, id) == Lookup(l.redemptions, id);
    }
    forall s ensures ProofAmounts(db', s) == ProofAmounts(db, s) && RetirementAmounts(db', s) == RetirementAmounts(db, s) {
    }
    forall s ensures L.IssuedTotal(l, s) == Sum(ProofAmounts(db', s)) { assert L.IssuedTotal(l, s) == Sum(ProofAmounts(db, s)); }
    forall s ensures L.RetiredTotal(l, s) == Sum(RetirementAmounts(db', s)) { assert L.RetiredTotal(l, s) == Sum(RetirementAmounts(db, s)); }
  }

  // ---------- One row written, one ledger field changed ----------

  // Rows of two databases that read alike through the account, redemption and amount tables.
  lemma TotalsFrame(v: DB, v': DB, l: L.State, m: L.State)
    requires TotalsAgree(v, l) && m.issued == l.issued && m.retired == l.retired
    requires forall k: RowKey :: k.ProofK? || k.RetirementK? ==> (k in v <==> k in v') && (k in v ==> v[k] == v'[k])
    ensures TotalsAgree(v', m)
  {
    forall s ensures L.IssuedTotal(m, s) == Sum(ProofAmounts(v', s)) && L.RetiredTotal(m, s) == Sum(RetirementAmounts(v', s)) {
      assert L.IssuedTotal(l, s) == Sum(ProofAmounts(v, s));
      assert L.RetiredTotal(l, s) == Sum(RetirementAmounts(v, s));
      assert ProofAmounts(v', s) == ProofAmounts(v, s) && RetirementAmounts(v', s) == RetirementAmounts(v, s);
    }
  }

  lemma PutAccount(v: DB, l: L.State, h: string, s: string, a: L.Account)
    requires LedgerAgrees(v, l) && L.NulFree(h)
    ensures LedgerAgrees(v[AccountK(h, s) := AccountR(a)], L.SetAccount(l, L.Key(h, s), a))
  {
    var v' := v[AccountK(h, s) := AccountR(a)];
    var m := L.SetAccount(l, L.Key(h, s), a);
    TotalsFrame(v, v', l, m);
    forall x, t | L.NulFree(x) ensures AccountOf(v', x, t) == L.AccountAt(m, L.Key(x, t)) {
      assert AccountOf(v, x, t) == L.AccountAt(l, L.Key(x, t));
      if L.Key(x, t) == L.Key(h, s) { L.KeyInjective(x, t, h, s); }
    }
    hide L.Key, L.NulFree;
    forall x, t ensures AccountK(x, t) in v' ==> AccountIn(v', x, t).Some? { assert AccountK(x, t) in v ==> AccountIn(v, x, t).Some?; }
    forall id ensures RedemptionIn(v', id) == RedemptionIn(v, id) { }
  }

  lemma RequestsMarked(v: DB, l: L.State, id: string, nonce: string)
    requires RequestsAgree(v, l)
    ensures RequestsAgree(v + map[RequestK(id) := MarkR, NonceK(nonce) := MarkR], L.Consume(l, id, nonce))
  {
  }

  lemma PutRequest(v: DB, l: L.State, id: string, nonce: string)
    requires LedgerAgrees(v, l)
    ensures LedgerAgrees(v + map[RequestK(id) := MarkR, NonceK(nonce) := MarkR], L.Consume(l, id, nonce))
  {
    var v' := v + map[RequestK(id) := MarkR, NonceK(nonce) := MarkR];
    TotalsFrame(v, v', l, L.Consume(l, id, nonce));
    RequestsMarked(v, l, id, nonce);
    hide L.Key, L.NulFree, RequestsAgree, TotalsAgree;
    forall x, t ensures AccountIn(v', x, t) == AccountIn(v, x, t) { }
    forall r ensures RedemptionIn(v', r) == RedemptionIn(v, r) { }
  }

  lemma PutRedemption(v: DB, l: L.State, id: string, r: L.Redemption)
    requires LedgerAgrees(v, l)
    ensures LedgerAgrees(v[RedemptionK(id) := RedemptionR(r)], l.(redemptions := l.redemptions[id := r]))
  {
    var v' := v[RedemptionK(id) := RedemptionR(r)];
    var m := l.(redemptions := l.redemptions[id := r]);
    TotalsFrame(v, v', l, m);
    hide L.Key, L.NulFree;
    forall x, t ensures AccountIn(v', x, t) == AccountIn(v, x, t) { }
    forall x ensures RedemptionIn(v', x) == Lookup(m.redemptions, x) { assert RedemptionIn(v, x) == Lookup(l.redemptions, x); }
  }

  lemma PutAgent(v: DB, l: L.State, a: string, key: string)
    requires LedgerAgrees(v, l) && L.NulFree(a)
    ensures LedgerAgrees(v[AgentK(a) := AgentR(key)], l.(agents := l.agents + {a}))
  {
    var v' := v[AgentK(a) := AgentR(key)];
    TotalsFrame(v, v', l, l.(agents := l.agents + {a}));
    hide L.Key, L.NulFree;
    forall x, t ensures AccountIn(v', x, t) == AccountIn(v, x, t) { }
    forall r ensures RedemptionIn(v', r) == RedemptionIn(v, r) { }
  }

  // One amount row more: only its own series' sum moves.
  lemma ProofSum(v: DB, p: string, series: string, amount: int, s: string)
    requires ProofK(p) !in v
    ensures var u := v[ProofK(p) := ProofR(series, amount)];
            && Sum(ProofAmounts(u, s)) == Sum(ProofAmounts(v, s)) + When(s == series, amount)
            && RetirementAmounts(u, s) == RetirementAmounts(v, s)
  {
    var u := v[ProofK(p) := ProofR(series, amount)];
    assert RetirementAmounts(u, s) == RetirementAmounts(v, s);
    if s == series {
      assert ProofAmounts(u, s) == ProofAmounts(v, s)[ProofK(p) := amount];
      SumUpdate(ProofAmounts(v, s), ProofK(p), amount);
    } else {
      assert ProofAmounts(u, s) == ProofAmounts(v, s);
    }
  }

  lemma ProofTotals(v: DB, l: L.State, m: L.State, p: string, series: string, amount: int)
    requires TotalsAgree(v, l) && ProofK(p) !in v
    requires m.retired == l.retired && m.issued == l.issued[series := L.IssuedTotal(l, series) + amount]
    ensures TotalsAgree(v[ProofK(p) := ProofR(series, amount)], m)
  {
    hide Sum, ProofAmounts, RetirementAmounts;
    var u := v[ProofK(p) := ProofR(series, amount)];
    forall s ensures L.IssuedTotal(m, s) == Sum(ProofAmounts(u, s)) {
      ProofSum(v, p, series, amount, s);
      assert L.IssuedTotal(l, s) == Sum(ProofAmounts(v, s));
    }
    forall s ensures L.RetiredTotal(m, s) == Sum(RetirementAmounts(u, s)) {
      ProofSum(v, p, series, amount, s);
      assert L.RetiredTotal(l, s) == Sum(RetirementAmounts(v, s));
    }
  }

  lemma PutProof(v: DB, l: L.State, p: string, series: string, amount: int)
    requires LedgerAgrees(v, l) && ProofK(p) !in v
    ensures LedgerAgrees(v[ProofK(p) := ProofR(series, amount)],
                         l.(issued := l.issued[series := L.IssuedTotal(l, series) + amount], consumedProofs := l.consumedProofs + {p}))
  {
    hide TotalsAgree, L.Key, L.NulFree;
    var u := v[ProofK(p) := ProofR(series, amount)];
    ProofTotals(v, l, l.(issued := l.issued[series := L.IssuedTotal(l, series) + amount], consumedProofs := l.consumedProofs + {p}), p, series, amount);
    forall x, t ensures AccountIn(u, x, t) == AccountIn(v, x, t) { }
    forall r ensures RedemptionIn(u, r) == RedemptionIn(v, r) { }
  }

  // One amount row more: only its own series' sum moves.
  lemma RetirementSum(v: DB, id: string, series: string, amount: int, s: string)
    requires RetirementK(id) !in v
    ensures var u := v[RetirementK(id) := ProofR(series, amount)];
            && Sum(RetirementAmounts(u, s)) == Sum(RetirementAmounts(v, s)) + When(s == series, amount)
            && ProofAmounts(u, s) == ProofAmounts(v, s)
  {
    var u := v[RetirementK(id) := ProofR(series, amount)];
    assert ProofAmounts(u, s) == ProofAmounts(v, s);
    if s == series {
      assert RetirementAmounts(u, s) == RetirementAmounts(v, s)[RetirementK(id) := amount];
      SumUpdate(RetirementAmounts(v, s), RetirementK(id), amount);
    } else {
      assert RetirementAmounts(u, s) == RetirementAmounts(v, s);
    }
  }

  lemma RetirementTotals(v: DB, l: L.State, m: L.State, id: string, series: string, amount: int)
    requires TotalsAgree(v, l) && RetirementK(id) !in v
    requires m.issued == l.issued && m.retired == l.retired[series := L.RetiredTotal(l, series) + amount]
    ensures TotalsAgree(v[RetirementK(id) := ProofR(series, amount)], m)
  {
    hide Sum, ProofAmounts, RetirementAmounts;
    var u := v[RetirementK(id) := ProofR(series, amount)];
    forall s ensures L.RetiredTotal(m, s) == Sum(RetirementAmounts(u, s)) {
      RetirementSum(v, id, series, amount, s);
      assert L.RetiredTotal(l, s) == Sum(RetirementAmounts(v, s));
    }
    forall s ensures L.IssuedTotal(m, s) == Sum(ProofAmounts(u, s)) {
      RetirementSum(v, id, series, amount, s);
      assert L.IssuedTotal(l, s) == Sum(ProofAmounts(v, s));
    }
  }

  lemma PutRetirement(v: DB, l: L.State, id: string, series: string, amount: int)
    requires LedgerAgrees(v, l) && RetirementK(id) !in v
    ensures LedgerAgrees(v[RetirementK(id) := ProofR(series, amount)], l.(retired := l.retired[series := L.RetiredTotal(l, series) + amount]))
  {
    hide TotalsAgree, L.Key, L.NulFree;
    var u := v[RetirementK(id) := ProofR(series, amount)];
    RetirementTotals(v, l, l.(retired := l.retired[series := L.RetiredTotal(l, series) + amount]), id, series, amount);
    forall x, t ensures AccountIn(u, x, t) == AccountIn(v, x, t) { }
    forall r ensures RedemptionIn(u, r) == RedemptionIn(v, r) { }
  }

  // Only the view of the accounts matters, and the journal does not.
  lemma ViewAgrees(v: DB, l: L.State, m: L.State)
    requires LedgerAgrees(v, l)
    requires m.agents == l.agents && m.acceptedIds == l.acceptedIds && m.acceptedNonces == l.acceptedNonces
    requires m.consumedProofs == l.consumedProofs && m.redemptions == l.redemptions && m.issued == l.issued && m.retired == l.retired
    requires forall key :: L.AccountAt(m, key) == L.AccountAt(l, key)
    ensures LedgerAgrees(v, m)
  {
    TotalsFrame(v, v, l, m);
    hide L.Key, L.NulFree, L.AccountAt;
  }

  // ---------- Account statements ----------

  lemma EnsureAgrees(v: DB, l: L.State, h: string, s: string)
    requires LedgerAgrees(v, l) && L.NulFree(h)
    ensures var v' := v + Exec(EnsureAccount(h, s), v).value; LedgerAgrees(v', l) && AccountK(h, s) in v'
  {
    var v' := v + Exec(EnsureAccount(h, s), v).value;
    hide LedgerAgrees, L.Key, L.NulFree;
    if AccountK(h, s) in v {
      assert v' == v;
    } else {
      assert v' == v[AccountK(h, s) := AccountR(L.ZeroAccount)];
      AbsentIsZero(v, l, h, s);
      PutAccount(v, l, h, s, L.ZeroAccount);
      ViewAgrees(v', L.SetAccount(l, L.Key(h, s), L.ZeroAccount), l);
    }
  }

  lemma AbsentIsZero(v: DB, l: L.State, h: string, s: string)
    requires LedgerAgrees(v, l) && L.NulFree(h)
    ensures AccountOf(v, h, s) == L.AccountAt(l, L.Key(h, s))
    ensures AccountK(h, s) in v ==> AccountIn(v, h, s) == Some(L.AccountAt(l, L.Key(h, s)))
  {
  }

  function Changed(l: L.State, key: string, balance: int, locked: int, steps: int): L.State {
    var a := L.AccountAt(l, key);
    L.SetAccount(l, key, L.Account(a.balance + balance, a.locked + locked, a.sequence + steps))
  }

  lemma UpdateAgrees(v: DB, l: L.State, h: string, s: string, balance: int, locked: int, steps: int)
    requires LedgerAgrees(v, l) && L.NulFree(h) && AccountK(h, s) in v
    requires Exec(UpdateAccount(h, s, balance, locked, steps), v).Some?
    ensures LedgerAgrees(v + Exec(UpdateAccount(h, s, balance, locked, steps), v).value, Changed(l, L.Key(h, s), balance, locked, steps))
    ensures v.Keys <= (v + Exec(UpdateAccount(h, s, balance, locked, steps), v).value).Keys
  {
    hide LedgerAgrees, L.Key, L.NulFree;
    AbsentIsZero(v, l, h, s);
    var a := L.AccountAt(l, L.Key(h, s));
    var b := L.Account(a.balance + balance, a.locked + locked, a.sequence + steps);
    PutAccount(v, l, h, s, b);
    assert v + map[AccountK(h, s) := AccountR(b)] == v[AccountK(h, s) := AccountR(b)];
  }

  // A recipient credited after the sender is debited and advanced: the registry's three steps.
  lemma TwoUpdatesMove(l: L.State, from: string, to: string, amount: int, key: string)
    ensures L.AccountAt(Changed(Changed(l, from, -amount, 0, 1), to, amount, 0, 0), key) == L.AccountAt(L.MoveBalance(l, from, to, amount), key)
  {
  }

  // The checks of a signed request write nothing.
  lemma ChecksPass(v: DB, l: L.State, actor: string, id: string, nonce: string, amount: int, expiresAt: int, now: int, signed: bool, keys: set<string>)
    requires AgentsAgree(v, l) && ExecAll(RequestChecks(actor, id, nonce, amount, expiresAt, now, signed, keys), v).Some?
    ensures ExecAll(RequestChecks(actor, id, nonce, amount, expiresAt, now, signed, keys), v) == Some(v)
    ensures L.PositiveAmount(amount) && signed && now < expiresAt && actor in l.agents
  {
    hide L.PositiveAmount;
    var s0, s1, s2, s3 := Guard(L.PositiveAmount(amount) && signed), Signed(actor, keys), Guard(now < expiresAt), PeekRequest(id, nonce);
    assert RequestChecks(actor, id, nonce, amount, expiresAt, now, signed, keys) == [s0] + ([s1] + ([s2] + ([s3] + [])));
    var v1 := First(s0, [s1] + ([s2] + ([s3] + [])), v);
    var v2 := First(s1, [s2] + ([s3] + []), v1);
    var v3 := First(s2, [s3] + [], v2);
    var v4 := First(s3, [], v3);
  }

  lemma AgentReads(v: DB, l: L.State, a: string)
    requires LedgerAgrees(v, l) && LI.AgentsOk(l) && Exec(HasAgent(a), v).Some?
    ensures Exec(HasAgent(a), v).value == map[] && a in l.agents && L.NulFree(a)
  {
  }

  lemma TransferRowsReady(v: DB, l: L.State, r: L.TransferRequest) returns (u: DB)
    requires LedgerAgrees(v, l) && LI.AgentsOk(l) && L.NulFree(r.fromAgent) && ExecAll(TransferRows(r), v).Some?
    ensures ExecAll(TransferRows(r), v) == Some(u) && LedgerAgrees(u, l)
    ensures r.toAgent in l.agents
    ensures AccountK(r.fromAgent, r.seriesId) in u && AccountK(r.toAgent, r.seriesId) in u
  {
    hide LedgerAgrees, L.NulFree, LI.AgentsOk, Before, ExecAll;
    var (a, b) := if Before(r.fromAgent, r.toAgent) then (r.fromAgent, r.toAgent) else (r.toAgent, r.fromAgent);
    var s0, s1, s2 := HasAgent(r.toAgent), EnsureAccount(r.fromAgent, r.seriesId), EnsureAccount(r.toAgent, r.seriesId);
    var s3, s4 := LockAccount(a, r.seriesId), LockAccount(b, r.seriesId);
    assert TransferRows(r) == [s0] + ([s1] + ([s2] + ([s3] + ([s4] + []))));
    var v1 := First(s0, [s1] + ([s2] + ([s3] + ([s4] + []))), v);
    AgentReads(v, l, r.toAgent);
    var v2 := First(s1, [s2] + ([s3] + ([s4] + [])), v1);
    EnsureAgrees(v1, l, r.fromAgent, r.seriesId);
    var v3 := First(s2, [s3] + ([s4] + []), v2);
    EnsureAgrees(v2, l, r.toAgent, r.seriesId);
    var v4 := First(s3, [s4] + [], v3);
    u := First(s4, [], v4);
    Nothing(u);
  }

  lemma FreshRequest(v: DB, l: L.State, id: string, nonce: string)
    requires LedgerAgrees(v, l) && RequestK(id) !in v && NonceK(nonce) !in v
    ensures id !in l.acceptedIds && nonce !in l.acceptedNonces
  {
  }

  lemma Accepts(v: DB, l: L.State, h: string, s: string, sequence: int, amount: int, id: string, nonce: string) returns (u: DB)
    requires LedgerAgrees(v, l) && L.NulFree(h) && AccountK(h, s) in v
    requires ExecAll(Accept(h, s, sequence, amount, id, nonce), v).Some?
    ensures ExecAll(Accept(h, s, sequence, amount, id, nonce), v) == Some(u)
    ensures var a := L.AccountAt(l, L.Key(h, s)); sequence == a.sequence && a.balance - a.locked >= amount
    ensures id !in l.acceptedIds && nonce !in l.acceptedNonces
    ensures LedgerAgrees(u, L.Consume(l, id, nonce)) && v.Keys <= u.Keys
  {
    hide LedgerAgrees, L.NulFree, L.Key;
    var s0, s1 := CheckAccount(h, s, sequence, amount), InsertRequest(id, nonce);
    assert Accept(h, s, sequence, amount, id, nonce) == [s0] + ([s1] + []);
    var v1 := First(s0, [s1] + [], v);
    AbsentIsZero(v, l, h, s);
    u := First(s1, [], v1);
    FreshRequest(v1, l, id, nonce);
    PutRequest(v1, l, id, nonce);
  }

  lemma TransferMoves(v: DB, l: L.State, r: L.TransferRequest)
    requires LedgerAgrees(v, l) && L.NulFree(r.fromAgent) && L.NulFree(r.toAgent)
    requires AccountK(r.fromAgent, r.seriesId) in v && AccountK(r.toAgent, r.seriesId) in v
    requires ExecAll(TransferUpdates(r), v).Some?
    ensures LedgerAgrees(ExecAll(TransferUpdates(r), v).value, L.MoveBalance(l, L.Key(r.fromAgent, r.seriesId), L.Key(r.toAgent, r.seriesId), r.amount))
  {
    hide LedgerAgrees, L.NulFree, L.Key, Exec;
    var from, to := L.Key(r.fromAgent, r.seriesId), L.Key(r.toAgent, r.seriesId);
    var s0, s1 := UpdateAccount(r.fromAgent, r.seriesId, -r.amount, 0, 1), UpdateAccount(r.toAgent, r.seriesId, r.amount, 0, 0);
    assert TransferUpdates(r) == [s0] + ([s1] + []);
    var v1 := First(s0, [s1] + [], v);
    UpdateAgrees(v, l, r.fromAgent, r.seriesId, -r.amount, 0, 1);
    var v2 := First(s1, [], v1);
    var m := Changed(l, from, -r.amount, 0, 1);
    UpdateAgrees(v1, m, r.toAgent, r.seriesId, r.amount, 0, 0);
    forall key { TwoUpdatesMove(l, from, to, r.amount, key); }
    ViewAgrees(v2, Changed(m, to, r.amount, 0, 0), L.MoveBalance(l, from, to, r.amount));
  }

  lemma TransferConcludes(db': DB, l: L.State, r: L.TransferRequest, now: int, signed: bool)
    requires L.PositiveAmount(r.amount) && signed && now < r.expiresAt && r.fromAgent in l.agents && r.toAgent in l.agents
    requires var a := L.AccountAt(l, L.Key(r.fromAgent, r.seriesId)); r.senderSequence == a.sequence && a.balance - a.locked >= r.amount
    requires r.transferId !in l.acceptedIds && r.nonce !in l.acceptedNonces
    requires LedgerAgrees(db', L.MoveBalance(L.Consume(l, r.transferId, r.nonce), L.Key(r.fromAgent, r.seriesId), L.Key(r.toAgent, r.seriesId), r.amount))
    ensures L.Transfer(l, r, now, signed).result.Ok? && LedgerAgrees(db', L.Transfer(l, r, now, signed).state)
  {
    hide LedgerAgrees, L.MoveBalance, L.Key;
    var from, to := L.Key(r.fromAgent, r.seriesId), L.Key(r.toAgent, r.seriesId);
    ConsumeThenMove(l, from, to, r.amount, r.transferId, r.nonce);
    LogAgrees(db', L.Consume(L.MoveBalance(l, from, to, r.amount), r.transferId, r.nonce),
              L.TransferEntry(L.ReceiptOf(r, L.AccountAt(l, from).sequence + 1, now)));
  }

  // A committed transfer is an accepted registry transfer.
  lemma TransferRefines(db: DB, db': DB, l: L.State, r: L.TransferRequest, now: int, signed: bool, keys: set<string>)
    requires LedgerAgrees(db, l) && LI.AgentsOk(l)
    requires ExecAll(RequestChecks(r.fromAgent, r.transferId, r.nonce, r.amount, r.expiresAt, now, signed, keys)
                     + (TransferRows(r) + (Accept(r.fromAgent, r.seriesId, r.senderSequence, r.amount, r.transferId, r.nonce) + TransferUpdates(r))), db) == Some(db')
    ensures L.Transfer(l, r, now, signed).result.Ok? && LedgerAgrees(db', L.Transfer(l, r, now, signed).state)
  {
    hide LedgerAgrees, L.NulFree, RequestChecks, Accept, TransferUpdates, TransferRows, LI.AgentsOk, L.Key, L.Transfer, L.MoveBalance, ExecAll;
    var checks := RequestChecks(r.fromAgent, r.transferId, r.nonce, r.amount, r.expiresAt, now, signed, keys);
    var accept := Accept(r.fromAgent, r.seriesId, r.senderSequence, r.amount, r.transferId, r.nonce);
    var v1 := Halves(checks, TransferRows(r) + (accept + TransferUpdates(r)), db);
    AgreesAgents(db, l);
    ChecksPass(db, l, r.fromAgent, r.transferId, r.nonce, r.amount, r.expiresAt, now, signed, keys);
    AgentNulFree(l, r.fromAgent);
    var v2 := Halves(TransferRows(r), accept + TransferUpdates(r), db);
    var u2 := TransferRowsReady(db, l, r);
    AgentNulFree(l, r.toAgent);
    var v3 := Halves(accept, TransferUpdates(r), v2);
    var u3 := Accepts(v2, l, r.fromAgent, r.seriesId, r.senderSequence, r.amount, r.transferId, r.nonce);
    TransferMoves(v3, L.Consume(l, r.transferId, r.nonce), r);
    TransferConcludes(db', l, r, now, signed);
  }

  lemma AgreesAgents(db: DB, l: L.State)
    requires LedgerAgrees(db, l)
    ensures AgentsAgree(db, l)
  {
  }

  lemma AgentNulFree(l: L.State, a: string)
    requires LI.AgentsOk(l) && a in l.agents
    ensures L.NulFree(a)
  {
  }

  lemma ConsumeThenMove(l: L.State, from: string, to: string, amount: int, id: string, nonce: string)
    ensures L.MoveBalance(L.Consume(l, id, nonce), from, to, amount) == L.Consume(L.MoveBalance(l, from, to, amount), id, nonce)
  {
  }

  lemma LogAgrees(v: DB, l: L.State, entry: L.Entry)
    requires LedgerAgrees(v, l)
    ensures LedgerAgrees(v, L.Log(l, entry))
  {
    ViewAgrees(v, l, L.Log(l, entry));
  }

  // ---------- Locking a redemption ----------

  lemma LockStores(v: DB, l: L.State, q: L.LockRequest)
    requires LedgerAgrees(v, l) && L.NulFree(q.holderAgent) && AccountK(q.holderAgent, q.seriesId) in v
    requires ExecAll(LockUpdates(q), v).Some?
    ensures var m := Changed(l, L.Key(q.holderAgent, q.seriesId), 0, q.amount, 1);
            LedgerAgrees(ExecAll(LockUpdates(q), v).value, m.(redemptions := m.redemptions[q.redemptionId := L.Redemption(q, L.Locked)]))
  {
    hide LedgerAgrees, L.NulFree, L.Key;
    var key := L.Key(q.holderAgent, q.seriesId);
    var s0, s1 := UpdateAccount(q.holderAgent, q.seriesId, 0, q.amount, 1), InsertRedemption(q);
    assert LockUpdates(q) == [s0] + ([s1] + []);
    var v1 := First(s0, [s1] + [], v);
    UpdateAgrees(v, l, q.holderAgent, q.seriesId, 0, q.amount, 1);
    var v2 := First(s1, [], v1);
    var r := L.Redemption(q, L.Locked);
    assert v1 + map[RedemptionK(q.redemptionId) := RedemptionR(r)] == v1[RedemptionK(q.redemptionId) := RedemptionR(r)];
    PutRedemption(v1, Changed(l, key, 0, q.amount, 1), q.redemptionId, r);
  }

  lemma LockConcludes(db': DB, l: L.State, q: L.LockRequest, now: int, signed: bool)
    requires L.PositiveAmount(q.amount) && signed && now < q.expiresAt && q.holderAgent in l.agents
    requires var a := L.AccountAt(l, L.Key(q.holderAgent, q.seriesId)); q.senderSequence == a.sequence && a.balance - a.locked >= q.amount
    requires q.redemptionId !in l.acceptedIds && q.nonce !in l.acceptedNonces
    requires var m := Changed(L.Consume(l, q.redemptionId, q.nonce), L.Key(q.holderAgent, q.seriesId), 0, q.amount, 1);
             LedgerAgrees(db', m.(redemptions := m.redemptions[q.redemptionId := L.Redemption(q, L.Locked)]))
    ensures L.LockRedemption(l, q, now, signed).result.Ok? && LedgerAgrees(db', L.LockRedemption(l, q, now, signed).state)
  {
    hide LedgerAgrees, L.Key;
    LogAgrees(db', L.Stored(l, q), L.LockedEntry(q.redemptionId));
  }

  // A committed lock is an accepted registry lock.
  lemma LockRefines(db: DB, db': DB, l: L.State, q: L.LockRequest, now: int, signed: bool, keys: set<string>)
    requires LedgerAgrees(db, l) && LI.AgentsOk(l)
    requires ExecAll(RequestChecks(q.holderAgent, q.redemptionId, q.nonce, q.amount, q.expiresAt, now, signed, keys)
                     + ([EnsureAccount(q.holderAgent, q.seriesId)] + (Accept(q.holderAgent, q.seriesId, q.senderSequence, q.amount, q.redemptionId, q.nonce) + LockUpdates(q))), db) == Some(db')
    ensures L.LockRedemption(l, q, now, signed).result.Ok? && LedgerAgrees(db', L.LockRedemption(l, q, now, signed).state)
  {
    hide LedgerAgrees, L.NulFree, RequestChecks, Accept, LockUpdates, LI.AgentsOk, L.Key, L.LockRedemption, ExecAll;
    var checks := RequestChecks(q.holderAgent, q.redemptionId, q.nonce, q.amount, q.expiresAt, now, signed, keys);
    var ensure := EnsureAccount(q.holderAgent, q.seriesId);
    var accept := Accept(q.holderAgent, q.seriesId, q.senderSequence, q.amount, q.redemptionId, q.nonce);
    var v1 := Halves(checks, [ensure] + (accept + LockUpdates(q)), db);
    AgreesAgents(db, l);
    ChecksPass(db, l, q.holderAgent, q.redemptionId, q.nonce, q.amount, q.expiresAt, now, signed, keys);
    AgentNulFree(l, q.holderAgent);
    var v2 := First(ensure, accept + LockUpdates(q), db);
    EnsureAgrees(db, l, q.holderAgent, q.seriesId);
    var v3 := Halves(accept, LockUpdates(q), v2);
    var u3 := Accepts(v2, l, q.holderAgent, q.seriesId, q.senderSequence, q.amount, q.redemptionId, q.nonce);
    LockStores(v3, L.Consume(l, q.redemptionId, q.nonce), q);
    LockConcludes(db', l, q, now, signed);
  }

  // ---------- Ending a redemption ----------

  // The target of a statement and the redemption row it finds.
  ghost predicate Finds(v: DB, t: Target, id: string, r: L.Redemption) {
    Resolve(t, v) == Some(id) && RedemptionIn(v, id) == Some(r)
  }

  // The holder's account row exists, because its lock covers the redemption.
  lemma HolderRowExists(v: DB, l: L.State, id: string)
    requires LedgerAgrees(v, l) && LI.Inv(l) && L.IsLocked(l, id)
    ensures var q := l.redemptions[id].request;
            L.NulFree(q.holderAgent) && AccountIn(v, q.holderAgent, q.seriesId) == Some(L.AccountAt(l, L.Key(q.holderAgent, q.seriesId)))
  {
    var q := l.redemptions[id].request;
    LI.LockCovered(l, id);
    hide L.Key;
    assert L.NulFree(q.holderAgent);
    hide LI.Inv, L.NulFree;
    assert AccountOf(v, q.holderAgent, q.seriesId) == L.AccountAt(l, L.Key(q.holderAgent, q.seriesId));
  }

  // The ledger after the account change of an ending.
  function Settled(l: L.State, id: string, outcome: L.Status): L.State
    requires id in l.redemptions
  {
    var q := l.redemptions[id].request;
    Changed(l, L.Key(q.holderAgent, q.seriesId), if outcome == L.Retired then -q.amount else 0, -q.amount, 0)
  }

  lemma SettleWrites(v: DB, t: Target, id: string, r: L.Redemption, a: L.Account, outcome: L.Status)
    requires Finds(v, t, id, r) && AccountIn(v, r.request.holderAgent, r.request.seriesId) == Some(a)
    requires Exec(Settle(t, outcome), v).Some?
    ensures var spent := if outcome == L.Retired then r.request.amount else 0;
            var b := L.Account(a.balance - spent, a.locked - r.request.amount, a.sequence);
            v + Exec(Settle(t, outcome), v).value == v[AccountK(r.request.holderAgent, r.request.seriesId) := AccountR(b)]
  {
  }

  lemma AccountWriteFinds(v: DB, h: string, s: string, a: L.Account, t: Target, id: string, r: L.Redemption)
    requires Finds(v, t, id, r)
    ensures var u := v[AccountK(h, s) := AccountR(a)]; Finds(u, t, id, r) && SameJobRows(v, u)
  {
  }

  lemma SettleAgrees(v: DB, l: L.State, t: Target, id: string, outcome: L.Status)
    requires LedgerAgrees(v, l) && LI.Inv(l) && L.IsLocked(l, id) && Finds(v, t, id, l.redemptions[id])
    requires Exec(Settle(t, outcome), v).Some?
    ensures var u := v + Exec(Settle(t, outcome), v).value;
            LedgerAgrees(u, Settled(l, id, outcome)) && Finds(u, t, id, l.redemptions[id]) && SameJobRows(v, u)
  {
    hide LedgerAgrees, LI.Inv, L.Key, L.NulFree, Exec, Finds, SameJobRows;
    var q := l.redemptions[id].request;
    HolderRowExists(v, l, id);
    var a := L.AccountAt(l, L.Key(q.holderAgent, q.seriesId));
    var b := L.Account(a.balance - (if outcome == L.Retired then q.amount else 0), a.locked - q.amount, a.sequence);
    SettleWrites(v, t, id, l.redemptions[id], a, outcome);
    PutAccount(v, l, q.holderAgent, q.seriesId, b);
    AccountWriteFinds(v, q.holderAgent, q.seriesId, b, t, id, l.redemptions[id]);
  }

  lemma StatusAgrees(v: DB, l: L.State, t: Target, id: string, r: L.Redemption, status: L.Status)
    requires LedgerAgrees(v, l) && Finds(v, t, id, r)
    ensures Exec(SetStatus(t, status), v).Some?
    ensures var u := v + Exec(SetStatus(t, status), v).value;
            LedgerAgrees(u, l.(redemptions := l.redemptions[id := r.(status := status)])) && Finds(u, t, id, r.(status := status)) && SameJobRows(v, u)
  {
    hide LedgerAgrees;
    PutRedemption(v, l, id, r.(status := status));
    assert v + Exec(SetStatus(t, status), v).value == v[RedemptionK(id) := RedemptionR(r.(status := status))];
  }

  lemma RetirementAgrees(v: DB, l: L.State, t: Target, id: string, r: L.Redemption)
    requires LedgerAgrees(v, l) && Finds(v, t, id, r) && Exec(InsertRetirement(t), v).Some?
    ensures var u := v + Exec(InsertRetirement(t), v).value;
            LedgerAgrees(u, l.(retired := l.retired[r.request.seriesId := L.RetiredTotal(l, r.request.seriesId) + r.request.amount])) && SameJobRows(v, u)
  {
    hide LedgerAgrees;
    PutRetirement(v, l, id, r.request.seriesId, r.request.amount);
    assert v + Exec(InsertRetirement(t), v).value == v[RetirementK(id) := ProofR(r.request.seriesId, r.request.amount)];
  }

  lemma SameJobRowsTrans(u: DB, v: DB, w: DB)
    requires SameJobRows(u, v) && SameJobRows(v, w)
    ensures SameJobRows(u, w)
  {
  }

  // The three statements of a retirement do what retire does.
  lemma RetireEnds(v: DB, l: L.State, t: Target, id: string) returns (u: DB)
    requires LedgerAgrees(v, l) && LI.Inv(l) && L.IsLocked(l, id) && Finds(v, t, id, l.redemptions[id])
    requires ExecAll(RetireEffects(t), v).Some?
    ensures ExecAll(RetireEffects(t), v) == Some(u) && LedgerAgrees(u, L.End(l, id, L.Retired)) && SameJobRows(v, u)
  {
    hide LedgerAgrees, LI.Inv, Exec, L.Key, Finds, SameJobRows;
    var s0, s1, s2 := Settle(t, L.Retired), SetStatus(t, L.Retired), InsertRetirement(t);
    assert RetireEffects(t) == [s0] + ([s1] + ([s2] + []));
    var r := l.redemptions[id];
    var v1 := First(s0, [s1] + ([s2] + []), v);
    SettleAgrees(v, l, t, id, L.Retired);
    var v2 := First(s1, [s2] + [], v1);
    StatusAgrees(v1, Settled(l, id, L.Retired), t, id, r, L.Retired);
    u := First(s2, [], v2);
    var m := Settled(l, id, L.Retired).(redemptions := l.redemptions[id := r.(status := L.Retired)]);
    RetirementAgrees(v2, m, t, id, r.(status := L.Retired));
    SameJobRowsTrans(v, v1, v2);
    SameJobRowsTrans(v, v2, u);
    EndsAs(u, l, id, L.Retired, m.(retired := m.retired[r.request.seriesId := L.RetiredTotal(m, r.request.seriesId) + r.request.amount]));
  }

  lemma RefundEnds(v: DB, l: L.State, t: Target, id: string) returns (u: DB)
    requires LedgerAgrees(v, l) && LI.Inv(l) && L.IsLocked(l, id) && Finds(v, t, id, l.redemptions[id])
    requires ExecAll(RefundEffects(t), v).Some?
    ensures ExecAll(RefundEffects(t), v) == Some(u) && LedgerAgrees(u, L.End(l, id, L.Refunded)) && SameJobRows(v, u)
  {
    hide LedgerAgrees, LI.Inv, Exec, L.Key, Finds, SameJobRows;
    var s0, s1 := Settle(t, L.Refunded), SetStatus(t, L.Refunded);
    assert RefundEffects(t) == [s0] + ([s1] + []);
    var r := l.redemptions[id];
    var v1 := First(s0, [s1] + [], v);
    SettleAgrees(v, l, t, id, L.Refunded);
    u := First(s1, [], v1);
    StatusAgrees(v1, Settled(l, id, L.Refunded), t, id, r, L.Refunded);
    SameJobRowsTrans(v, v1, u);
    EndsAs(u, l, id, L.Refunded, Settled(l, id, L.Refunded).(redemptions := l.redemptions[id := r.(status := L.Refunded)]));
  }

  lemma EndsAs(u: DB, l: L.State, id: string, outcome: L.Status, m: L.State)
    requires id in l.redemptions && LedgerAgrees(u, m)
    requires var r := l.redemptions[id].request;
             m == Settled(l, id, outcome).(redemptions := l.redemptions[id := L.Redemption(r, outcome)],
                                           retired := if outcome == L.Retired then l.retired[r.seriesId := L.RetiredTotal(l, r.seriesId) + r.amount] else l.retired)
    ensures LedgerAgrees(u, L.End(l, id, outcome))
  {
    hide LedgerAgrees, L.Key;
    var r := l.redemptions[id].request;
    LogAgrees(u, m, L.EndingEntry(L.Record(id, r.seriesId, r.amount, outcome)));
  }

  // ---------- Allocation ----------

  lemma UpsertAgrees(v: DB, l: L.State, h: string, s: string, credit: int)
    requires LedgerAgrees(v, l) && L.NulFree(h) && Exec(UpsertBalance(h, s, credit), v).Some?
    ensures LedgerAgrees(v + Exec(UpsertBalance(h, s, credit), v).value, Changed(l, L.Key(h, s), credit, 0, 0))
  {
    hide LedgerAgrees, L.Key, L.NulFree;
    AbsentIsZero(v, l, h, s);
    var a := L.AccountAt(l, L.Key(h, s));
    var b := a.(balance := a.balance + credit);
    PutAccount(v, l, h, s, b);
    assert v + map[AccountK(h, s) := AccountR(b)] == v[AccountK(h, s) := AccountR(b)];
  }

  lemma FreshProof(v: DB, l: L.State, p: string, recipient: string)
    requires LedgerAgrees(v, l) && ProofK(p) !in v && AgentK(recipient) in v
    ensures p !in l.consumedProofs && recipient in l.agents
  {
  }

  lemma ItemCredits(v: DB, l: L.State, series: string, i: L.Allocation) returns (u: DB)
    requires LedgerAgrees(v, l) && LI.NulFreeAgents(l) && ExecAll(AllocateItem(series, i), v).Some?
    ensures ExecAll(AllocateItem(series, i), v) == Some(u)
    ensures i.recipient in l.agents && SafeInteger(i.amount) && 0 <= i.amount && i.proofId !in l.consumedProofs
    ensures LedgerAgrees(u, L.CreditOne(l, series, i))
  {
    hide LedgerAgrees, L.Key, L.NulFree, ExecAll;
    var s0, s1 := Guard(SafeInteger(i.amount) && 0 <= i.amount), HasAgent(i.recipient);
    var s2, s3 := InsertProof(i.proofId, series, i.amount), UpsertBalance(i.recipient, series, i.amount);
    assert AllocateItem(series, i) == [s0] + ([s1] + ([s2] + ([s3] + [])));
    var v1 := First(s0, [s1] + ([s2] + ([s3] + [])), v);
    var v2 := First(s1, [s2] + ([s3] + []), v1);
    var v3 := First(s2, [s3] + [], v2);
    FreshProof(v2, l, i.proofId, i.recipient);
    PutProof(v2, l, i.proofId, series, i.amount);
    assert v3 == v2[ProofK(i.proofId) := ProofR(series, i.amount)];
    hide Exec;
    u := First(s3, [], v3);
    Nothing(u);
    UpsertAgrees(v3, l.(issued := l.issued[series := L.IssuedTotal(l, series) + i.amount], consumedProofs := l.consumedProofs + {i.proofId}),
                 i.recipient, series, i.amount);
  }

  lemma Nothing(v: DB)
    ensures ExecAll([], v) == Some(v)
  {
  }

  ghost predicate ItemsFresh(l: L.State, items: seq<L.Allocation>) {
    forall id <- L.ProofIds(items) :: id !in l.consumedProofs
  }

  lemma FreshBoth(l: L.State, series: string, items: seq<L.Allocation>)
    requires items != [] && items[0].proofId !in l.consumedProofs && ItemsFresh(L.CreditOne(l, series, items[0]), items[1..])
    ensures ItemsFresh(l, items)
  {
    hide L.Key;
    assert L.ProofIds(items) == [items[0].proofId] + L.ProofIds(items[1..]);
  }

  lemma FirstGood(l: L.State, series: string, items: seq<L.Allocation>)
    requires items != [] && items[0].recipient in l.agents && SafeInteger(items[0].amount) && 0 <= items[0].amount
    requires L.FirstBadItem(L.CreditOne(l, series, items[0]), items[1..]) == None
    ensures L.FirstBadItem(l, items) == None
  {
    LI.SameAgentsSameItems(l, L.CreditOne(l, series, items[0]), items[1..]);
  }

  lemma CreditedAgents(l: L.State, series: string, i: L.Allocation)
    requires LI.NulFreeAgents(l)
    ensures LI.NulFreeAgents(L.CreditOne(l, series, i))
  {
  }

  lemma {:induction false} ItemsCredit(v: DB, l: L.State, series: string, items: seq<L.Allocation>)
    requires LedgerAgrees(v, l) && LI.NulFreeAgents(l) && ExecAll(AllocateItems(series, items), v).Some?
    ensures L.FirstBadItem(l, items) == None && ItemsFresh(l, items)
    ensures LedgerAgrees(ExecAll(AllocateItems(series, items), v).value, L.CreditAll(l, series, items))
    decreases |items|
  {
    hide LedgerAgrees, LI.NulFreeAgents, AllocateItem, ExecAll, L.CreditOne;
    if items == [] {
      Nothing(v);
    } else {
      hide ItemsFresh, L.FirstBadItem;
      var u := Halves(AllocateItem(series, items[0]), AllocateItems(series, items[1..]), v);
      var u' := ItemCredits(v, l, series, items[0]);
      CreditedAgents(l, series, items[0]);
      ItemsCredit(u, L.CreditOne(l, series, items[0]), series, items[1..]);
      FreshBoth(l, series, items);
      FirstGood(l, series, items);
    }
  }

  // A committed allocation is an accepted registry allocation.
  lemma AllocateRefines(db: DB, db': DB, l: L.State, series: string, items: seq<L.Allocation>)
    requires LedgerAgrees(db, l) && LI.AgentsOk(l)
    requires ExecAll([Guard(L.Distinct(L.ProofIds(items)))] + AllocateItems(series, items), db) == Some(db')
    ensures L.Allocate(l, series, items).result.Ok? && LedgerAgrees(db', L.Allocate(l, series, items).state)
  {
    hide LedgerAgrees;
    var v1 := First(Guard(L.Distinct(L.ProofIds(items))), AllocateItems(series, items), db);
    ItemsCredit(db, l, series, items);
    LogAgrees(db', L.CreditAll(l, series, items), L.AllocationEntry(series, L.ProofIds(items)));
  }

  // ---------- Job and provider rows ----------

  lemma JobRowReplaced(v: DB, s: J.State, id: string, j: J.Job)
    requires JobsAgree(v, s) && id in s.jobs && j.redemptionId == s.jobs[id].redemptionId
    ensures JobsAgree(v[JobK(id) := JobR(j)], s.(jobs := s.jobs[id := j]))
  {
    var u := v[JobK(id) := JobR(j)];
    var t := s.(jobs := s.jobs[id := j]);
    forall x ensures JobIn(u, x) == Lookup(t.jobs, x) { assert JobIn(v, x) == Lookup(s.jobs, x); }
    forall r ensures J.HasRedemption(t.jobs, r) <==> J.HasRedemption(s.jobs, r) {
      G.SameRedemptions(s.jobs, id, j, r);
      assert t.jobs[id := s.jobs[id]] == s.jobs;
      G.SameRedemptions(t.jobs, id, s.jobs[id], r);
    }
    hide J.HasRedemption;
  }

  lemma CapacityRowsKept(v: DB, s: J.State, id: string, j: J.Job)
    requires CapacityAgrees(v, s)
    ensures CapacityAgrees(v[JobK(id) := JobR(j)], s.(jobs := s.jobs[id := j]))
  {
    var u := v[JobK(id) := JobR(j)];
    forall c ensures CapacityIn(u, c) == CapacityIn(v, c) && ProviderIn(u, c) == ProviderIn(v, c) { }
  }

  lemma PutJob(v: DB, g: G.State, id: string, j: J.Job)
    requires Agrees(v, g) && id in g.jobs.jobs && j.redemptionId == g.jobs.jobs[id].redemptionId
    ensures Agrees(v[JobK(id) := JobR(j)], g.(jobs := g.jobs.(jobs := g.jobs.jobs[id := j])))
  {
    LedgerFrame(v, v[JobK(id) := JobR(j)], g.ledger);
    hide LedgerAgrees, JobsAgree, CapacityAgrees;
    JobRowReplaced(v, g.jobs, id, j);
    CapacityRowsKept(v, g.jobs, id, j);
  }

  lemma AddedRedemption(jobs: map<string, J.Job>, id: string, j: J.Job, r: string)
    requires id !in jobs
    ensures J.HasRedemption(jobs[id := j], r) <==> J.HasRedemption(jobs, r) || r == j.redemptionId
  {
    if J.HasRedemption(jobs, r) {
      var k :| k in jobs && jobs[k].redemptionId == r;
      assert k in jobs[id := j] && jobs[id := j][k].redemptionId == r;
    }
    assert jobs[id := j][id].redemptionId == j.redemptionId;
  }

  lemma AddJobRows(v: DB, s: J.State, id: string, j: J.Job)
    requires JobsAgree(v, s) && CapacityAgrees(v, s) && id !in s.jobs
    ensures var u := v + map[JobK(id) := JobR(j), JobRedemptionK(j.redemptionId) := MarkR];
            JobsAgree(u, s.(jobs := s.jobs[id := j])) && CapacityAgrees(u, s)
  {
    var u := v + map[JobK(id) := JobR(j), JobRedemptionK(j.redemptionId) := MarkR];
    hide J.HasRedemption;
    forall x ensures JobIn(u, x) == Lookup(s.jobs[id := j], x) && (JobK(x) in u ==> JobIn(u, x).Some?) { assert JobIn(v, x) == Lookup(s.jobs, x); }
    forall r ensures JobRedemptionK(r) in u <==> J.HasRedemption(s.jobs[id := j], r) {
      AddedRedemption(s.jobs, id, j, r);
      assert JobRedemptionK(r) in v <==> J.HasRedemption(s.jobs, r);
    }
    forall c ensures CapacityIn(u, c) == CapacityIn(v, c) && ProviderIn(u, c) == ProviderIn(v, c) && (CommitmentK(c) in u <==> CommitmentK(c) in v) { }
  }

  lemma AddJob(v: DB, g: G.State, id: string, j: J.Job)
    requires Agrees(v, g) && id !in g.jobs.jobs
    ensures Agrees(v + map[JobK(id) := JobR(j), JobRedemptionK(j.redemptionId) := MarkR], g.(jobs := g.jobs.(jobs := g.jobs.jobs[id := j])))
  {
    hide LedgerAgrees, JobsAgree;
    LedgerFrame(v, v + map[JobK(id) := JobR(j), JobRedemptionK(j.redemptionId) := MarkR], g.ledger);
    AddJobRows(v, g.jobs, id, j);
  }

  lemma PutCapacity(v: DB, g: G.State, c: string, cap: J.Capacity)
    requires Agrees(v, g)
    ensures Agrees(v[CommitmentK(c) := CommitmentR(cap)], g.(jobs := g.jobs.(commitments := g.jobs.commitments[c := cap])))
  {
    var u := v[CommitmentK(c) := CommitmentR(cap)];
    LedgerFrame(v, u, g.ledger);
    hide LedgerAgrees, J.HasRedemption;
    forall x ensures JobIn(u, x) == JobIn(v, x) && ProviderIn(u, x) == ProviderIn(v, x) { }
    forall x ensures CapacityIn(u, x) == Lookup(g.jobs.commitments[c := cap], x) { assert CapacityIn(v, x) == Lookup(g.jobs.commitments, x); }
  }

  lemma PutProvider(v: DB, g: G.State, p: string, state: J.Provider)
    requires Agrees(v, g)
    ensures Agrees(v[ProviderK(p) := ProviderR(state)], g.(jobs := g.jobs.(providers := g.jobs.providers[p := state])))
  {
    var u := v[ProviderK(p) := ProviderR(state)];
    LedgerFrame(v, u, g.ledger);
    hide LedgerAgrees, J.HasRedemption;
    forall x ensures JobIn(u, x) == JobIn(v, x) && CapacityIn(u, x) == CapacityIn(v, x) { }
    forall x ensures ProviderIn(u, x) == Lookup(g.jobs.providers[p := state], x) { assert ProviderIn(v, x) == Lookup(g.jobs.providers, x); }
  }

  lemma LedgerStep(v: DB, u: DB, g: G.State, m: L.State)
    requires Agrees(v, g) && SameJobRows(v, u) && LedgerAgrees(u, m)
    ensures Agrees(u, g.(ledger := m))
  {
    hide LedgerAgrees;
    JobsFrame(v, u, g.jobs);
  }

  // What the job, commitment and provider rows read as.
  lemma RowsRead(v: DB, g: G.State, j: string, c: string, p: string, r: string)
    requires Agrees(v, g)
    ensures JobIn(v, j) == Lookup(g.jobs.jobs, j) && (JobK(j) in v <==> j in g.jobs.jobs)
    ensures CapacityIn(v, c) == Lookup(g.jobs.commitments, c) && (CommitmentK(c) in v <==> c in g.jobs.commitments)
    ensures ProviderIn(v, p) == Lookup(g.jobs.providers, p)
    ensures RedemptionIn(v, r) == Lookup(g.ledger.redemptions, r)
    ensures JobRedemptionK(r) in v <==> J.HasRedemption(g.jobs.jobs, r)
  {
    hide J.HasRedemption, AccountsAgree, TotalsAgree, RequestsAgree, AgentsAgree;
  }

  // ---------- Job transactions ----------

  lemma InsertRefines(db: DB, db': DB, g: G.State, q: L.LockRequest, j: string, maxAttempts: int)
    requires Agrees(db, g) && q in g.prechecked && ExecAll([InsertJob(q, j, maxAttempts)], db) == Some(db')
    ensures G.Insert(g, q, j, maxAttempts).1 && Agrees(db', G.Insert(g, q, j, maxAttempts).0)
  {
    hide Agrees;
    assert [InsertJob(q, j, maxAttempts)] == [InsertJob(q, j, maxAttempts)] + [];
    var v1 := First(InsertJob(q, j, maxAttempts), [], db);
    RowsRead(db, g, j, "", "", q.redemptionId);
    AddJob(db, g, j, J.NewJob(G.InputOf(q, j, maxAttempts)));
  }

  lemma PickReads(v: DB, g: G.State, p: string, c: string, j: string, now: int)
    requires Agrees(v, g) && Exec(PickJob(p, c, j, now), v).Some?
    ensures J.Claimable(g.jobs, p, c, j, now) && Exec(PickJob(p, c, j, now), v).value == map[]
    ensures c in g.jobs.commitments && j in g.jobs.jobs
  {
    hide Agrees;
    RowsRead(v, g, j, c, p, "");
  }

  lemma ReserveAgrees(v: DB, g: G.State, c: string, j: string)
    requires Agrees(v, g) && c in g.jobs.commitments && j in g.jobs.jobs && Exec(Reserve(c, j), v).Some?
    ensures Agrees(v + Exec(Reserve(c, j), v).value, g.(jobs := J.AddRemaining(g.jobs, c, -g.jobs.jobs[j].amount)))
  {
    hide Agrees;
    RowsRead(v, g, j, c, "", "");
    var cap := g.jobs.commitments[c].(remaining := g.jobs.commitments[c].remaining - g.jobs.jobs[j].amount);
    PutCapacity(v, g, c, cap);
    assert v + map[CommitmentK(c) := CommitmentR(cap)] == v[CommitmentK(c) := CommitmentR(cap)];
  }

  lemma StartAgrees(v: DB, g: G.State, j: string, p: string, c: string, lease: int)
    requires Agrees(v, g) && j in g.jobs.jobs && Exec(StartJob(j, p, c, lease), v).Some?
    ensures Agrees(v + Exec(StartJob(j, p, c, lease), v).value, g.(jobs := g.jobs.(jobs := g.jobs.jobs[j := J.Claimed(g.jobs.jobs[j], p, c, lease)])))
  {
    hide Agrees;
    RowsRead(v, g, j, "", "", "");
    var job := J.Claimed(g.jobs.jobs[j], p, c, lease);
    PutJob(v, g, j, job);
    assert v + map[JobK(j) := JobR(job)] == v[JobK(j) := JobR(job)];
  }

  // The rows a claim reads and writes, statement by statement.
  lemma PickRows(v: DB, p: string, c: string, j: string, now: int)
    requires Exec(PickJob(p, c, j, now), v).Some?
    ensures Exec(PickJob(p, c, j, now), v).value == map[] && JobIn(v, j).Some? && CapacityIn(v, c).Some?
    ensures var (job, cap) := (JobIn(v, j).value, CapacityIn(v, c).value);
      && job.status == J.Queued && cap.commitment.providerId == p && cap.commitment.availableFrom <= now < cap.commitment.availableUntil
      && cap.commitment.resourceClass in job.resourceClasses && job.amount <= cap.remaining
  {
  }

  lemma ReserveRows(v: DB, c: string, j: string)
    requires Exec(Reserve(c, j), v).Some?
    ensures JobIn(v, j).Some? && CapacityIn(v, c).Some?
    ensures var u := v + Exec(Reserve(c, j), v).value;
      var (job, cap) := (JobIn(v, j).value, CapacityIn(v, c).value);
      JobIn(u, j) == Some(job) && CapacityIn(u, c) == Some(J.Capacity(cap.commitment, cap.recognised, cap.remaining - job.amount))
  {
  }

  lemma StartRows(v: DB, j: string, p: string, c: string, lease: int)
    requires Exec(StartJob(j, p, c, lease), v).Some?
    ensures JobIn(v, j).Some?
    ensures var u := v + Exec(StartJob(j, p, c, lease), v).value;
      var job := JobIn(v, j).value;
      && JobIn(u, j) == Some(job.(status := J.Running, providerId := Some(p), commitmentId := Some(c), attempts := job.attempts + 1, leaseExpiresAt := Some(lease)))
      && CapacityIn(u, c) == CapacityIn(v, c)
  {
  }

  lemma ClaimRefines(db: DB, db': DB, g: G.State, p: string, c: string, j: string, now: int, leaseMs: int)
    requires Agrees(db, g) && ExecAll([PickJob(p, c, j, now), Reserve(c, j), StartJob(j, p, c, now + leaseMs)], db) == Some(db')
    ensures G.Claim(g, p, c, j, now, leaseMs).1 && Agrees(db', G.Claim(g, p, c, j, now, leaseMs).0)
    ensures JobIn(db, j).Some? && CapacityIn(db, c).Some?
    ensures var (job, cap) := (JobIn(db, j).value, CapacityIn(db, c).value);
      && job.status == J.Queued && cap.commitment.providerId == p && cap.commitment.availableFrom <= now < cap.commitment.availableUntil
      && cap.commitment.resourceClass in job.resourceClasses && job.amount <= cap.remaining
      && JobIn(db', j) == Some(job.(status := J.Running, providerId := Some(p), commitmentId := Some(c), attempts := job.attempts + 1, leaseExpiresAt := Some(now + leaseMs)))
      && CapacityIn(db', c) == Some(J.Capacity(cap.commitment, cap.recognised, cap.remaining - job.amount))
  {
    hide Agrees, ExecAll, Exec, J.Claimable, JobIn, CapacityIn;
    var s0, s1, s2 := PickJob(p, c, j, now), Reserve(c, j), StartJob(j, p, c, now + leaseMs);
    assert [s0, s1, s2] == [s0] + ([s1] + ([s2] + []));
    var v1 := First(s0, [s1] + ([s2] + []), db);
    PickReads(db, g, p, c, j, now);
    PickRows(db, p, c, j, now);
    var v2 := First(s1, [s2] + [], v1);
    ReserveAgrees(db, g, c, j);
    ReserveRows(db, c, j);
    var v3 := First(s2, [], v2);
    Nothing(v3);
    StartRows(v2, j, p, c, now + leaseMs);
    StartAgrees(v2, g.(jobs := J.AddRemaining(g.jobs, c, -g.jobs.jobs[j].amount)), j, p, c, now + leaseMs);
  }

  // The job is running and its redemption still locked.
  lemma CompleteStarts(db: DB, g: G.State, j: string, p: string)
    requires Agrees(db, g) && ExecAll([LockRunning(j, p), LockRedemption(OfJob(j))], db).Some?
    ensures ExecAll([LockRunning(j, p), LockRedemption(OfJob(j))], db) == Some(db)
    ensures J.RunningFor(g.jobs, j, p)
    ensures var r := g.jobs.jobs[j].redemptionId; L.IsLocked(g.ledger, r) && Finds(db, OfJob(j), r, g.ledger.redemptions[r])
  {
    hide Agrees;
    var s0, s1 := LockRunning(j, p), LockRedemption(OfJob(j));
    assert [s0, s1] == [s0] + ([s1] + []);
    var v1 := First(s0, [s1] + [], db);
    RowsRead(db, g, j, "", "", "");
    RowsRead(db, g, j, "", "", g.jobs.jobs[j].redemptionId);
    var v2 := First(s1, [], v1);
  }

  lemma CompleteRefines(db: DB, db': DB, g: G.State, j: string, p: string)
    requires Agrees(db, g) && LI.Inv(g.ledger)
    requires ExecAll([LockRunning(j, p), LockRedemption(OfJob(j))] + (RetireEffects(OfJob(j)) + [CompleteJob(j)]), db) == Some(db')
    ensures G.Complete(g, j, p).1 && Agrees(db', G.Complete(g, j, p).0)
  {
    hide Agrees, LI.Inv, LedgerAgrees, ExecAll, Finds, SameJobRows, RetireEffects, L.End;
    var t := OfJob(j);
    var v1 := Halves([LockRunning(j, p), LockRedemption(t)], RetireEffects(t) + [CompleteJob(j)], db);
    CompleteStarts(db, g, j, p);
    var r := g.jobs.jobs[j].redemptionId;
    var v2 := Halves(RetireEffects(t), [CompleteJob(j)], db);
    AgreesLedger(db, g);
    var u := RetireEnds(db, g.ledger, t, r);
    var h := g.(ledger := L.End(g.ledger, r, L.Retired));
    LedgerStep(db, v2, g, h.ledger);
    assert [CompleteJob(j)] == [CompleteJob(j)] + [];
    var v3 := First(CompleteJob(j), [], v2);
    Nothing(v3);
    RowsRead(v2, h, j, "", "", "");
    var job := g.jobs.jobs[j].(status := J.Completed, leaseExpiresAt := None);
    PutJob(v2, h, j, job);
    assert v3 == v2[JobK(j) := JobR(job)];
  }

  lemma AgreesLedger(v: DB, g: G.State)
    requires Agrees(v, g)
    ensures LedgerAgrees(v, g.ledger)
  {
  }

  lemma RunningReads(v: DB, g: G.State, j: string, p: string)
    requires Agrees(v, g) && J.Inv(g.jobs) && Exec(LockRunning(j, p), v).Some?
    ensures Exec(LockRunning(j, p), v).value == map[]
    ensures J.RunningFor(g.jobs, j, p) && g.jobs.jobs[j].commitmentId.Some? && g.jobs.jobs[j].commitmentId.value in g.jobs.commitments
  {
    hide Agrees;
    RowsRead(v, g, j, "", "", "");
    assert J.JobOk(g.jobs, j);
  }

  lemma ReturnAgrees(v: DB, g: G.State, j: string)
    requires Agrees(v, g) && j in g.jobs.jobs && g.jobs.jobs[j].commitmentId.Some? && g.jobs.jobs[j].commitmentId.value in g.jobs.commitments
    requires Exec(ReturnCapacity(j), v).Some?
    ensures Agrees(v + Exec(ReturnCapacity(j), v).value, g.(jobs := J.AddRemaining(g.jobs, g.jobs.jobs[j].commitmentId.value, g.jobs.jobs[j].amount)))
  {
    hide Agrees;
    var job := g.jobs.jobs[j];
    var c := job.commitmentId.value;
    RowsRead(v, g, j, c, "", "");
    var cap := g.jobs.commitments[c].(remaining := g.jobs.commitments[c].remaining + job.amount);
    PutCapacity(v, g, c, cap);
    assert v + map[CommitmentK(c) := CommitmentR(cap)] == v[CommitmentK(c) := CommitmentR(cap)];
  }

  lemma FailedTargetReads(v: DB, g: G.State, j: string, retryable: bool)
    requires Agrees(v, g) && j in g.jobs.jobs && Exec(LockRedemption(OfFailedJob(j, retryable)), v).Some?
    ensures Exec(LockRedemption(OfFailedJob(j, retryable)), v).value == map[]
    ensures J.Retries(g.jobs.jobs[j], retryable) ==> Resolve(OfFailedJob(j, retryable), v) == None
    ensures !J.Retries(g.jobs.jobs[j], retryable) ==>
              var r := g.jobs.jobs[j].redemptionId; L.IsLocked(g.ledger, r) && Finds(v, OfFailedJob(j, retryable), r, g.ledger.redemptions[r])
  {
    hide Agrees;
    RowsRead(v, g, j, "", "", g.jobs.jobs[j].redemptionId);
  }

  // The job is running; its capacity is back; and if it is not retried its redemption is locked.
  lemma FailStarts(db: DB, g: G.State, j: string, p: string, retryable: bool) returns (v: DB)
    requires Agrees(db, g) && J.Inv(g.jobs)
    requires ExecAll([LockRunning(j, p), ReturnCapacity(j), LockRedemption(OfFailedJob(j, retryable))], db).Some?
    ensures ExecAll([LockRunning(j, p), ReturnCapacity(j), LockRedemption(OfFailedJob(j, retryable))], db) == Some(v)
    ensures J.RunningFor(g.jobs, j, p) && g.jobs.jobs[j].commitmentId.Some? && g.jobs.jobs[j].commitmentId.value in g.jobs.commitments
    ensures Agrees(v, g.(jobs := J.AddRemaining(g.jobs, g.jobs.jobs[j].commitmentId.value, g.jobs.jobs[j].amount)))
    ensures J.Retries(g.jobs.jobs[j], retryable) ==> Resolve(OfFailedJob(j, retryable), v) == None
    ensures !J.Retries(g.jobs.jobs[j], retryable) ==>
              var r := g.jobs.jobs[j].redemptionId; L.IsLocked(g.ledger, r) && Finds(v, OfFailedJob(j, retryable), r, g.ledger.redemptions[r])
  {
    hide Agrees, ExecAll, Exec, J.Inv, Finds;
    var s0, s1, s2 := LockRunning(j, p), ReturnCapacity(j), LockRedemption(OfFailedJob(j, retryable));
    assert [s0, s1, s2] == [s0] + ([s1] + ([s2] + []));
    var v1 := First(s0, [s1] + ([s2] + []), db);
    RunningReads(db, g, j, p);
    v := First(s1, [s2] + [], v1);
    ReturnAgrees(db, g, j);
    var h := g.(jobs := J.AddRemaining(g.jobs, g.jobs.jobs[j].commitmentId.value, g.jobs.jobs[j].amount));
    var v3 := First(s2, [], v);
    FailedTargetReads(v, h, j, retryable);
    Nothing(v3);
  }

  lemma FailEnds(v: DB, db': DB, h: G.State, j: string, retryable: bool)
    requires Agrees(v, h) && j in h.jobs.jobs && ExecAll([FailJob(j, retryable)], v) == Some(db')
    ensures Agrees(db', h.(jobs := h.jobs.(jobs := h.jobs.jobs[j := J.Failed(h.jobs.jobs[j], retryable)])))
  {
    hide Agrees, ExecAll;
    assert [FailJob(j, retryable)] == [FailJob(j, retryable)] + [];
    var u := First(FailJob(j, retryable), [], v);
    Nothing(u);
    RowsRead(v, h, j, "", "", "");
    PutJob(v, h, j, J.Failed(h.jobs.jobs[j], retryable));
    assert u == v[JobK(j) := JobR(J.Failed(h.jobs.jobs[j], retryable))];
  }

  // A retried job leaves its redemption alone.
  lemma RetrySkips(v: DB, t: Target)
    requires Resolve(t, v) == None && ExecAll(RefundEffects(t), v).Some?
    ensures ExecAll(RefundEffects(t), v) == Some(v)
  {
    var s0, s1 := Settle(t, L.Refunded), SetStatus(t, L.Refunded);
    assert RefundEffects(t) == [s0] + ([s1] + []);
    var v1 := First(s0, [s1] + [], v);
    var v2 := First(s1, [], v1);
  }

  lemma FailRefines(db: DB, db': DB, g: G.State, j: string, p: string, retryable: bool)
    requires Agrees(db, g) && LI.Inv(g.ledger) && J.Inv(g.jobs)
    requires var t := OfFailedJob(j, retryable);
             ExecAll([LockRunning(j, p), ReturnCapacity(j), LockRedemption(t)] + (RefundEffects(t) + [FailJob(j, retryable)]), db) == Some(db')
    ensures G.Fail(g, j, p, retryable).1 && Agrees(db', G.Fail(g, j, p, retryable).0)
  {
    hide Agrees, LI.Inv, J.Inv, LedgerAgrees, ExecAll, Finds, SameJobRows, RefundEffects, L.End;
    var t := OfFailedJob(j, retryable);
    var v1 := Halves([LockRunning(j, p), ReturnCapacity(j), LockRedemption(t)], RefundEffects(t) + [FailJob(j, retryable)], db);
    var u1 := FailStarts(db, g, j, p, retryable);
    var r := g.jobs.jobs[j].redemptionId;
    var h := g.(jobs := J.AddRemaining(g.jobs, g.jobs.jobs[j].commitmentId.value, g.jobs.jobs[j].amount));
    var v2 := Halves(RefundEffects(t), [FailJob(j, retryable)], v1);
    if J.Retries(g.jobs.jobs[j], retryable) {
      RetrySkips(v1, t);
      FailEnds(v1, db', h, j, retryable);
    } else {
      AgreesLedger(v1, h);
      var u2 := RefundEnds(v1, g.ledger, t, r);
      LedgerStep(v1, v2, h, L.End(g.ledger, r, L.Refunded));
      FailEnds(v2, db', h.(ledger := L.End(g.ledger, r, L.Refunded)), j, retryable);
    }
  }

  lemma UpsertAgreesProvider(v: DB, g: G.State, p: string, key: string)
    requires Agrees(v, g) && Exec(UpsertProvider(p, key), v).Some?
    ensures p in g.jobs.providers ==> g.jobs.providers[p].publicKey == key
    ensures var state := J.Provider(key, p !in g.jobs.providers || g.jobs.providers[p].active);
            Agrees(v + Exec(UpsertProvider(p, key), v).value, g.(jobs := g.jobs.(providers := g.jobs.providers[p := state])))
  {
    hide Agrees;
    RowsRead(v, g, "", "", p, "");
    var state := J.Provider(key, p !in g.jobs.providers || g.jobs.providers[p].active);
    PutProvider(v, g, p, state);
    assert v + map[ProviderK(p) := ProviderR(state)] == v[ProviderK(p) := ProviderR(state)];
  }

  lemma CommitmentAgrees(v: DB, g: G.State, c: J.Commitment, recognised: int)
    requires Agrees(v, g) && Exec(InsertCommitment(c, recognised), v).Some?
    ensures c.commitmentId !in g.jobs.commitments && 0 < recognised && c.availableFrom < c.availableUntil
    ensures Agrees(v + Exec(InsertCommitment(c, recognised), v).value,
                   g.(jobs := g.jobs.(commitments := g.jobs.commitments[c.commitmentId := J.Capacity(c, recognised, recognised)])))
  {
    hide Agrees;
    RowsRead(v, g, "", c.commitmentId, "", "");
    var cap := J.Capacity(c, recognised, recognised);
    PutCapacity(v, g, c.commitmentId, cap);
    assert v + map[CommitmentK(c.commitmentId) := CommitmentR(cap)] == v[CommitmentK(c.commitmentId) := CommitmentR(cap)];
  }

  lemma RegisterProviderRefines(db: DB, db': DB, g: G.State, c: J.Commitment, key: string, recognised: int)
    requires Agrees(db, g) && ExecAll([UpsertProvider(c.providerId, key), InsertCommitment(c, recognised)], db) == Some(db')
    ensures G.RegisterProvider(g, c, key, recognised).1 && Agrees(db', G.RegisterProvider(g, c, key, recognised).0)
  {
    hide Agrees, ExecAll, Exec;
    var s0, s1 := UpsertProvider(c.providerId, key), InsertCommitment(c, recognised);
    assert [s0, s1] == [s0] + ([s1] + []);
    var v1 := First(s0, [s1] + [], db);
    UpsertAgreesProvider(db, g, c.providerId, key);
    var state := J.Provider(key, c.providerId !in g.jobs.providers || g.jobs.providers[c.providerId].active);
    var v2 := First(s1, [], v1);
    Nothing(v2);
    CommitmentAgrees(v1, g.(jobs := g.jobs.(providers := g.jobs.providers[c.providerId := state])), c, recognised);
  }

  lemma SetActiveRefines(db: DB, db': DB, g: G.State, p: string, active: bool)
    requires Agrees(db, g) && ExecAll([SetProvider(p, active)], db) == Some(db')
    ensures G.Apply(g, G.OpSetActive(p, active)).1 && Agrees(db', G.Apply(g, G.OpSetActive(p, active)).0)
  {
    hide Agrees, ExecAll;
    assert [SetProvider(p, active)] == [SetProvider(p, active)] + [];
    var v1 := First(SetProvider(p, active), [], db);
    Nothing(v1);
    RowsRead(db, g, "", "", p, "");
    var state := g.jobs.providers[p].(active := active);
    PutProvider(db, g, p, state);
    assert v1 == db[ProviderK(p) := ProviderR(state)];
  }

  // ---------- Ledger transactions ----------

  lemma RegisterAgentRefines(db: DB, db': DB, l: L.State, a: string, key: string)
    requires LedgerAgrees(db, l) && ExecAll([Guard(a != "" && L.NulFree(a)), InsertAgent(a, key)], db) == Some(db')
    ensures L.RegisterAgent(l, a).result.Ok? && LedgerAgrees(db', L.RegisterAgent(l, a).state) && L.NulFree(a)
  {
    var s0, s1 := Guard(a != "" && L.NulFree(a)), InsertAgent(a, key);
    assert [s0, s1] == [s0] + ([s1] + []);
    var v1 := First(s0, [s1] + [], db);
    var v2 := First(s1, [], v1);
    Nothing(v2);
    AgreesAgents(db, l);
    hide LedgerAgrees;
    if AgentK(a) in db {
      assert l.agents + {a} == l.agents;
    } else {
      PutAgent(db, l, a, key);
      assert v2 == db[AgentK(a) := AgentR(key)];
    }
  }

  lemma RetireRefines(db: DB, db': DB, l: L.State, id: string, receipt: L.ExecutionReceipt)
    requires LedgerAgrees(db, l) && LI.Inv(l)
    requires ExecAll([LockRedemption(ById(id)), Guard(receipt.redemptionId == id && receipt.verified)] + RetireEffects(ById(id)), db) == Some(db')
    ensures L.Retire(l, id, receipt).result.Ok? && LedgerAgrees(db', L.Retire(l, id, receipt).state)
  {
    hide LI.Inv, RetireEffects;
    var s0, s1 := LockRedemption(ById(id)), Guard(receipt.redemptionId == id && receipt.verified);
    assert [s0, s1] + RetireEffects(ById(id)) == [s0] + ([s1] + RetireEffects(ById(id)));
    var v1 := First(s0, [s1] + RetireEffects(ById(id)), db);
    var v2 := First(s1, RetireEffects(ById(id)), v1);
    LockedReads(db, l, id);
    hide LedgerAgrees, Finds, L.End;
    var u := RetireEnds(db, l, ById(id), id);
  }

  lemma LockedReads(v: DB, l: L.State, id: string)
    requires LedgerAgrees(v, l) && Exec(LockRedemption(ById(id)), v).Some?
    ensures L.IsLocked(l, id) && Finds(v, ById(id), id, l.redemptions[id])
  {
    assert RedemptionIn(v, id) == Lookup(l.redemptions, id);
  }

  lemma ReleaseRefines(db: DB, db': DB, l: L.State, id: string)
    requires LedgerAgrees(db, l) && LI.Inv(l)
    requires ExecAll([LockRedemption(ById(id))] + RefundEffects(ById(id)), db) == Some(db')
    ensures L.Release(l, id).result.Ok? && LedgerAgrees(db', L.Release(l, id).state)
  {
    hide LI.Inv, RefundEffects;
    var v1 := First(LockRedemption(ById(id)), RefundEffects(ById(id)), db);
    LockedReads(db, l, id);
    hide LedgerAgrees, Finds, L.End;
    var u := RefundEnds(db, l, ById(id), id);
  }

  lemma BalanceRefines(db: DB, l: L.State, a: string, s: string)
    requires LedgerAgrees(db, l)
    ensures LedgerAgrees(db, L.Balance(l, a, s).state)
  {
    hide LedgerAgrees, L.Key;
    ViewAgrees(db, l, L.Balance(l, a, s).state);
  }

  // A ledger transaction touches no job row.
  lemma {:induction false} LedgerProgramJobs(p: seq<Stmt>, v: DB)
    requires ExecAll(p, v).Some?
    requires forall st <- p :: LedgerStmt(st)
    ensures SameJobRows(v, ExecAll(p, v).value)
    decreases |p|
  {
    if p != [] {
      LedgerStmtJobs(p[0], v);
      var u := v + Exec(p[0], v).value;
      LedgerProgramJobs(p[1..], u);
      SameJobRowsTrans(v, u, ExecAll(p, v).value);
    }
  }

  predicate LedgerStmt(st: Stmt) {
    match st
    case UpsertProvider(_, _) => false
    case InsertCommitment(_, _) => false
    case SetProvider(_, _) => false
    case InsertJob(_, _, _) => false
    case PickJob(_, _, _, _) => false
    case Reserve(_, _) => false
    case StartJob(_, _, _, _) => false
    case LockRunning(_, _) => false
    case CompleteJob(_) => false
    case ReturnCapacity(_) => false
    case FailJob(_, _) => false
    case _ => true
  }

  lemma LedgerStmtJobs(st: Stmt, v: DB)
    requires LedgerStmt(st) && Exec(st, v).Some?
    ensures SameJobRows(v, v + Exec(st, v).value)
  {
  }

  lemma {:induction false} ItemsAreLedger(series: string, items: seq<L.Allocation>)
    ensures forall st <- AllocateItems(series, items) :: LedgerStmt(st)
    decreases |items|
  {
    if items != [] { ItemsAreLedger(series, items[1..]); }
  }

  lemma LedgerBody(c: Call)
    requires c.op.OpLedger?
    ensures forall st <- Body(c) :: LedgerStmt(st)
  {
    if c.op.ledgerOp.OpAllocate? { ItemsAreLedger(c.op.ledgerOp.series, c.op.ledgerOp.items); }
  }

  lemma AgentsNulFree(db: DB, l: L.State)
    requires LedgerAgrees(db, l) && LI.Inv(l)
    ensures LI.AgentsOk(l)
  {
  }

  lemma LedgerCallRefines(db: DB, db': DB, l: L.State, c: Call, o: L.Op)
    requires LedgerAgrees(db, l) && LI.Inv(l) && c.op == G.OpLedger(o) && ExecAll(Body(c), db) == Some(db')
    ensures L.Apply(l, o).1 && LedgerAgrees(db', L.Apply(l, o).0)
  {
    AgentsNulFree(db, l);
    hide LedgerAgrees, LI.Inv, LI.AgentsOk, ExecAll, L.NulFree, L.Transfer, L.LockRedemption, L.Allocate, L.Retire, L.Release;
    hide RequestChecks, TransferRows, Accept, TransferUpdates, LockUpdates, RetireEffects, RefundEffects, AllocateItems, L.Distinct, L.Balance, L.RegisterAgent;
    match o
    case OpRegister(a) => RegisterAgentRefines(db, db', l, a, c.publicKey);
    case OpBalance(a, s) => Nothing(db); BalanceRefines(db, l, a, s);
    case OpAllocate(series, items) => AllocateRefines(db, db', l, series, items);
    case OpTransfer(r, now, signed) => TransferRefines(db, db', l, r, now, signed, c.keys);
    case OpLock(q, now, signed) => LockRefines(db, db', l, q, now, signed, c.keys);
    case OpRetire(id, receipt) => RetireRefines(db, db', l, id, receipt);
    case OpRelease(id) => ReleaseRefines(db, db', l, id);
  }

  lemma LedgerOpRefines(db: DB, db': DB, g: G.State, c: Call, o: L.Op)
    requires Agrees(db, g) && LI.Inv(g.ledger) && c.op == G.OpLedger(o) && ExecAll(Body(c), db) == Some(db')
    ensures G.Apply(g, c.op).1 && Agrees(db', G.Apply(g, c.op).0)
  {
    hide Agrees, LedgerAgrees, LI.Inv, ExecAll, Body, L.Apply;
    AgreesLedger(db, g);
    LedgerCallRefines(db, db', g.ledger, c, o);
    LedgerBody(c);
    LedgerProgramJobs(Body(c), db);
    LedgerStep(db, db', g, L.Apply(g.ledger, o).0);
  }

  lemma PrecheckedKept(g: G.State, op: G.Op)
    requires !op.OpPrecheck?
    ensures G.Apply(g, op).0.prechecked == g.prechecked
  {
  }

  lemma BodyRuns(db: DB, c: Call)
    requires !c.op.OpPrecheck? && ExecAll(Program(c), db).Some?
    ensures Storable(c) && ExecAll(Body(c), db) == ExecAll(Program(c), db)
  {
    hide Storable, Body;
    var u := First(Guard(Storable(c)), Body(c), db);
  }

  // One committed transaction is one accepted call of the registry or the joint machine.
  lemma CallRefines(db: DB, db': DB, g: G.State, c: Call)
    requires Agrees(db, g) && G.BaseInv(g) && Serial(db, c) == Some(db')
    requires !c.op.OpPrecheck? && (c.op.OpInsert? ==> c.op.request in g.prechecked)
    ensures var (h, accepted) := G.Apply(g, c.op); accepted && Agrees(db', h) && h.prechecked == g.prechecked
  {
    hide Agrees, LI.Inv, J.Inv, ExecAll, Replay, G.RegisterProvider, G.Insert, G.Claim, G.Complete, G.Fail, L.Apply, J.SetActive;
    ReplayRuns(Program(c), db);
    BodyRuns(db, c);
    PrecheckedKept(g, c.op);
    match c.op
    case OpLedger(o) => LedgerOpRefines(db, db', g, c, o);
    case OpRegisterProvider(d, key, recognised) => RegisterProviderRefines(db, db', g, d, key, recognised);
    case OpSetActive(p, active) => SetActiveRefines(db, db', g, p, active);
    case OpInsert(q, j, maxAttempts) => InsertRefines(db, db', g, q, j, maxAttempts);
    case OpClaim(p, d, j, now, leaseMs) => ClaimRefines(db, db', g, p, d, j, now, leaseMs);
    case OpComplete(j, p) => CompleteRefines(db, db', g, j, p);
    case OpFail(j, p, retryable) => FailRefines(db, db', g, j, p, retryable);
  }
}
