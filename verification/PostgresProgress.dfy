/** A call that the registry accepts goes through on the tables when it runs alone. */
module PostgresProgress {
  // PostgresRefinement leads from commits to accepted calls; this is the way back. A transaction
  // run alone reaches its last statement exactly when the registry or the job machine accepts
  // the call, the signer's key is the one on record, and a new agent's id has no NUL.
  import opened Results
  import opened Sums
  import opened Postgres
  import opened PostgresRefinement
  import opened PostgresSerial
  import PT = PostgresTheorems
  import L = Ledger
  import LI = LedgerInvariants
  import LC = LedgerCalls
  import LT = LedgerTheorems
  import J = Jobs
  import G = Joint

  // ---------- Running through ----------

  // A statement that succeeds leaves the rest to run.
  lemma Goes(st: Stmt, rest: seq<Stmt>, v: DB)
    requires Exec(st, v).Some?
    ensures ExecAll([st] + rest, v) == ExecAll(rest, v + Exec(st, v).value)
    ensures Exec(st, v).value == map[] ==> ExecAll([st] + rest, v) == ExecAll(rest, v)
  {
    assert ([st] + rest)[1..] == rest;
    if Exec(st, v).value == map[] { assert v + map[] == v; }
  }

  lemma GoesLast(st: Stmt, v: DB)
    requires Exec(st, v).Some?
    ensures ExecAll([st], v) == Some(v + Exec(st, v).value)
  {
    Goes(st, [], v);
    assert [st] == [st] + [];
  }

  lemma {:induction false} RunsReplay(p: seq<Stmt>, db: DB)
    requires ExecAll(p, db).Some?
    ensures Replay(p, db).Some? && ExecAll(p, db) == Some(db + Replay(p, db).value.0)
    decreases |p|
  {
    if p == [] {
      assert db + map[] == db;
    } else {
      var front, st := p[..|p| - 1], p[|p| - 1];
      assert p == front + [st];
      ExecAppend(front, [st], db);
      RunsReplay(front, db);
      var v := db + Replay(front, db).value.0;
      ReplayRuns(p, db);
    }
  }

  // Running the statements in order and replaying them from the back succeed alike.
  lemma SerialIff(db: DB, c: Call)
    ensures Serial(db, c).Some? <==> ExecAll(Program(c), db).Some?
    ensures Serial(db, c).Some? ==> Serial(db, c) == ExecAll(Program(c), db)
  {
    hide Program;
    if Replay(Program(c), db).Some? { ReplayRuns(Program(c), db); }
    if ExecAll(Program(c), db).Some? { RunsReplay(Program(c), db); }
  }

  // ---------- Signed requests ----------

  // The stored key of the actor is one the signature verifies under.
  predicate KeyOnRecord(v: DB, actor: string, keys: set<string>) {
    AgentK(actor) in v && v[AgentK(actor)].AgentR? && v[AgentK(actor)].publicKey in keys
  }

  lemma ChecksGo(v: DB, l: L.State, actor: string, id: string, nonce: string, amount: int, expiresAt: int, now: int, signed: bool, keys: set<string>)
    requires L.PositiveAmount(amount) && signed && now < expiresAt && KeyOnRecord(v, actor, keys)
    ensures ExecAll(RequestChecks(actor, id, nonce, amount, expiresAt, now, signed, keys), v) == Some(v)
  {
    var s0, s1, s2, s3 := Guard(L.PositiveAmount(amount) && signed), Signed(actor, keys), Guard(now < expiresAt), PeekRequest(id, nonce);
    assert RequestChecks(actor, id, nonce, amount, expiresAt, now, signed, keys) == [s0] + ([s1] + ([s2] + ([s3] + [])));
    Goes(s0, [s1] + ([s2] + ([s3] + [])), v);
    Goes(s1, [s2] + ([s3] + []), v);
    Goes(s2, [s3] + [], v);
    Goes(s3, [], v);
  }

  // A key is checked by every request that goes through.
  lemma ChecksKey(v: DB, actor: string, id: string, nonce: string, amount: int, expiresAt: int, now: int, signed: bool, keys: set<string>)
    requires ExecAll(RequestChecks(actor, id, nonce, amount, expiresAt, now, signed, keys), v).Some?
    ensures KeyOnRecord(v, actor, keys)
  {
    var s0, s1, s2, s3 := Guard(L.PositiveAmount(amount) && signed), Signed(actor, keys), Guard(now < expiresAt), PeekRequest(id, nonce);
    assert RequestChecks(actor, id, nonce, amount, expiresAt, now, signed, keys) == [s0] + ([s1] + [s2, s3]);
    var v1 := First(s0, [s1] + [s2, s3], v);
    var v2 := First(s1, [s2, s3], v1);
  }

  lemma EnsureGoes(v: DB, l: L.State, h: string, s: string, rest: seq<Stmt>) returns (u: DB)
    requires LedgerAgrees(v, l) && L.NulFree(h)
    ensures ExecAll([EnsureAccount(h, s)] + rest, v) == ExecAll(rest, u)
    ensures LedgerAgrees(u, l) && AccountK(h, s) in u && v.Keys <= u.Keys
  {
    EnsureAgrees(v, l, h, s);
    hide LedgerAgrees, L.NulFree;
    u := v + Exec(EnsureAccount(h, s), v).value;
    Goes(EnsureAccount(h, s), rest, v);
  }

  lemma RowsGo(v: DB, l: L.State, r: L.TransferRequest) returns (u: DB)
    requires LedgerAgrees(v, l) && r.toAgent in l.agents && L.NulFree(r.fromAgent) && L.NulFree(r.toAgent)
    ensures ExecAll(TransferRows(r), v) == Some(u) && LedgerAgrees(u, l)
    ensures AccountK(r.fromAgent, r.seriesId) in u && AccountK(r.toAgent, r.seriesId) in u
  {
    AgentRow(v, l, r.toAgent);
    assert Exec(HasAgent(r.toAgent), v) == Some(map[]);
    hide LedgerAgrees, L.NulFree, Before, ExecAll, Exec;
    var (a, b) := if Before(r.fromAgent, r.toAgent) then (r.fromAgent, r.toAgent) else (r.toAgent, r.fromAgent);
    var s3, s4 := LockAccount(a, r.seriesId), LockAccount(b, r.seriesId);
    assert TransferRows(r) == [HasAgent(r.toAgent)] + ([EnsureAccount(r.fromAgent, r.seriesId)] + ([EnsureAccount(r.toAgent, r.seriesId)] + ([s3] + ([s4] + []))));
    Goes(HasAgent(r.toAgent), [EnsureAccount(r.fromAgent, r.seriesId)] + ([EnsureAccount(r.toAgent, r.seriesId)] + ([s3] + ([s4] + []))), v);
    var w := EnsureGoes(v, l, r.fromAgent, r.seriesId, [EnsureAccount(r.toAgent, r.seriesId)] + ([s3] + ([s4] + [])));
    u := EnsureGoes(w, l, r.toAgent, r.seriesId, [s3] + ([s4] + []));
    LockGoesThrough(u, a, r.seriesId, [s4] + []);
    LockGoesThrough(u, b, r.seriesId, []);
    Nothing(u);
  }

  lemma LockGoesThrough(v: DB, h: string, s: string, rest: seq<Stmt>)
    requires AccountK(h, s) in v
    ensures ExecAll([LockAccount(h, s)] + rest, v) == ExecAll(rest, v)
  {
    Goes(LockAccount(h, s), rest, v);
  }

  lemma AgentRow(v: DB, l: L.State, a: string)
    requires LedgerAgrees(v, l) && a in l.agents
    ensures AgentK(a) in v
  {
  }

  lemma RequestRows(v: DB, l: L.State, id: string, nonce: string)
    requires LedgerAgrees(v, l) && id !in l.acceptedIds && nonce !in l.acceptedNonces
    ensures RequestK(id) !in v && NonceK(nonce) !in v
  {
  }

  lemma AcceptGoes(v: DB, l: L.State, h: string, s: string, sequence: int, amount: int, id: string, nonce: string) returns (u: DB)
    requires LedgerAgrees(v, l) && L.NulFree(h) && AccountK(h, s) in v
    requires var a := L.AccountAt(l, L.Key(h, s)); sequence == a.sequence && amount <= a.balance - a.locked
    requires id !in l.acceptedIds && nonce !in l.acceptedNonces
    ensures ExecAll(Accept(h, s, sequence, amount, id, nonce), v) == Some(u)
    ensures LedgerAgrees(u, L.Consume(l, id, nonce)) && v.Keys <= u.Keys
  {
    AbsentIsZero(v, l, h, s);
    RequestRows(v, l, id, nonce);
    hide LedgerAgrees, L.NulFree, L.Key;
    var s0, s1 := CheckAccount(h, s, sequence, amount), InsertRequest(id, nonce);
    assert Accept(h, s, sequence, amount, id, nonce) == [s0] + ([s1] + []);
    Goes(s0, [s1] + [], v);
    Goes(s1, [], v);
    u := v + map[RequestK(id) := MarkR, NonceK(nonce) := MarkR];
    Nothing(u);
    PutRequest(v, l, id, nonce);
  }

  // An update of an account row goes through when the new account satisfies the constraint.
  lemma UpdateGoes(v: DB, l: L.State, h: string, s: string, balance: int, locked: int, steps: int, rest: seq<Stmt>) returns (u: DB)
    requires LedgerAgrees(v, l) && L.NulFree(h) && AccountK(h, s) in v
    requires var a := L.AccountAt(l, L.Key(h, s)); 0 <= a.locked + locked <= a.balance + balance && 0 <= a.sequence + steps
    ensures ExecAll([UpdateAccount(h, s, balance, locked, steps)] + rest, v) == ExecAll(rest, u)
    ensures LedgerAgrees(u, Changed(l, L.Key(h, s), balance, locked, steps)) && v.Keys <= u.Keys
  {
    AbsentIsZero(v, l, h, s);
    hide LedgerAgrees, L.NulFree, L.Key;
    var st := UpdateAccount(h, s, balance, locked, steps);
    assert Exec(st, v).Some?;
    UpdateAgrees(v, l, h, s, balance, locked, steps);
    Goes(st, rest, v);
    u := v + Exec(st, v).value;
  }

  lemma ChangedAt(l: L.State, key: string, balance: int, locked: int, steps: int, other: string)
    ensures var a := L.AccountAt(l, other);
      L.AccountAt(Changed(l, key, balance, locked, steps), other)
      == if other == key then L.Account(a.balance + balance, a.locked + locked, a.sequence + steps) else a
  {
  }

  lemma MoveInRange(l: L.State, from: string, to: string, amount: int)
    requires LI.AccountsOk(l) && 0 < amount <= L.AccountAt(l, from).balance - L.AccountAt(l, from).locked
    ensures var (a, b) := (L.AccountAt(l, from), L.AccountAt(Changed(l, from, -amount, 0, 1), to));
      && 0 <= a.locked + 0 <= a.balance + -amount && 0 <= a.sequence + 1
      && 0 <= b.locked + 0 <= b.balance + amount && 0 <= b.sequence + 0
  {
    LI.AccountInRange(l, from);
    LI.AccountInRange(l, to);
    ChangedAt(l, from, -amount, 0, 1, to);
    hide L.AccountAt, Changed, LI.AccountsOk;
  }

  lemma TwoGo(v: DB, l: L.State, h: string, k: string, s: string, amount: int, s0: Stmt, s1: Stmt)
    requires LedgerAgrees(v, l) && L.NulFree(h) && L.NulFree(k) && AccountK(h, s) in v && AccountK(k, s) in v
    requires s0 == UpdateAccount(h, s, -amount, 0, 1) && s1 == UpdateAccount(k, s, amount, 0, 0)
    requires var a := L.AccountAt(l, L.Key(h, s)); 0 <= a.locked + 0 <= a.balance + -amount && 0 <= a.sequence + 1
    requires var b := L.AccountAt(Changed(l, L.Key(h, s), -amount, 0, 1), L.Key(k, s)); 0 <= b.locked + 0 <= b.balance + amount && 0 <= b.sequence + 0
    ensures ExecAll([s0] + ([s1] + []), v).Some?
  {
    hide LedgerAgrees, L.NulFree, L.Key, ExecAll, L.AccountAt, Changed, Exec;
    var w := UpdateGoes(v, l, h, s, -amount, 0, 1, [s1] + []);
    var u := UpdateGoes(w, Changed(l, L.Key(h, s), -amount, 0, 1), k, s, amount, 0, 0, []);
    Nothing(u);
  }

  lemma MovesGo(v: DB, l: L.State, r: L.TransferRequest)
    requires LedgerAgrees(v, l) && LI.AccountsOk(l) && L.NulFree(r.fromAgent) && L.NulFree(r.toAgent) && 0 < r.amount
    requires AccountK(r.fromAgent, r.seriesId) in v && AccountK(r.toAgent, r.seriesId) in v
    requires var a := L.AccountAt(l, L.Key(r.fromAgent, r.seriesId)); r.amount <= a.balance - a.locked
    ensures ExecAll(TransferUpdates(r), v).Some?
  {
    var s0, s1 := UpdateAccount(r.fromAgent, r.seriesId, -r.amount, 0, 1), UpdateAccount(r.toAgent, r.seriesId, r.amount, 0, 0);
    assert TransferUpdates(r) == [s0] + ([s1] + []);
    MoveInRange(l, L.Key(r.fromAgent, r.seriesId), L.Key(r.toAgent, r.seriesId), r.amount);
    hide LedgerAgrees, L.NulFree, L.Key, ExecAll, L.AccountAt, Changed, LI.AccountsOk, Exec, TransferUpdates;
    TwoGo(v, l, r.fromAgent, r.toAgent, r.seriesId, r.amount, s0, s1);
  }

  // An accepted transfer goes through.
  lemma TransferGoes(db: DB, l: L.State, r: L.TransferRequest, now: int, signed: bool, keys: set<string>)
    requires LedgerAgrees(db, l) && LI.AgentsOk(l) && LI.AccountsOk(l) && KeyOnRecord(db, r.fromAgent, keys)
    requires L.Transfer(l, r, now, signed).result.Ok?
    ensures ExecAll(RequestChecks(r.fromAgent, r.transferId, r.nonce, r.amount, r.expiresAt, now, signed, keys)
                    + (TransferRows(r) + (Accept(r.fromAgent, r.seriesId, r.senderSequence, r.amount, r.transferId, r.nonce) + TransferUpdates(r))), db).Some?
  {
    LC.TransferAccepted(l, r, now, signed);
    AgentNulFree(l, r.fromAgent);
    AgentNulFree(l, r.toAgent);
    assert L.PositiveAmount(r.amount);
    hide LedgerAgrees, L.NulFree, RequestChecks, Accept, TransferUpdates, TransferRows, LI.AgentsOk, L.Key, L.Transfer, ExecAll, KeyOnRecord, LI.AccountsOk;
    var checks := RequestChecks(r.fromAgent, r.transferId, r.nonce, r.amount, r.expiresAt, now, signed, keys);
    var accept := Accept(r.fromAgent, r.seriesId, r.senderSequence, r.amount, r.transferId, r.nonce);
    ChecksGo(db, l, r.fromAgent, r.transferId, r.nonce, r.amount, r.expiresAt, now, signed, keys);
    ExecAppend(checks, TransferRows(r) + (accept + TransferUpdates(r)), db);
    var v := RowsGo(db, l, r);
    ExecAppend(TransferRows(r), accept + TransferUpdates(r), db);
    var w := AcceptGoes(v, l, r.fromAgent, r.seriesId, r.senderSequence, r.amount, r.transferId, r.nonce);
    ExecAppend(accept, TransferUpdates(r), v);
    ConsumedAccounts(l, r.transferId, r.nonce);
    MovesGo(w, L.Consume(l, r.transferId, r.nonce), r);
  }

  lemma ConsumedAccounts(l: L.State, id: string, nonce: string)
    ensures LI.AccountsOk(l) ==> LI.AccountsOk(L.Consume(l, id, nonce))
    ensures forall key :: L.AccountAt(L.Consume(l, id, nonce), key) == L.AccountAt(l, key)
  {
  }

  // An accepted lock goes through.
  lemma LockGoes(db: DB, l: L.State, q: L.LockRequest, now: int, signed: bool, keys: set<string>)
    requires LedgerAgrees(db, l) && LI.AgentsOk(l) && LI.AccountsOk(l) && LI.RedemptionsOk(l) && KeyOnRecord(db, q.holderAgent, keys)
    requires L.LockRedemption(l, q, now, signed).result.Ok?
    ensures ExecAll(RequestChecks(q.holderAgent, q.redemptionId, q.nonce, q.amount, q.expiresAt, now, signed, keys)
                    + ([EnsureAccount(q.holderAgent, q.seriesId)] + (Accept(q.holderAgent, q.seriesId, q.senderSequence, q.amount, q.redemptionId, q.nonce) + LockUpdates(q))), db).Some?
  {
    LC.LockAccepted(l, q, now, signed);
    AgentNulFree(l, q.holderAgent);
    assert L.PositiveAmount(q.amount) && q.redemptionId !in l.redemptions;
    hide LedgerAgrees, L.NulFree, RequestChecks, Accept, LockUpdates, LI.AgentsOk, L.Key, L.LockRedemption, ExecAll, KeyOnRecord, LI.AccountsOk, LI.RedemptionsOk;
    var checks := RequestChecks(q.holderAgent, q.redemptionId, q.nonce, q.amount, q.expiresAt, now, signed, keys);
    var accept := Accept(q.holderAgent, q.seriesId, q.senderSequence, q.amount, q.redemptionId, q.nonce);
    ChecksGo(db, l, q.holderAgent, q.redemptionId, q.nonce, q.amount, q.expiresAt, now, signed, keys);
    ExecAppend(checks, [EnsureAccount(q.holderAgent, q.seriesId)] + (accept + LockUpdates(q)), db);
    var v := EnsureGoes(db, l, q.holderAgent, q.seriesId, accept + LockUpdates(q));
    var w := AcceptGoes(v, l, q.holderAgent, q.seriesId, q.senderSequence, q.amount, q.redemptionId, q.nonce);
    ExecAppend(accept, LockUpdates(q), v);
    ConsumedAccounts(l, q.redemptionId, q.nonce);
    StoresGo(w, L.Consume(l, q.redemptionId, q.nonce), q);
  }

  lemma StoresGo(v: DB, l: L.State, q: L.LockRequest)
    requires LedgerAgrees(v, l) && LI.AccountsOk(l) && L.NulFree(q.holderAgent) && 0 < q.amount && AccountK(q.holderAgent, q.seriesId) in v
    requires q.redemptionId !in l.redemptions
    requires var a := L.AccountAt(l, L.Key(q.holderAgent, q.seriesId)); q.amount <= a.balance - a.locked
    ensures ExecAll(LockUpdates(q), v).Some?
  {
    var key := L.Key(q.holderAgent, q.seriesId);
    LI.AccountInRange(l, key);
    hide LedgerAgrees, L.NulFree, L.Key, ExecAll;
    var s0, s1 := UpdateAccount(q.holderAgent, q.seriesId, 0, q.amount, 1), InsertRedemption(q);
    assert LockUpdates(q) == [s0] + ([s1] + []);
    var u := UpdateGoes(v, l, q.holderAgent, q.seriesId, 0, q.amount, 1, [s1] + []);
    NoRedemptionRow(u, Changed(l, key, 0, q.amount, 1), q.redemptionId);
    Goes(s1, [], u);
    Nothing(u + Exec(s1, u).value);
  }

  lemma NoRedemptionRow(v: DB, l: L.State, id: string)
    requires LedgerAgrees(v, l) && id !in l.redemptions
    ensures RedemptionK(id) !in v
  {
    assert RedemptionIn(v, id) == Lookup(l.redemptions, id);
  }

  // ---------- Allocations ----------

  lemma ProofRow(v: DB, l: L.State, p: string)
    requires LedgerAgrees(v, l) && p !in l.consumedProofs
    ensures ProofK(p) !in v
  {
  }

  lemma CreditGoes(v: DB, l: L.State, h: string, s: string, credit: int)
    requires LedgerAgrees(v, l) && LI.AccountsOk(l) && L.NulFree(h) && 0 <= credit
    ensures Exec(UpsertBalance(h, s, credit), v).Some?
  {
    AbsentIsZero(v, l, h, s);
    LI.AccountInRange(l, L.Key(h, s));
    hide LedgerAgrees, L.Key, L.NulFree, LI.AccountsOk;
  }

  lemma SameAccounts(l: L.State, m: L.State)
    requires LI.AccountsOk(l) && m.accounts == l.accounts
    ensures LI.AccountsOk(m)
  {
  }

  // The first three statements of an item, and the ledger they leave.
  lemma ItemRows(v: DB, l: L.State, series: string, i: L.Allocation) returns (u: DB, m: L.State)
    requires LedgerAgrees(v, l) && LI.AccountsOk(l) && LI.NulFreeAgents(l)
    requires i.recipient in l.agents && SafeInteger(i.amount) && 0 <= i.amount && i.proofId !in l.consumedProofs
    ensures Exec(Guard(SafeInteger(i.amount) && 0 <= i.amount), v) == Some(map[]) && Exec(HasAgent(i.recipient), v) == Some(map[])
    ensures Exec(InsertProof(i.proofId, series, i.amount), v).Some? && u == v + Exec(InsertProof(i.proofId, series, i.amount), v).value
    ensures LedgerAgrees(u, m) && LI.AccountsOk(m) && L.NulFree(i.recipient)
  {
    hide LedgerAgrees, LI.AccountsOk, L.NulFree, L.Key;
    AgentRow(v, l, i.recipient);
    ProofRow(v, l, i.proofId);
    m := l.(issued := l.issued[series := L.IssuedTotal(l, series) + i.amount], consumedProofs := l.consumedProofs + {i.proofId});
    SameAccounts(l, m);
    PutProof(v, l, i.proofId, series, i.amount);
    u := v + map[ProofK(i.proofId) := ProofR(series, i.amount)];
    assert u == v[ProofK(i.proofId) := ProofR(series, i.amount)];
  }

  lemma ItemGoes(v: DB, l: L.State, series: string, i: L.Allocation)
    requires LedgerAgrees(v, l) && LI.AccountsOk(l) && LI.NulFreeAgents(l)
    requires i.recipient in l.agents && SafeInteger(i.amount) && 0 <= i.amount && i.proofId !in l.consumedProofs
    ensures ExecAll(AllocateItem(series, i), v).Some?
  {
    var s0, s1 := Guard(SafeInteger(i.amount) && 0 <= i.amount), HasAgent(i.recipient);
    var s2, s3 := InsertProof(i.proofId, series, i.amount), UpsertBalance(i.recipient, series, i.amount);
    assert AllocateItem(series, i) == [s0] + ([s1] + ([s2] + ([s3] + [])));
    hide LedgerAgrees, L.NulFree, ExecAll, Exec, LI.AccountsOk, LI.NulFreeAgents, AllocateItem;
    var u, m := ItemRows(v, l, series, i);
    Goes(s0, [s1] + ([s2] + ([s3] + [])), v);
    Goes(s1, [s2] + ([s3] + []), v);
    Goes(s2, [s3] + [], v);
    CreditGoes(u, m, i.recipient, series, i.amount);
    Goes(s3, [], u);
    Nothing(u + Exec(s3, u).value);
  }

  lemma RestFresh(l: L.State, series: string, items: seq<L.Allocation>)
    requires items != [] && L.Distinct(L.ProofIds(items)) && ItemsFresh(l, items)
    ensures items[0].proofId !in l.consumedProofs && L.Distinct(L.ProofIds(items[1..])) && ItemsFresh(L.CreditOne(l, series, items[0]), items[1..])
  {
    var ids := L.ProofIds(items);
    hide L.Key;
    assert ids[0] in ids && ids[1..] == L.ProofIds(items[1..]);
    forall id <- L.ProofIds(items[1..]) ensures id != items[0].proofId && id !in l.consumedProofs {
      var k :| 0 <= k < |ids[1..]| && ids[1..][k] == id;
      assert ids[k + 1] == id && ids[k + 1] in ids;
    }
  }

  lemma {:induction false} ItemsGo(v: DB, l: L.State, series: string, items: seq<L.Allocation>)
    requires LedgerAgrees(v, l) && LI.Inv(l) && LI.NulFreeAgents(l)
    requires L.FirstBadItem(l, items) == None && L.Distinct(L.ProofIds(items)) && ItemsFresh(l, items)
    ensures ExecAll(AllocateItems(series, items), v).Some?
    decreases |items|
  {
    if items == [] {
      Nothing(v);
    } else {
      var i := items[0];
      InvAccounts(l);
      RestFresh(l, series, items);
      ItemGoes(v, l, series, i);
      LI.CreditOneKeeps(l, series, i);
      LI.SameAgentsSameItems(l, L.CreditOne(l, series, i), items[1..]);
      CreditedAgents(l, series, i);
      hide LedgerAgrees, LI.Inv, LI.NulFreeAgents, AllocateItem, ExecAll, L.CreditOne, ItemsFresh, L.Distinct, LI.AccountsOk;
      var u := ItemCredits(v, l, series, i);
      ExecAppend(AllocateItem(series, i), AllocateItems(series, items[1..]), v);
      ItemsGo(u, L.CreditOne(l, series, i), series, items[1..]);
    }
  }

  lemma InvAccounts(l: L.State)
    requires LI.Inv(l)
    ensures LI.AccountsOk(l) && LI.RedemptionsOk(l)
  {
  }

  // An accepted allocation goes through.
  lemma AllocateGoes(db: DB, l: L.State, series: string, items: seq<L.Allocation>)
    requires LedgerAgrees(db, l) && LI.Inv(l) && LI.NulFreeAgents(l) && L.Allocate(l, series, items).result.Ok?
    ensures ExecAll([Guard(L.Distinct(L.ProofIds(items)))] + AllocateItems(series, items), db).Some?
  {
    hide LedgerAgrees, LI.Inv, ExecAll, L.FirstBadItem, L.CreditAll;
    assert ItemsFresh(l, items);
    Goes(Guard(L.Distinct(L.ProofIds(items))), AllocateItems(series, items), db);
    ItemsGo(db, l, series, items);
  }

  // ---------- Endings ----------

  lemma SettleRows(v: DB, l: L.State, t: Target, id: string, outcome: L.Status) returns (w: DB, u: DB)
    requires LedgerAgrees(v, l) && LI.Inv(l) && L.IsLocked(l, id) && Finds(v, t, id, l.redemptions[id])
    ensures Exec(Settle(t, outcome), v).Some? && w == v + Exec(Settle(t, outcome), v).value
    ensures Exec(SetStatus(t, outcome), w).Some? && u == w + Exec(SetStatus(t, outcome), w).value
    ensures Finds(u, t, id, L.Redemption(l.redemptions[id].request, outcome))
  {
    hide LedgerAgrees, LI.Inv, Exec, L.Key, Finds;
    PT.SettleNeverRefused(v, l, t, id, outcome);
    SettleAgrees(v, l, t, id, outcome);
    w := v + Exec(Settle(t, outcome), v).value;
    StatusAgrees(w, Settled(l, id, outcome), t, id, l.redemptions[id], outcome);
    u := w + Exec(SetStatus(t, outcome), w).value;
  }

  lemma SettleGoes(v: DB, l: L.State, t: Target, id: string, outcome: L.Status, rest: seq<Stmt>) returns (u: DB)
    requires LedgerAgrees(v, l) && LI.Inv(l) && L.IsLocked(l, id) && Finds(v, t, id, l.redemptions[id])
    ensures ExecAll([Settle(t, outcome), SetStatus(t, outcome)] + rest, v) == ExecAll(rest, u)
    ensures Finds(u, t, id, L.Redemption(l.redemptions[id].request, outcome)) && (RetirementK(id) in u <==> RetirementK(id) in v)
  {
    hide LedgerAgrees, LI.Inv, Exec, ExecAll, Finds;
    var s0, s1 := Settle(t, outcome), SetStatus(t, outcome);
    var w: DB;
    w, u := SettleRows(v, l, t, id, outcome);
    EndingRows(v, w, u, t, id, outcome);
    assert [s0, s1] + rest == [s0] + ([s1] + rest);
    Goes(s0, [s1] + rest, v);
    Goes(s1, rest, w);
  }

  lemma EndingRows(v: DB, w: DB, u: DB, t: Target, id: string, outcome: L.Status)
    requires Exec(Settle(t, outcome), v).Some? && w == v + Exec(Settle(t, outcome), v).value
    requires Exec(SetStatus(t, outcome), w).Some? && u == w + Exec(SetStatus(t, outcome), w).value
    ensures RetirementK(id) in u <==> RetirementK(id) in v
  {
  }

  lemma RowInserts(v: DB, t: Target, id: string, r: L.Redemption)
    requires Finds(v, t, id, r) && RetirementK(id) !in v
    ensures Exec(InsertRetirement(t), v).Some?
  {
  }

  lemma RetireGoes(v: DB, l: L.State, t: Target, id: string)
    requires LedgerAgrees(v, l) && LI.Inv(l) && L.IsLocked(l, id) && Finds(v, t, id, l.redemptions[id]) && RetirementK(id) !in v
    ensures ExecAll(RetireEffects(t), v).Some?
  {
    var s0, s1, s2 := Settle(t, L.Retired), SetStatus(t, L.Retired), InsertRetirement(t);
    assert RetireEffects(t) == [s0, s1] + ([s2] + []);
    hide LedgerAgrees, LI.Inv, ExecAll, Exec, Finds, RetireEffects;
    var u := SettleGoes(v, l, t, id, L.Retired, [s2] + []);
    RowInserts(u, t, id, L.Redemption(l.redemptions[id].request, L.Retired));
    Goes(s2, [], u);
    Nothing(u + Exec(s2, u).value);
  }

  lemma RefundGoes(v: DB, l: L.State, t: Target, id: string)
    requires LedgerAgrees(v, l) && LI.Inv(l) && L.IsLocked(l, id) && Finds(v, t, id, l.redemptions[id])
    ensures ExecAll(RefundEffects(t), v).Some?
  {
    hide LedgerAgrees, LI.Inv, ExecAll;
    var u := SettleGoes(v, l, t, id, L.Refunded, []);
    Nothing(u);
    assert RefundEffects(t) == [Settle(t, L.Refunded), SetStatus(t, L.Refunded)] + [];
  }

  lemma LockedRow(v: DB, l: L.State, id: string)
    requires LedgerAgrees(v, l) && L.IsLocked(l, id)
    ensures Exec(LockRedemption(ById(id)), v) == Some(map[]) && Finds(v, ById(id), id, l.redemptions[id])
  {
    assert RedemptionIn(v, id) == Lookup(l.redemptions, id);
  }

  // A redemption with a retirement row is retired.
  ghost predicate RetirementsOk(v: DB, l: L.State) {
    forall id :: RetirementK(id) in v ==> id in l.redemptions && l.redemptions[id].status == L.Retired
  }

  lemma DirectRetireGoes(db: DB, l: L.State, id: string, receipt: L.ExecutionReceipt)
    requires LedgerAgrees(db, l) && LI.Inv(l) && RetirementsOk(db, l) && L.Retire(l, id, receipt).result.Ok?
    ensures ExecAll([LockRedemption(ById(id)), Guard(receipt.redemptionId == id && receipt.verified)] + RetireEffects(ById(id)), db).Some?
  {
    LC.RetireAccepted(l, id, receipt);
    LockedRow(db, l, id);
    var s0, s1 := LockRedemption(ById(id)), Guard(receipt.redemptionId == id && receipt.verified);
    assert Exec(s1, db) == Some(map[]);
    assert [s0, s1] + RetireEffects(ById(id)) == [s0] + ([s1] + RetireEffects(ById(id)));
    hide LedgerAgrees, LI.Inv, RetireEffects, L.Retire, ExecAll, Exec, Finds;
    Goes(s0, [s1] + RetireEffects(ById(id)), db);
    Goes(s1, RetireEffects(ById(id)), db);
    RetireGoes(db, l, ById(id), id);
  }

  lemma DirectReleaseGoes(db: DB, l: L.State, id: string)
    requires LedgerAgrees(db, l) && LI.Inv(l) && L.Release(l, id).result.Ok?
    ensures ExecAll([LockRedemption(ById(id))] + RefundEffects(ById(id)), db).Some?
  {
    LC.ReleaseAccepted(l, id);
    LockedRow(db, l, id);
    hide LedgerAgrees, LI.Inv, RefundEffects, L.Release, ExecAll;
    Goes(LockRedemption(ById(id)), RefundEffects(ById(id)), db);
    RefundGoes(db, l, ById(id), id);
  }

  // ---------- Jobs and providers ----------

  lemma InsertGoes(db: DB, g: G.State, q: L.LockRequest, j: string, maxAttempts: int)
    requires Agrees(db, g) && G.Insert(g, q, j, maxAttempts).1
    ensures ExecAll([InsertJob(q, j, maxAttempts)], db).Some?
  {
    hide Agrees, J.HasRedemption;
    RowsRead(db, g, j, "", "", q.redemptionId);
    GoesLast(InsertJob(q, j, maxAttempts), db);
  }

  lemma ReserveInRange(s: J.State, p: string, c: string, j: string, now: int)
    requires J.Inv(s) && J.Claimable(s, p, c, j, now)
    ensures 0 <= s.commitments[c].remaining - s.jobs[j].amount <= s.commitments[c].recognised
  {
    assert J.JobOk(s, j);
    J.RemainingInRange(s, c);
    hide J.Inv;
  }

  lemma ReserveGoes(v: DB, g: G.State, p: string, c: string, j: string, now: int)
    requires Agrees(v, g) && J.Inv(g.jobs) && J.Claimable(g.jobs, p, c, j, now)
    ensures Exec(PickJob(p, c, j, now), v) == Some(map[]) && Exec(Reserve(c, j), v).Some?
  {
    hide Agrees, J.Inv;
    ReserveInRange(g.jobs, p, c, j, now);
    RowsRead(v, g, j, c, "", "");
  }

  lemma ClaimGoes(db: DB, g: G.State, p: string, c: string, j: string, now: int, leaseMs: int)
    requires Agrees(db, g) && J.Inv(g.jobs) && J.Claimable(g.jobs, p, c, j, now)
    ensures ExecAll([PickJob(p, c, j, now), Reserve(c, j), StartJob(j, p, c, now + leaseMs)], db).Some?
  {
    hide Agrees, J.Inv, ExecAll, Exec, J.Claimable;
    ReserveGoes(db, g, p, c, j, now);
    var s0, s1, s2 := PickJob(p, c, j, now), Reserve(c, j), StartJob(j, p, c, now + leaseMs);
    assert [s0, s1, s2] == [s0] + ([s1] + ([s2] + []));
    Goes(s0, [s1] + ([s2] + []), db);
    Goes(s1, [s2] + [], db);
    ReserveRows(db, c, j);
    var v := db + Exec(s1, db).value;
    JobStarts(v, j, p, c, now + leaseMs);
    Goes(s2, [], v);
    Nothing(v + Exec(s2, v).value);
  }

  lemma JobStarts(v: DB, j: string, p: string, c: string, lease: int)
    requires JobIn(v, j).Some?
    ensures Exec(StartJob(j, p, c, lease), v).Some? && Exec(CompleteJob(j), v).Some?
    ensures forall retryable :: Exec(FailJob(j, retryable), v).Some?
  {
  }

  lemma RunningRow(v: DB, g: G.State, j: string, p: string)
    requires Agrees(v, g) && J.RunningFor(g.jobs, j, p)
    ensures Exec(LockRunning(j, p), v) == Some(map[]) && JobIn(v, j) == Some(g.jobs.jobs[j])
  {
    hide Agrees;
    RowsRead(v, g, j, "", "", "");
  }

  lemma JobRedemptionRow(v: DB, g: G.State, j: string)
    requires Agrees(v, g) && j in g.jobs.jobs && L.IsLocked(g.ledger, g.jobs.jobs[j].redemptionId)
    ensures var r := g.jobs.jobs[j].redemptionId;
      Exec(LockRedemption(OfJob(j)), v) == Some(map[]) && Finds(v, OfJob(j), r, g.ledger.redemptions[r])
  {
    hide Agrees;
    RowsRead(v, g, j, "", "", g.jobs.jobs[j].redemptionId);
  }

  lemma JobRowKept(v: DB, u: DB, j: string)
    requires SameJobRows(v, u)
    ensures JobIn(u, j) == JobIn(v, j)
  {
    assert JobK(j) in v <==> JobK(j) in u;
  }

  lemma CompleteAccepts(g: G.State, j: string, p: string)
    requires G.Complete(g, j, p).1
    ensures J.RunningFor(g.jobs, j, p) && L.IsLocked(g.ledger, g.jobs.jobs[j].redemptionId)
  {
  }

  lemma NotRetired(db: DB, l: L.State, id: string)
    requires RetirementsOk(db, l) && L.IsLocked(l, id)
    ensures RetirementK(id) !in db
  {
  }

  lemma CompleteGoes(db: DB, g: G.State, j: string, p: string)
    requires Agrees(db, g) && LI.Inv(g.ledger) && RetirementsOk(db, g.ledger) && G.Complete(g, j, p).1
    ensures ExecAll([LockRunning(j, p), LockRedemption(OfJob(j))] + (RetireEffects(OfJob(j)) + [CompleteJob(j)]), db).Some?
  {
    hide Agrees, LI.Inv, LedgerAgrees, ExecAll, Exec, Finds, SameJobRows, RetireEffects, L.End, RetirementsOk, G.Complete, JobIn;
    CompleteAccepts(g, j, p);
    var t, r := OfJob(j), g.jobs.jobs[j].redemptionId;
    NotRetired(db, g.ledger, r);
    AgreesLedger(db, g);
    RunningRow(db, g, j, p);
    JobRedemptionRow(db, g, j);
    var s0, s1 := LockRunning(j, p), LockRedemption(t);
    var rest := RetireEffects(t) + [CompleteJob(j)];
    assert [s0, s1] + rest == [s0] + ([s1] + rest);
    Goes(s0, [s1] + rest, db);
    Goes(s1, rest, db);
    RetireGoes(db, g.ledger, t, r);
    var u := RetireEnds(db, g.ledger, t, r);
    ExecAppend(RetireEffects(t), [CompleteJob(j)], db);
    JobRowKept(db, u, j);
    JobStarts(u, j, p, "", 0);
    GoesLast(CompleteJob(j), u);
  }

  lemma ReturnInRange(s: J.State, j: string, p: string)
    requires J.Inv(s) && J.RunningFor(s, j, p)
    ensures s.jobs[j].commitmentId.Some? && s.jobs[j].commitmentId.value in s.commitments
    ensures var cap := s.commitments[s.jobs[j].commitmentId.value]; 0 <= cap.remaining + s.jobs[j].amount <= cap.recognised
  {
    assert J.JobOk(s, j);
    J.FailKeeps(s, j, p, true);
    J.RemainingInRange(J.Fail(s, j, p, true).state, s.jobs[j].commitmentId.value);
    hide J.Inv;
  }

  lemma ReturnGoes(v: DB, g: G.State, j: string, p: string)
    requires Agrees(v, g) && J.Inv(g.jobs) && J.RunningFor(g.jobs, j, p)
    ensures Exec(ReturnCapacity(j), v).Some? && g.jobs.jobs[j].commitmentId.Some? && g.jobs.jobs[j].commitmentId.value in g.jobs.commitments
  {
    ReturnInRange(g.jobs, j, p);
    RowsRead(v, g, j, g.jobs.jobs[j].commitmentId.value, "", "");
    ReturnRow(v, j);
  }

  lemma ReturnRow(v: DB, j: string)
    requires JobIn(v, j).Some? && JobIn(v, j).value.commitmentId.Some? && CapacityIn(v, JobIn(v, j).value.commitmentId.value).Some?
    requires var cap := CapacityIn(v, JobIn(v, j).value.commitmentId.value).value; 0 <= cap.remaining + JobIn(v, j).value.amount <= cap.recognised
    ensures Exec(ReturnCapacity(j), v).Some?
  {
  }

  // After the capacity is back: a job that is not retried finds its locked redemption.
  lemma FailedTargetGoes(v: DB, g: G.State, j: string, retryable: bool)
    requires Agrees(v, g) && j in g.jobs.jobs && (!J.Retries(g.jobs.jobs[j], retryable) ==> L.IsLocked(g.ledger, g.jobs.jobs[j].redemptionId))
    ensures Exec(LockRedemption(OfFailedJob(j, retryable)), v) == Some(map[]) && JobIn(v, j).Some?
  {
    hide Agrees;
    RowsRead(v, g, j, "", "", g.jobs.jobs[j].redemptionId);
  }

  lemma SkippedGoes(v: DB, t: Target)
    requires Resolve(t, v) == None
    ensures ExecAll(RefundEffects(t), v) == Some(v)
  {
    var s0, s1 := Settle(t, L.Refunded), SetStatus(t, L.Refunded);
    assert RefundEffects(t) == [s0] + ([s1] + []);
    Goes(s0, [s1] + [], v);
    Goes(s1, [], v);
  }

  lemma FailStartsGo(db: DB, g: G.State, j: string, p: string, retryable: bool)
    requires Agrees(db, g) && J.Inv(g.jobs) && J.RunningFor(g.jobs, j, p)
    requires !J.Retries(g.jobs.jobs[j], retryable) ==> L.IsLocked(g.ledger, g.jobs.jobs[j].redemptionId)
    ensures ExecAll([LockRunning(j, p), ReturnCapacity(j), LockRedemption(OfFailedJob(j, retryable))], db).Some?
  {
    hide Agrees, ExecAll, Exec, J.Inv, J.Retries;
    var s0, s1, s2 := LockRunning(j, p), ReturnCapacity(j), LockRedemption(OfFailedJob(j, retryable));
    assert [s0, s1, s2] == [s0] + ([s1] + ([s2] + []));
    RunningRow(db, g, j, p);
    Goes(s0, [s1] + ([s2] + []), db);
    ReturnGoes(db, g, j, p);
    ReturnAgrees(db, g, j);
    Goes(s1, [s2] + [], db);
    var v := db + Exec(s1, db).value;
    FailedTargetGoes(v, g.(jobs := J.AddRemaining(g.jobs, g.jobs.jobs[j].commitmentId.value, g.jobs.jobs[j].amount)), j, retryable);
    Goes(s2, [], v);
    Nothing(v);
  }

  lemma FailGoes(db: DB, g: G.State, j: string, p: string, retryable: bool)
    requires Agrees(db, g) && LI.Inv(g.ledger) && J.Inv(g.jobs) && G.Fail(g, j, p, retryable).1
    ensures var t := OfFailedJob(j, retryable);
      ExecAll([LockRunning(j, p), ReturnCapacity(j), LockRedemption(t)] + (RefundEffects(t) + [FailJob(j, retryable)]), db).Some?
  {
    var t, r := OfFailedJob(j, retryable), g.jobs.jobs[j].redemptionId;
    FailAccepts(g, j, p, retryable);
    hide Agrees, LI.Inv, J.Inv, LedgerAgrees, ExecAll, Exec, Finds, SameJobRows, RefundEffects, L.End, G.Fail, J.Retries, J.RunningFor, Resolve;
    var head, rest := [LockRunning(j, p), ReturnCapacity(j), LockRedemption(t)], RefundEffects(t) + [FailJob(j, retryable)];
    FailStartsGo(db, g, j, p, retryable);
    ExecAppend(head, rest, db);
    var v := FailStarts(db, g, j, p, retryable);
    var h := g.(jobs := J.AddRemaining(g.jobs, g.jobs.jobs[j].commitmentId.value, g.jobs.jobs[j].amount));
    RowsRead(v, h, j, "", "", "");
    ExecAppend(RefundEffects(t), [FailJob(j, retryable)], v);
    var u := v;
    if J.Retries(g.jobs.jobs[j], retryable) {
      SkippedGoes(v, t);
    } else {
      AgreesLedger(v, h);
      RefundGoes(v, g.ledger, t, r);
      u := RefundEnds(v, g.ledger, t, r);
      JobRowKept(v, u, j);
    }
    JobStarts(u, j, p, "", 0);
    GoesLast(FailJob(j, retryable), u);
  }

  lemma FailAccepts(g: G.State, j: string, p: string, retryable: bool)
    requires G.Fail(g, j, p, retryable).1
    ensures J.RunningFor(g.jobs, j, p)
    ensures !J.Retries(g.jobs.jobs[j], retryable) ==> L.IsLocked(g.ledger, g.jobs.jobs[j].redemptionId)
  {
  }

  lemma RegisterProviderGoes(db: DB, g: G.State, c: J.Commitment, key: string, recognised: int)
    requires Agrees(db, g) && G.RegisterProvider(g, c, key, recognised).1
    ensures ExecAll([UpsertProvider(c.providerId, key), InsertCommitment(c, recognised)], db).Some?
  {
    hide Agrees;
    RowsRead(db, g, "", c.commitmentId, c.providerId, "");
    var s0, s1 := UpsertProvider(c.providerId, key), InsertCommitment(c, recognised);
    assert Exec(s0, db).Some? && CommitmentK(c.commitmentId) !in db + Exec(s0, db).value;
    assert [s0, s1] == [s0] + ([s1] + []);
    Goes(s0, [s1] + [], db);
    Goes(s1, [], db + Exec(s0, db).value);
  }

  lemma SetActiveGoes(db: DB, g: G.State, p: string, active: bool)
    requires Agrees(db, g) && J.SetActive(g.jobs, p, active).result.Ok?
    ensures ExecAll([SetProvider(p, active)], db).Some?
  {
    hide Agrees;
    RowsRead(db, g, "", "", p, "");
    GoesLast(SetProvider(p, active), db);
  }

  lemma RegisterAgentGoes(db: DB, a: string, key: string)
    requires a != "" && L.NulFree(a)
    ensures ExecAll([Guard(a != "" && L.NulFree(a)), InsertAgent(a, key)], db).Some?
  {
    var s0, s1 := Guard(a != "" && L.NulFree(a)), InsertAgent(a, key);
    assert [s0, s1] == [s0] + ([s1] + []);
    Goes(s0, [s1] + [], db);
    Goes(s1, [], db);
  }

  // ---------- Retirement rows ----------

  // What the target of a statement stays, whatever the transaction writes.
  predicate Targets(v: DB, t: Target, id: string) {
    match t
    case ById(x) => x == id
    case OfJob(j) => JobIn(v, j).Some? && JobIn(v, j).value.redemptionId == id
    case OfFailedJob(_, _) => false
  }

  lemma ExecTargets(st: Stmt, v: DB, t: Target, id: string)
    requires Exec(st, v).Some? && Targets(v, t, id) && (st.InsertRetirement? ==> st.retireTarget == t)
    ensures var u := v + Exec(st, v).value;
      Targets(u, t, id) && forall x :: RetirementK(x) in u ==> RetirementK(x) in v || x == id
  {
  }

  // A transaction adds no retirement row but of the redemption it ends.
  lemma {:induction false} NewRetirements(p: seq<Stmt>, v: DB, t: Target, id: string)
    requires ExecAll(p, v).Some? && Targets(v, t, id) && forall st <- p :: st.InsertRetirement? ==> st.retireTarget == t
    ensures forall x :: RetirementK(x) in ExecAll(p, v).value ==> RetirementK(x) in v || x == id
    decreases |p|
  {
    hide Exec, Targets;
    if p != [] {
      assert p[0] in p;
      ExecTargets(p[0], v, t, id);
      NewRetirements(p[1..], v + Exec(p[0], v).value, t, id);
    }
  }

  lemma {:induction false} NoRetirements(p: seq<Stmt>, v: DB)
    requires ExecAll(p, v).Some? && forall st <- p :: !st.InsertRetirement?
    ensures forall x :: RetirementK(x) in ExecAll(p, v).value ==> RetirementK(x) in v
    decreases |p|
  {
    hide Exec;
    if p != [] {
      assert p[0] in p;
      NoRow(p[0], v);
      NoRetirements(p[1..], v + Exec(p[0], v).value);
    }
  }

  lemma NoRow(st: Stmt, v: DB)
    requires Exec(st, v).Some? && !st.InsertRetirement?
    ensures forall x :: RetirementK(x) !in Exec(st, v).value
  {
  }

  lemma {:induction false} ItemsRetireNothing(series: string, items: seq<L.Allocation>)
    ensures forall st <- AllocateItems(series, items) :: !st.InsertRetirement?
    decreases |items|
  {
    if items != [] { ItemsRetireNothing(series, items[1..]); }
  }

  // The redemption a call retires, if it retires one.
  function Retired(g: G.State, op: G.Op): Option<(Target, string)> {
    match op
    case OpLedger(o) => if o.OpRetire? then Some((ById(o.id), o.id)) else None
    case OpComplete(j, _) => if j in g.jobs.jobs then Some((OfJob(j), g.jobs.jobs[j].redemptionId)) else None
    case _ => None
  }

  lemma BodyRetires(c: Call, g: G.State)
    requires Retired(g, c.op).None? ==> !c.op.OpComplete?
    ensures forall st <- Body(c) :: st.InsertRetirement? ==> Retired(g, c.op).Some? && st.retireTarget == Retired(g, c.op).value.0
  {
    hide L.PositiveAmount, Before, L.Distinct, L.ProofIds, L.NulFree;
    if c.op.OpLedger? {
      match c.op.ledgerOp
      case OpAllocate(series, items) => ItemsRetireNothing(series, items);
      case OpTransfer(r, now, signed) => TransferRetires(r, now, signed, c.keys);
      case _ =>
    }
  }

  lemma TransferRetires(r: L.TransferRequest, now: int, signed: bool, keys: set<string>)
    ensures forall st <- RequestChecks(r.fromAgent, r.transferId, r.nonce, r.amount, r.expiresAt, now, signed, keys) :: !st.InsertRetirement?
    ensures forall st <- TransferRows(r) :: !st.InsertRetirement?
    ensures forall st <- Accept(r.fromAgent, r.seriesId, r.senderSequence, r.amount, r.transferId, r.nonce) + TransferUpdates(r) :: !st.InsertRetirement?
  {
  }

  lemma ProgramRetires(c: Call, g: G.State)
    requires Retired(g, c.op).None? ==> !c.op.OpComplete?
    ensures forall st <- Program(c) :: st.InsertRetirement? ==> Retired(g, c.op).Some? && st.retireTarget == Retired(g, c.op).value.0
  {
    BodyRetires(c, g);
    hide Body, Storable, Retired;
  }

  // An ended redemption stays as it ended.
  lemma EndedStays(g: G.State, op: G.Op, id: string)
    requires LI.RedemptionsOk(g.ledger) && id in g.ledger.redemptions && g.ledger.redemptions[id].status == L.Retired
    ensures var l := G.Apply(g, op).0.ledger; id in l.redemptions && l.redemptions[id].status == L.Retired
  {
    hide L.Apply, L.End, J.Complete, J.Fail, J.SetActive, G.Insert, G.Claim, G.RegisterProvider;
    match op
    case OpLedger(o) => LT.ApplyRemembers(g.ledger, o);
    case OpInsert(q, j, max) => InsertLedger(g, q, j, max);
    case OpClaim(p, c, j, now, leaseMs) => ClaimLedger(g, p, c, j, now, leaseMs);
    case OpRegisterProvider(c, key, recognised) => RegisterLedger(g, c, key, recognised);
    case OpComplete(j, p) => if J.RunningFor(g.jobs, j, p) { LT.ApplyRemembers(g.ledger, L.OpRetire(g.jobs.jobs[j].redemptionId, L.ExecutionReceipt(g.jobs.jobs[j].redemptionId, true))); RetireApplies(g.ledger, g.jobs.jobs[j].redemptionId); }
    case OpFail(j, p, retryable) =>
      var f := J.Fail(g.jobs, j, p, retryable);
      if f.result.Ok? { LT.ApplyRemembers(g.ledger, L.OpRelease(f.result.value.redemptionId)); ReleaseApplies(g.ledger, f.result.value.redemptionId); }
    case _ =>
  }

  lemma InsertLedger(g: G.State, q: L.LockRequest, j: string, maxAttempts: int)
    ensures G.Insert(g, q, j, maxAttempts).0.ledger == g.ledger
  {
  }

  lemma ClaimLedger(g: G.State, p: string, c: string, j: string, now: int, leaseMs: int)
    ensures G.Claim(g, p, c, j, now, leaseMs).0.ledger == g.ledger
  {
  }

  lemma RegisterLedger(g: G.State, c: J.Commitment, key: string, recognised: int)
    ensures G.RegisterProvider(g, c, key, recognised).0.ledger == g.ledger
  {
  }

  lemma RetireApplies(l: L.State, id: string)
    ensures L.Apply(l, L.OpRetire(id, L.ExecutionReceipt(id, true))).0 == L.Retire(l, id, L.ExecutionReceipt(id, true)).state
  {
  }

  lemma ReleaseApplies(l: L.State, id: string)
    ensures L.Apply(l, L.OpRelease(id)).0 == L.Release(l, id).state
  {
  }

  lemma RetiredNow(g: G.State, op: G.Op)
    requires G.Apply(g, op).1 && Retired(g, op).Some?
    ensures var (id, l) := (Retired(g, op).value.1, G.Apply(g, op).0.ledger); id in l.redemptions && l.redemptions[id].status == L.Retired
  {
    hide L.Key;
  }

  lemma CallKeepsRetirements(db: DB, db': DB, g: G.State, c: Call)
    requires Agrees(db, g) && LI.RedemptionsOk(g.ledger) && RetirementsOk(db, g.ledger) && ExecAll(Program(c), db) == Some(db') && G.Apply(g, c.op).1
    ensures RetirementsOk(db', G.Apply(g, c.op).0.ledger)
  {
    var l := G.Apply(g, c.op).0.ledger;
    if c.op.OpComplete? { CompleteKnown(g, c.op); }
    ProgramRetires(c, g);
    hide Program, ExecAll, Agrees, LI.RedemptionsOk, G.Apply;
    if Retired(g, c.op).Some? {
      var (t, id) := Retired(g, c.op).value;
      if c.op.OpComplete? { RowsRead(db, g, c.op.completedId, "", "", ""); }
      NewRetirements(Program(c), db, t, id);
      RetiredNow(g, c.op);
    } else {
      NoRetirements(Program(c), db);
    }
    forall x | RetirementK(x) in db ensures x in l.redemptions && l.redemptions[x].status == L.Retired { EndedStays(g, c.op, x); }
  }

  lemma CompleteKnown(g: G.State, op: G.Op)
    requires G.Apply(g, op).1 && op.OpComplete?
    ensures op.completedId in g.jobs.jobs
  {
  }

  ghost predicate TablesOk(s: System) {
    Inv(s) && Simulates(s) && RetirementsOk(s.db, Machine(s.log).ledger)
  }

  lemma CommitRetirements(s: System, t: nat)
    requires TablesOk(s) && t in s.txns && s.txns[t].pc == |Program(s.txns[t].call)|
    ensures RetirementsOk(Next(s, Commit(t)).db, Machine(Next(s, Commit(t)).log).ledger)
  {
    hide Agrees, LI.Inv, J.Inv, G.Apply, Program, Replay, Accepted, Machine, ExecAll, RetirementsOk;
    assert TxnOk(s, t);
    var c := s.txns[t].call;
    assert Program(c)[..s.txns[t].pc] == Program(c);
    var db' := s.db + s.txns[t].writes;
    CallRefines(s.db, db', Machine(s.log), c);
    SerialIff(s.db, c);
    LogCall(s.log, c);
    InvRedemptions(Machine(s.log).ledger);
    CallKeepsRetirements(s.db, db', Machine(s.log), c);
  }

  lemma InvRedemptions(l: L.State)
    requires LI.Inv(l)
    ensures LI.RedemptionsOk(l)
  {
  }

  lemma PrecheckLedger(log: seq<Call>, c: Call)
    requires c.op.OpPrecheck?
    ensures Machine(log + [c]).ledger == Machine(log).ledger
  {
    assert Ops(log + [c]) == Ops(log) + [c.op];
    G.RunSnoc(G.Empty, Ops(log), c.op);
  }

  lemma NextTables(s: System, e: Event)
    requires TablesOk(s)
    ensures TablesOk(Next(s, e))
  {
    hide Inv, Simulates, RetirementsOk, CanAdvance, CanPrecheck, Program, Machine;
    NextKeeps(s, e);
    NextSimulates(s, e);
    match e
    case Commit(t) =>
      if t in s.txns && s.txns[t].pc >= |Program(s.txns[t].call)| { NotBeyond(s, t); CommitRetirements(s, t); }
    case Precheck(id, digest) => PrecheckLedger(s.log, Call(G.OpPrecheck(id, digest), {}, ""));
    case _ =>
  }

  lemma {:induction false} RunTables(s: System, events: seq<Event>)
    requires TablesOk(s)
    ensures TablesOk(Run(s, events))
    decreases |events|
  {
    hide TablesOk, Next;
    if events != [] {
      NextTables(s, events[0]);
      RunTables(Next(s, events[0]), events[1..]);
    }
  }

  lemma ReachableTables(events: seq<Event>)
    ensures TablesOk(Run(Start, events))
  {
    StartSimulates();
    assert RetirementsOk(map[], Machine([]).ledger);
    RunTables(Start, events);
  }

  // ---------- Accepted calls go through ----------

  // What the tables ask of a call beyond what the registry does.
  predicate Presentable(db: DB, c: Call) {
    && Storable(c)
    && match c.op
       case OpLedger(o) =>
         (match o
          case OpTransfer(r, _, _) => KeyOnRecord(db, r.fromAgent, c.keys)
          case OpLock(q, _, _) => KeyOnRecord(db, q.holderAgent, c.keys)
          case _ => true)
       case _ => true
  }

  lemma LedgerGoes(db: DB, l: L.State, c: Call, o: L.Op)
    requires LedgerAgrees(db, l) && LI.Inv(l) && RetirementsOk(db, l) && c.op == G.OpLedger(o) && L.Apply(l, o).1 && Presentable(db, c)
    ensures ExecAll(Body(c), db).Some?
  {
    InvAccounts(l);
    AgentsNulFree(db, l);
    NulFreeOnes(l);
    hide LedgerAgrees, LI.Inv, LI.AgentsOk, LI.AccountsOk, LI.RedemptionsOk, LI.NulFreeAgents, RetirementsOk, ExecAll, KeyOnRecord;
    hide RequestChecks, TransferRows, Accept, TransferUpdates, LockUpdates, RetireEffects, RefundEffects, AllocateItems, L.Distinct, L.NulFree;
    hide L.Transfer, L.LockRedemption, L.Allocate, L.Retire, L.Release;
    match o
    case OpRegister(a) => RegisterAgentGoes(db, a, c.publicKey);
    case OpBalance(a, s) => Nothing(db);
    case OpAllocate(series, items) => AllocateGoes(db, l, series, items);
    case OpTransfer(r, now, signed) => TransferGoes(db, l, r, now, signed, c.keys);
    case OpLock(q, now, signed) => LockGoes(db, l, q, now, signed, c.keys);
    case OpRetire(id, receipt) => DirectRetireGoes(db, l, id, receipt);
    case OpRelease(id) => DirectReleaseGoes(db, l, id);
  }

  lemma NulFreeOnes(l: L.State)
    requires LI.AgentsOk(l)
    ensures LI.NulFreeAgents(l)
  {
  }

  lemma ClaimAccepts(g: G.State, p: string, c: string, j: string, now: int, leaseMs: int)
    requires G.Claim(g, p, c, j, now, leaseMs).1
    ensures J.Claimable(g.jobs, p, c, j, now)
  {
  }

  lemma LedgerCallGoes(db: DB, g: G.State, c: Call, o: L.Op)
    requires Agrees(db, g) && LI.Inv(g.ledger) && RetirementsOk(db, g.ledger) && c.op == G.OpLedger(o) && G.Apply(g, c.op).1 && Presentable(db, c)
    ensures ExecAll(Body(c), db).Some?
  {
    hide Agrees, LedgerAgrees, LI.Inv, RetirementsOk, ExecAll, Presentable, L.Apply, Body;
    AgreesLedger(db, g);
    LedgerGoes(db, g.ledger, c, o);
  }

  lemma JobCallGoes(db: DB, g: G.State, c: Call)
    requires Agrees(db, g) && LI.Inv(g.ledger) && J.Inv(g.jobs) && RetirementsOk(db, g.ledger)
    requires !c.op.OpLedger? && !c.op.OpPrecheck? && G.Apply(g, c.op).1
    ensures ExecAll(Body(c), db).Some?
  {
    hide Agrees, LedgerAgrees, LI.Inv, J.Inv, RetirementsOk, ExecAll, Exec, L.Apply, J.Claimable, J.Retries;
    hide RequestChecks, TransferRows, Accept, TransferUpdates, LockUpdates, AllocateItems, L.Distinct, L.NulFree;
    hide G.RegisterProvider, G.Insert, G.Claim, G.Complete, G.Fail, J.SetActive, RetireEffects, RefundEffects;
    match c.op
    case OpRegisterProvider(d, key, recognised) => RegisterProviderGoes(db, g, d, key, recognised);
    case OpSetActive(p, active) => SetActiveGoes(db, g, p, active);
    case OpInsert(q, j, maxAttempts) => InsertGoes(db, g, q, j, maxAttempts);
    case OpClaim(p, d, j, now, leaseMs) => ClaimAccepts(g, p, d, j, now, leaseMs); ClaimGoes(db, g, p, d, j, now, leaseMs);
    case OpComplete(j, p) => CompleteGoes(db, g, j, p);
    case OpFail(j, p, retryable) => FailGoes(db, g, j, p, retryable);
  }

  lemma CallGoes(db: DB, g: G.State, c: Call)
    requires Agrees(db, g) && G.BaseInv(g) && RetirementsOk(db, g.ledger) && !c.op.OpPrecheck? && G.Apply(g, c.op).1 && Presentable(db, c)
    ensures ExecAll(Program(c), db).Some?
  {
    assert Storable(c);
    hide Agrees, LI.Inv, J.Inv, RetirementsOk, ExecAll, Presentable, Body, G.Apply, Storable;
    Goes(Guard(Storable(c)), Body(c), db);
    if c.op.OpLedger? { LedgerCallGoes(db, g, c, c.op.ledgerOp); } else { JobCallGoes(db, g, c); }
  }

  lemma GoesPresentable(db: DB, c: Call)
    requires !c.op.OpPrecheck? && ExecAll(Program(c), db).Some?
    ensures Presentable(db, c)
  {
    hide KeyOnRecord, ExecAll, RequestChecks, TransferRows, Accept, TransferUpdates, LockUpdates, Storable, Program;
    BodyRuns(db, c);
    if c.op.OpLedger? {
      match c.op.ledgerOp
      case OpTransfer(r, now, signed) =>
        var u := Halves(RequestChecks(r.fromAgent, r.transferId, r.nonce, r.amount, r.expiresAt, now, signed, c.keys),
                        TransferRows(r) + (Accept(r.fromAgent, r.seriesId, r.senderSequence, r.amount, r.transferId, r.nonce) + TransferUpdates(r)), db);
        ChecksKey(db, r.fromAgent, r.transferId, r.nonce, r.amount, r.expiresAt, now, signed, c.keys);
      case OpLock(q, now, signed) =>
        var u := Halves(RequestChecks(q.holderAgent, q.redemptionId, q.nonce, q.amount, q.expiresAt, now, signed, c.keys),
                        [EnsureAccount(q.holderAgent, q.seriesId)] + (Accept(q.holderAgent, q.seriesId, q.senderSequence, q.amount, q.redemptionId, q.nonce) + LockUpdates(q)), db);
        ChecksKey(db, q.holderAgent, q.redemptionId, q.nonce, q.amount, q.expiresAt, now, signed, c.keys);
      case _ =>
    }
  }

  // In every reachable database a call's statements all succeed, one after another with nobody
  // else running, exactly when the registry and job machine accept the call after the calls
  // committed so far, the key on record verifies its signature, and a new agent's id has no NUL.
  lemma GoesIffAccepted(events: seq<Event>, c: Call)
    requires var s := Run(Start, events); !c.op.OpPrecheck? && (c.op.OpInsert? ==> c.op.request in s.prechecked)
    ensures var s := Run(Start, events); Serial(s.db, c).Some? <==> G.Apply(Machine(s.log), c.op).1 && Presentable(s.db, c)
  {
    var s := Run(Start, events);
    ReachableTables(events);
    hide Run, Agrees, Program, ExecAll, Machine, G.Apply, Presentable, Serial, RetirementsOk, Inv, Accepted, G.BaseInv;
    SerialIff(s.db, c);
    if Serial(s.db, c).Some? {
      CallRefines(s.db, Serial(s.db, c).value, Machine(s.log), c);
      GoesPresentable(s.db, c);
    } else if G.Apply(Machine(s.log), c.op).1 && Presentable(s.db, c) {
      CallGoes(s.db, Machine(s.log), c);
    }
  }

  // The lookup before an insert finds a redemption row exactly when it is locked and has the
  // workload's digest; it then changes no row.
  lemma LookupIff(s: System, id: string, digest: string)
    ensures var t := Next(s, Precheck(id, digest));
      && (|t.log| > |s.log| <==>
            RedemptionIn(s.db, id).Some? && RedemptionIn(s.db, id).value.status == L.Locked && RedemptionIn(s.db, id).value.request.workloadDigest == digest)
      && (|t.log| > |s.log| ==> t == System(s.db, s.txns, s.prechecked + {RedemptionIn(s.db, id).value.request}, s.log + [Call(G.OpPrecheck(id, digest), {}, "")]))
  {
  }

  // ---------- Keys ----------

  // The key of the first committed registration of an agent.
  function FirstKey(log: seq<Call>, a: string): Option<string> {
    if log == [] then None
    else
      var (front, last) := (log[..|log| - 1], log[|log| - 1]);
      if FirstKey(front, a).Some? then FirstKey(front, a)
      else if last.op == G.OpLedger(L.OpRegister(a)) then Some(last.publicKey) else None
  }

  predicate SameAgent(v: DB, u: DB, a: string) {
    (AgentK(a) in u <==> AgentK(a) in v) && (AgentK(a) in v ==> u[AgentK(a)] == v[AgentK(a)])
  }

  lemma StmtAgent(st: Stmt, v: DB, a: string)
    requires Exec(st, v).Some? && !st.InsertAgent?
    ensures SameAgent(v, v + Exec(st, v).value, a)
  {
  }

  lemma {:induction false} ProgramAgent(p: seq<Stmt>, v: DB, a: string)
    requires ExecAll(p, v).Some? && forall st <- p :: !st.InsertAgent?
    ensures SameAgent(v, ExecAll(p, v).value, a)
    decreases |p|
  {
    hide Exec;
    if p != [] {
      assert p[0] in p;
      StmtAgent(p[0], v, a);
      ProgramAgent(p[1..], v + Exec(p[0], v).value, a);
    }
  }

  lemma {:induction false} ItemsRegisterNobody(series: string, items: seq<L.Allocation>)
    ensures forall st <- AllocateItems(series, items) :: !st.InsertAgent?
    decreases |items|
  {
    if items != [] { ItemsRegisterNobody(series, items[1..]); }
  }

  lemma ChecksRegisterNobody(actor: string, id: string, nonce: string, amount: int, expiresAt: int, now: int, signed: bool, keys: set<string>)
    ensures forall st <- RequestChecks(actor, id, nonce, amount, expiresAt, now, signed, keys) :: !st.InsertAgent?
  {
    hide L.PositiveAmount;
  }

  lemma MovesRegisterNobody(r: L.TransferRequest)
    ensures forall st <- TransferRows(r) + (Accept(r.fromAgent, r.seriesId, r.senderSequence, r.amount, r.transferId, r.nonce) + TransferUpdates(r)) :: !st.InsertAgent?
  {
    hide Before;
  }

  lemma LocksRegisterNobody(q: L.LockRequest)
    ensures forall st <- Accept(q.holderAgent, q.seriesId, q.senderSequence, q.amount, q.redemptionId, q.nonce) + LockUpdates(q) :: !st.InsertAgent?
  {
  }

  lemma LedgerRegistersNobody(c: Call, o: L.Op)
    requires c.op == G.OpLedger(o) && !o.OpRegister?
    ensures forall st <- Body(c) :: !st.InsertAgent?
  {
    match o
    case OpAllocate(series, items) =>
      ItemsRegisterNobody(series, items);
      hide AllocateItems, L.Distinct, L.ProofIds;
    case OpTransfer(r, now, signed) =>
      ChecksRegisterNobody(r.fromAgent, r.transferId, r.nonce, r.amount, r.expiresAt, now, signed, c.keys);
      MovesRegisterNobody(r);
      hide RequestChecks, TransferRows, Accept, TransferUpdates;
    case OpLock(q, now, signed) =>
      ChecksRegisterNobody(q.holderAgent, q.redemptionId, q.nonce, q.amount, q.expiresAt, now, signed, c.keys);
      LocksRegisterNobody(q);
      hide RequestChecks, Accept, LockUpdates;
    case _ =>
  }

  lemma JobsRegisterNobody(c: Call)
    requires !c.op.OpLedger?
    ensures forall st <- Body(c) :: !st.InsertAgent?
  {
  }

  lemma OthersRegisterNobody(c: Call)
    requires !(c.op.OpLedger? && c.op.ledgerOp.OpRegister?)
    ensures forall st <- Program(c) :: !st.InsertAgent?
  {
    hide Storable, Body;
    if c.op.OpLedger? { LedgerRegistersNobody(c, c.op.ledgerOp); } else { JobsRegisterNobody(c); }
  }

  lemma RegisterRow(db: DB, c: Call, b: string, a: string)
    requires c.op == G.OpLedger(L.OpRegister(b)) && ExecAll(Program(c), db).Some?
    ensures var u := ExecAll(Program(c), db).value;
      if a == b && AgentK(a) !in db then AgentK(a) in u && u[AgentK(a)] == AgentR(c.publicKey) else SameAgent(db, u, a)
  {
    BodyRuns(db, c);
    hide Storable, Program;
    var s0, s1 := Guard(b != "" && L.NulFree(b)), InsertAgent(b, c.publicKey);
    assert [s0, s1] == [s0] + ([s1] + []);
    var v := First(s0, [s1] + [], db);
    var u := First(s1, [], v);
    Nothing(u);
  }

  lemma {:induction false} KeysOfRun(log: seq<Call>, a: string)
    requires SerialRun(log).Some?
    ensures var db := SerialRun(log).value;
      && (AgentK(a) in db <==> FirstKey(log, a).Some?)
      && (AgentK(a) in db ==> db[AgentK(a)] == AgentR(FirstKey(log, a).value))
    decreases |log|
  {
    if log != [] {
      var (front, c) := (log[..|log| - 1], log[|log| - 1]);
      KeysOfRun(front, a);
      var db := SerialRun(front).value;
      hide Program, ExecAll;
      SerialIff(db, c);
      if c.op.OpLedger? && c.op.ledgerOp.OpRegister? {
        RegisterRow(db, c, c.op.ledgerOp.agent, a);
      } else {
        OthersRegisterNobody(c);
        ProgramAgent(Program(c), db, a);
      }
    }
  }

  // An agent is on record exactly when a registration of it has committed, and always with the
  // key of the first.
  lemma KeyStays(events: seq<Event>, a: string)
    ensures var s := Run(Start, events);
      && (AgentK(a) in s.db <==> FirstKey(s.log, a).Some?)
      && (AgentK(a) in s.db ==> s.db[AgentK(a)] == AgentR(FirstKey(s.log, a).value))
  {
    Serializable(events);
    KeysOfRun(Run(Start, events).log, a);
  }

  // ---------- A transaction alone ----------

  function Advances(t: nat, n: nat): seq<Event> {
    if n == 0 then [] else [Advance(t)] + Advances(t, n - 1)
  }

  // One transaction from its first statement to its commit, with nothing in between.
  function Alone(t: nat, c: Call): seq<Event> {
    [Begin(t, c)] + (Advances(t, |Program(c)|) + [Commit(t)])
  }

  function Only(s: System, t: nat, x: Txn): System {
    s.(txns := map[t := x])
  }

  // The provider of a claim is active.
  predicate ClaimantActive(db: DB, c: Call) {
    c.op.OpClaim? ==> ProviderIn(db, c.op.claimant).Some? && ProviderIn(db, c.op.claimant).value.active
  }

  lemma {:induction false} PrefixReplays(p: seq<Stmt>, db: DB, k: nat)
    requires Replay(p, db).Some? && k <= |p|
    ensures Replay(p[..k], db).Some? && Replay(p[..k], db).value.0.Keys <= Replay(p, db).value.0.Keys
    decreases |p|
  {
    if k == |p| {
      assert p[..k] == p;
    } else {
      assert p[..|p| - 1][..k] == p[..k];
      PrefixReplays(p[..|p| - 1], db, k);
    }
  }

  lemma NextReplay(p: seq<Stmt>, db: DB, k: nat)
    requires k < |p| && Replay(p[..k + 1], db).Some?
    ensures Replay(p[..k], db).Some?
    ensures var (w, locks) := Replay(p[..k], db).value;
      Exec(p[k], db + w).Some? && Replay(p[..k + 1], db) == Some((w + Exec(p[k], db + w).value, locks + Touches(p[k], db + w)))
  {
    hide Exec, Touches;
    assert p[..k + 1][..k] == p[..k] && p[..k + 1][k] == p[k];
  }

  lemma {:induction false} ItemsPeekNothing(series: string, items: seq<L.Allocation>)
    ensures forall st <- AllocateItems(series, items) :: !st.PeekRequest? && !st.PickJob?
    decreases |items|
  {
    if items != [] { ItemsPeekNothing(series, items[1..]); }
  }

  lemma TransferPeeks(c: Call, r: L.TransferRequest, now: int, signed: bool, k: nat)
    requires c.op == G.OpLedger(L.OpTransfer(r, now, signed)) && k < |Program(c)|
    ensures |Program(c)| > 11 && Program(c)[11] == InsertRequest(r.transferId, r.nonce) && !Program(c)[k].PickJob?
    ensures Program(c)[k].PeekRequest? ==> k < 11 && Program(c)[k] == PeekRequest(r.transferId, r.nonce)
  {
    hide L.PositiveAmount, Before, Storable;
  }

  lemma LockPeeks(c: Call, q: L.LockRequest, now: int, signed: bool, k: nat)
    requires c.op == G.OpLedger(L.OpLock(q, now, signed)) && k < |Program(c)|
    ensures |Program(c)| > 7 && Program(c)[7] == InsertRequest(q.redemptionId, q.nonce) && !Program(c)[k].PickJob?
    ensures Program(c)[k].PeekRequest? ==> k < 7 && Program(c)[k] == PeekRequest(q.redemptionId, q.nonce)
  {
    hide L.PositiveAmount, Storable;
  }

  lemma LedgerPeeksNothing(c: Call, o: L.Op)
    requires c.op == G.OpLedger(o) && !o.OpTransfer? && !o.OpLock?
    ensures forall st <- Body(c) :: !st.PeekRequest? && !st.PickJob?
  {
    if o.OpAllocate? {
      ItemsPeekNothing(o.series, o.items);
      hide AllocateItems, L.Distinct, L.ProofIds;
    }
  }

  lemma JobsPeekNothing(c: Call)
    requires !c.op.OpLedger? && !c.op.OpClaim?
    ensures forall st <- Body(c) :: !st.PeekRequest? && !st.PickJob?
  {
  }

  lemma OthersPeekNothing(c: Call, k: nat)
    requires k < |Program(c)| && !(c.op.OpLedger? && (c.op.ledgerOp.OpTransfer? || c.op.ledgerOp.OpLock?))
    ensures !Program(c)[k].PeekRequest?
    ensures Program(c)[k].PickJob? ==> k == 1 && c.op.OpClaim? && Program(c)[k].claimant == c.op.claimant
  {
    hide Storable;
    if c.op.OpClaim? {
      ClaimProgram(c);
    } else {
      if c.op.OpLedger? { LedgerPeeksNothing(c, c.op.ledgerOp); } else { JobsPeekNothing(c); }
      hide Body;
      if k > 0 { assert Program(c)[k] == Body(c)[k - 1] && Body(c)[k - 1] in Body(c); }
    }
  }

  // A request that is looked up without a lock is inserted later, and a claim picks first.
  lemma PeekedLater(c: Call, k: nat) returns (m: nat)
    requires k < |Program(c)|
    ensures Program(c)[k].PeekRequest? ==> k < m < |Program(c)| && Program(c)[m] == InsertRequest(Program(c)[k].peekId, Program(c)[k].peekNonce)
    ensures Program(c)[k].PickJob? ==> k == 1 && c.op.OpClaim? && Program(c)[k].claimant == c.op.claimant
  {
    hide Program;
    m := 0;
    if c.op.OpLedger? && c.op.ledgerOp.OpTransfer? {
      TransferPeeks(c, c.op.ledgerOp.transfer, c.op.ledgerOp.now, c.op.ledgerOp.signed, k);
      m := 11;
    } else if c.op.OpLedger? && c.op.ledgerOp.OpLock? {
      LockPeeks(c, c.op.ledgerOp.lock, c.op.ledgerOp.now, c.op.ledgerOp.signed, k);
      m := 7;
    } else {
      OthersPeekNothing(c, k);
    }
  }

  // What a later insert does not find was not there before.
  lemma AbsentEarlier(p: seq<Stmt>, db: DB, k: nat, m: nat, id: string, nonce: string)
    requires k < m < |p| && p[m] == InsertRequest(id, nonce) && Replay(p, db).Some?
    ensures Replay(p[..k], db).Some?
    ensures var v := db + Replay(p[..k], db).value.0; RequestK(id) !in v && NonceK(nonce) !in v
  {
    PrefixReplays(p, db, m + 1);
    NextReplay(p, db, m);
    PrefixReplays(p[..m], db, k);
    assert p[..m][..k] == p[..k];
    hide Replay;
    Inserts(id, nonce, db + Replay(p[..m], db).value.0);
  }

  lemma Inserts(id: string, nonce: string, v: DB)
    requires Exec(InsertRequest(id, nonce), v).Some?
    ensures RequestK(id) !in v && NonceK(nonce) !in v
  {
  }

  lemma PeekGoes(db: DB, c: Call, k: nat)
    requires k < |Program(c)| && Replay(Program(c), db).Some? && ClaimantActive(db, c)
    ensures Replay(Program(c)[..k], db).Some? && PeekPasses(Program(c)[k], db + Replay(Program(c)[..k], db).value.0)
  {
    hide Program, Exec, Replay;
    var p := Program(c);
    var m := PeekedLater(c, k);
    PrefixReplays(p, db, k);
    if p[k].PeekRequest? {
      AbsentEarlier(p, db, k, m, p[k].peekId, p[k].peekNonce);
    } else if p[k].PickJob? {
      GuardWrites(c, db);
    }
  }

  // The first statement writes nothing.
  lemma GuardWrites(c: Call, db: DB)
    requires 0 < |Program(c)| && Replay(Program(c)[..1], db).Some?
    ensures db + Replay(Program(c)[..1], db).value.0 == db
  {
    hide Body, Storable;
    var p := Program(c)[..1];
    assert p[..0] == [] && p[0] == Guard(Storable(c));
    assert db + map[] == db;
  }

  lemma FirstEvent(s: System, e: Event, rest: seq<Event>)
    ensures Run(s, [e] + rest) == Run(Next(s, e), rest)
  {
    hide Next;
    assert ([e] + rest)[1..] == rest;
  }

  lemma CommitsOnly(s: System, t: nat, c: Call, w: DB, locks: set<RowKey>)
    ensures Run(Only(s, t, Txn(c, |Program(c)|, w, locks)), [Commit(t)]) == System(s.db + w, map[], s.prechecked, s.log + [c])
  {
    hide Program;
    var u := Only(s, t, Txn(c, |Program(c)|, w, locks));
    assert u.txns - {t} == map[];
    assert [Commit(t)] == [Commit(t)] + [];
    FirstEvent(u, Commit(t), []);
  }

  lemma {:induction false} RunsThrough(s: System, t: nat, c: Call, k: nat)
    requires k <= |Program(c)| && Replay(Program(c), s.db).Some? && ClaimantActive(s.db, c)
    ensures Replay(Program(c)[..k], s.db).Some?
    ensures var (w, locks) := Replay(Program(c)[..k], s.db).value;
      Run(Only(s, t, Txn(c, k, w, locks)), Advances(t, |Program(c)| - k) + [Commit(t)])
      == System(s.db + Replay(Program(c), s.db).value.0, map[], s.prechecked, s.log + [c])
    decreases |Program(c)| - k
  {
    hide Program, Exec, Touches, PeekPasses, ClaimantActive, Next, Run, Replay, Only;
    var p := Program(c);
    PrefixReplays(p, s.db, k);
    var (w, locks) := Replay(p[..k], s.db).value;
    if k == |p| {
      assert p[..k] == p;
      assert Advances(t, 0) + [Commit(t)] == [Commit(t)];
      CommitsOnly(s, t, c, w, locks);
    } else {
      PrefixReplays(p, s.db, k + 1);
      NextReplay(p, s.db, k);
      PeekGoes(s.db, c, k);
      RunsThrough(s, t, c, k + 1);
      var rest := Advances(t, |p| - (k + 1)) + [Commit(t)];
      assert Advances(t, |p| - k) + [Commit(t)] == [Advance(t)] + rest;
      OneAdvance(s, t, c, k, w, locks);
      FirstEvent(Only(s, t, Txn(c, k, w, locks)), Advance(t), rest);
    }
  }

  lemma OneAdvance(s: System, t: nat, c: Call, k: nat, w: DB, locks: set<RowKey>)
    requires k < |Program(c)| && Exec(Program(c)[k], s.db + w).Some? && PeekPasses(Program(c)[k], s.db + w)
    ensures var (st, v) := (Program(c)[k], s.db + w);
      Next(Only(s, t, Txn(c, k, w, locks)), Advance(t)) == Only(s, t, Txn(c, k + 1, w + Exec(st, v).value, locks + Touches(st, v)))
  {
    hide Program, Exec, Touches, PeekPasses;
  }

  // Advancing only moves the transaction.
  lemma {:induction false} AdvancesKeep(s: System, t: nat, n: nat)
    requires t in s.txns && Inv(s)
    ensures var u := Run(s, Advances(t, n)); Inv(u) && u.db == s.db && u.log == s.log && t in u.txns && u.txns[t].call == s.txns[t].call
    ensures !CanAdvance(s, t) ==> Run(s, Advances(t, n)) == s
    decreases n
  {
    hide CanAdvance, Inv, Program, Exec, Touches;
    if n > 0 {
      assert Advances(t, n)[0] == Advance(t) && Advances(t, n)[1..] == Advances(t, n - 1);
      NextKeeps(s, Advance(t));
      AdvancesKeep(Next(s, Advance(t)), t, n - 1);
    }
  }

  lemma LastCommit(s: System, t: nat, events: seq<Event>)
    ensures Run(s, events + [Commit(t)]) == Next(Run(s, events), Commit(t))
  {
    PT.RunEvents(s, events, [Commit(t)]);
    assert [Commit(t)][1..] == [];
    assert Run(Run(s, events), [Commit(t)]) == Run(Next(Run(s, events), Commit(t)), []);
  }

  lemma GrowsOnly(s: System, t: nat, c: Call)
    requires Inv(s) && s.txns == map[] && CanBegin(s, t, c) && Run(s, Alone(t, c)).log == s.log + [c]
    ensures Serial(s.db, c).Some? && ClaimantActive(s.db, c)
  {
    var b := Next(s, Begin(t, c));
    var p := Program(c);
    NextKeeps(s, Begin(t, c));
    hide Inv, Program, Exec, Touches, CanBegin, CanAdvance;
    assert Alone(t, c)[1..] == Advances(t, |p|) + [Commit(t)] && Alone(t, c)[0] == Begin(t, c);
    AdvancesKeep(b, t, |p|);
    LastCommit(b, t, Advances(t, |p|));
    var u := Run(b, Advances(t, |p|));
    assert u.txns[t].pc >= |p|;
    CommittedRan(u, t);
    if !ClaimantActive(s.db, c) { InactiveStuck(b, t, |p|); }
  }

  lemma CommittedRan(s: System, t: nat)
    requires Inv(s) && t in s.txns && s.txns[t].pc >= |Program(s.txns[t].call)|
    ensures Serial(s.db, s.txns[t].call).Some?
  {
    hide Program;
    assert TxnOk(s, t);
    var p := Program(s.txns[t].call);
    assert p[..|p|] == p;
  }

  // The claim of a provider that is not active never gets past its pick.
  lemma InactiveStuck(s: System, t: nat, n: nat)
    requires Inv(s) && t in s.txns && s.txns[t].pc == 0 && s.txns[t].writes == map[] && !ClaimantActive(s.db, s.txns[t].call)
    ensures var u := Run(s, Advances(t, n)); t in u.txns && u.txns[t].pc < |Program(s.txns[t].call)|
  {
    var c := s.txns[t].call;
    ClaimProgram(c);
    AdvancesKeep(s, t, n);
    if n > 0 && CanAdvance(s, t) {
      var u := Next(s, Advance(t));
      NextKeeps(s, Advance(t));
      GuardFirst(s, t);
      hide CanAdvance, Inv, Program;
      assert Advances(t, n)[0] == Advance(t) && Advances(t, n)[1..] == Advances(t, n - 1);
      AdvancesKeep(u, t, n - 1);
    }
  }

  lemma ClaimProgram(c: Call)
    requires c.op.OpClaim?
    ensures |Program(c)| == 4 && Program(c)[0] == Guard(Storable(c))
    ensures Program(c)[1] == PickJob(c.op.claimant, c.op.commitmentId, c.op.claimedId, c.op.now)
  {
    hide Storable;
  }

  lemma GuardFirst(s: System, t: nat)
    requires t in s.txns && s.txns[t].pc == 0 && s.txns[t].writes == map[] && !ClaimantActive(s.db, s.txns[t].call) && CanAdvance(s, t)
    ensures var u := Next(s, Advance(t)); t in u.txns && u.txns[t].pc == 1 && u.txns[t].call == s.txns[t].call && u.db == s.db && !CanAdvance(u, t)
  {
    ClaimProgram(s.txns[t].call);
    hide Program, Touches;
    assert s.db + map[] == s.db;
  }

  // On quiet tables a call commits exactly when the registry and job machine accept it after the
  // calls committed so far, the key on record verifies its signature, a new agent's id has no
  // NUL, and a claim's provider is active.
  lemma AloneCommitsIff(events: seq<Event>, t: nat, c: Call)
    requires var s := Run(Start, events); s.txns == map[] && CanBegin(s, t, c)
    ensures var s := Run(Start, events);
      Run(s, Alone(t, c)).log == s.log + [c] <==> G.Apply(Machine(s.log), c.op).1 && Presentable(s.db, c) && ClaimantActive(s.db, c)
  {
    var s := Run(Start, events);
    ReachableTables(events);
    GoesIffAccepted(events, c);
    if Run(s, Alone(t, c)).log == s.log + [c] {
      GrowsOnly(s, t, c);
    } else if G.Apply(Machine(s.log), c.op).1 && Presentable(s.db, c) && ClaimantActive(s.db, c) {
      RunsAlone(s, t, c);
    }
  }

  lemma RunsAlone(s: System, t: nat, c: Call)
    requires s.txns == map[] && CanBegin(s, t, c) && Serial(s.db, c).Some? && ClaimantActive(s.db, c)
    ensures Run(s, Alone(t, c)) == System(Serial(s.db, c).value, map[], s.prechecked, s.log + [c])
  {
    hide Program, Exec, ClaimantActive;
    RunsThrough(s, t, c, 0);
    assert Program(c)[..0] == [];
    assert Alone(t, c)[1..] == Advances(t, |Program(c)|) + [Commit(t)] && Alone(t, c)[0] == Begin(t, c);
    assert Next(s, Begin(t, c)) == Only(s, t, Txn(c, 0, map[], {}));
  }
}
