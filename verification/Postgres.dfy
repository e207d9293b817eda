/** The PostgreSQL registry and job store as interleaved transactions. */
module Postgres {
  // Tables are one map from row keys to rows; a unique index is a row key of its own. A
  // transaction runs its statements one at a time on the committed rows overlaid with its own
  // writes, holds a lock on every row it has locked or written until it ends, and makes its
  // writes visible at commit; an abort, at any point, leaves no trace.
  import opened Results
  import L = Ledger
  import J = Jobs
  import G = Joint

  datatype RowKey =
    | AgentK(agent: string)
    | AccountK(holder: string, series: string)
    | ProofK(proof: string)
    | RequestK(request: string)
    | NonceK(nonce: string)
    | RedemptionK(redemption: string)
    | RetirementK(retired: string)
    | ProviderK(provider: string)
    | CommitmentK(commitment: string)
    | JobK(job: string)
    | JobRedemptionK(redemptionOfJob: string)

  datatype Row =
    | AgentR(publicKey: string)
    | AccountR(account: L.Account)
    | ProofR(seriesId: string, amount: int)
    | MarkR
    | RedemptionR(record: L.Redemption)
    | ProviderR(state: J.Provider)
    | CommitmentR(capacity: J.Capacity)
    | JobR(work: J.Job)

  type DB = map<RowKey, Row>

  // Which redemption a statement is about: one named by the caller, or a job's. A failing
  // job that is retried leaves its redemption alone.
  datatype Target = ById(id: string) | OfJob(jobId: string) | OfFailedJob(failedId: string, retryable: bool)

  datatype Stmt =
    | Guard(holds: bool)
    | InsertAgent(newAgent: string, newKey: string)
    | HasAgent(agent: string)
    | Signed(actor: string, keys: set<string>)
    | PeekRequest(peekId: string, peekNonce: string)
    | EnsureAccount(holder: string, series: string)
    | LockAccount(lockedHolder: string, lockedSeries: string)
    | CheckAccount(checkedHolder: string, checkedSeries: string, sequence: int, atLeast: int)
    | InsertRequest(requestId: string, nonce: string)
    | UpdateAccount(updatedHolder: string, updatedSeries: string, balance: int, locked: int, steps: int)
    | UpsertBalance(creditedHolder: string, creditedSeries: string, credit: int)
    | InsertProof(proofId: string, proofSeries: string, proofAmount: int)
    | InsertRedemption(lockRequest: L.LockRequest)
    | LockRedemption(lockTarget: Target)
    | Settle(settleTarget: Target, outcome: L.Status)
    | SetStatus(statusTarget: Target, newStatus: L.Status)
    | InsertRetirement(retireTarget: Target)
    | UpsertProvider(providerId: string, providerKey: string)
    | InsertCommitment(newCommitment: J.Commitment, recognised: int)
    | SetProvider(setId: string, active: bool)
    | InsertJob(snapshot: L.LockRequest, newJobId: string, maxAttempts: int)
    | PickJob(claimant: string, commitmentId: string, pickedId: string, now: int)
    | Reserve(reservedId: string, reservedFor: string)
    | StartJob(startedId: string, starter: string, startedOn: string, lease: int)
    | LockRunning(runningId: string, runner: string)
    | CompleteJob(completedId: string)
    | ReturnCapacity(returningId: string)
    | FailJob(failingId: string, retry: bool)

  // ---------- Reading rows ----------

  function AccountIn(v: DB, holder: string, series: string): Option<L.Account> {
    var k := AccountK(holder, series);
    if k in v && v[k].AccountR? then Some(v[k].account) else None
  }

  function RedemptionIn(v: DB, id: string): Option<L.Redemption> {
    var k := RedemptionK(id);
    if k in v && v[k].RedemptionR? then Some(v[k].record) else None
  }

  function JobIn(v: DB, id: string): Option<J.Job> {
    if JobK(id) in v && v[JobK(id)].JobR? then Some(v[JobK(id)].work) else None
  }

  function CapacityIn(v: DB, id: string): Option<J.Capacity> {
    if CommitmentK(id) in v && v[CommitmentK(id)].CommitmentR? then Some(v[CommitmentK(id)].capacity) else None
  }

  function ProviderIn(v: DB, id: string): Option<J.Provider> {
    if ProviderK(id) in v && v[ProviderK(id)].ProviderR? then Some(v[ProviderK(id)].state) else None
  }

  // The redemption meant, or nothing when the statement is skipped or the job is missing.
  function Resolve(t: Target, v: DB): Option<string> {
    match t
    case ById(id) => Some(id)
    case OfJob(j) => if JobIn(v, j).Some? then Some(JobIn(v, j).value.redemptionId) else None
    case OfFailedJob(j, retryable) =>
      if JobIn(v, j).Some? && !J.Retries(JobIn(v, j).value, retryable) then Some(JobIn(v, j).value.redemptionId) else None
  }

  function TargetRows(t: Target): set<RowKey> {
    match t
    case ById(_) => {}
    case OfJob(j) => {JobK(j)}
    case OfFailedJob(j, _) => {JobK(j)}
  }

  // The account of a redemption's holder.
  function HolderRow(r: L.Redemption): RowKey {
    AccountK(r.request.holderAgent, r.request.seriesId)
  }

  // ---------- Statements ----------

  // The check constraints of an account row.
  predicate AccountCheck(a: L.Account) {
    0 <= a.locked <= a.balance && 0 <= a.sequence
  }

  // The rows a statement locks: those it selects FOR UPDATE, inserts or updates.
  function Touches(st: Stmt, v: DB): set<RowKey> {
    match st
    case Guard(_) => {}
    case InsertAgent(a, _) => {AgentK(a)}
    case HasAgent(_) => {}
    case Signed(_, _) => {}
    case PeekRequest(_, _) => {}
    case EnsureAccount(h, s) => if AccountK(h, s) in v then {} else {AccountK(h, s)}
    case LockAccount(h, s) => {AccountK(h, s)}
    case CheckAccount(h, s, _, _) => {AccountK(h, s)}
    case InsertRequest(id, nonce) => {RequestK(id), NonceK(nonce)}
    case UpdateAccount(h, s, _, _, _) => {AccountK(h, s)}
    case UpsertBalance(h, s, _) => {AccountK(h, s)}
    case InsertProof(p, _, _) => {ProofK(p)}
    case InsertRedemption(q) => {RedemptionK(q.redemptionId)}
    case LockRedemption(t) => TargetRows(t) + RedemptionRows(t, v)
    case Settle(t, _) => TargetRows(t) + RedemptionRows(t, v) + HolderRows(t, v)
    case SetStatus(t, _) => TargetRows(t) + RedemptionRows(t, v)
    case InsertRetirement(t) => TargetRows(t) + RedemptionRows(t, v) + RetirementRows(t, v)
    case UpsertProvider(p, _) => {ProviderK(p)}
    case InsertCommitment(c, _) => {CommitmentK(c.commitmentId)}
    case SetProvider(p, _) => {ProviderK(p)}
    case InsertJob(q, j, _) => {JobK(j), JobRedemptionK(q.redemptionId)}
    case PickJob(_, c, j, _) => {JobK(j), CommitmentK(c)}
    case Reserve(c, j) => {JobK(j), CommitmentK(c)}
    case StartJob(j, _, _, _) => {JobK(j)}
    case LockRunning(j, _) => {JobK(j)}
    case CompleteJob(j) => {JobK(j)}
    case ReturnCapacity(j) => {JobK(j)} + CommitmentRows(j, v)
    case FailJob(j, _) => {JobK(j)}
  }

  function RedemptionRows(t: Target, v: DB): set<RowKey> {
    if Resolve(t, v).Some? then {RedemptionK(Resolve(t, v).value)} else {}
  }

  function RetirementRows(t: Target, v: DB): set<RowKey> {
    if Resolve(t, v).Some? then {RetirementK(Resolve(t, v).value)} else {}
  }

  function HolderRows(t: Target, v: DB): set<RowKey> {
    if Resolve(t, v).Some? && RedemptionIn(v, Resolve(t, v).value).Some?
    then {HolderRow(RedemptionIn(v, Resolve(t, v).value).value)} else {}
  }

  function CommitmentRows(j: string, v: DB): set<RowKey> {
    if JobIn(v, j).Some? && JobIn(v, j).value.commitmentId.Some? then {CommitmentK(JobIn(v, j).value.commitmentId.value)} else {}
  }

  // What is written, or nothing if the statement fails. An UPDATE that matches no row
  // writes nothing and succeeds.
  function Exec(st: Stmt, v: DB): Option<DB> {
    match st
    case Guard(holds) => if holds then Some(map[]) else None
    case InsertAgent(a, key) => if AgentK(a) in v then Some(map[]) else Some(map[AgentK(a) := AgentR(key)])
    case HasAgent(a) => if AgentK(a) in v then Some(map[]) else None
    case Signed(a, keys) => if AgentK(a) in v && v[AgentK(a)].AgentR? && v[AgentK(a)].publicKey in keys then Some(map[]) else None
    case PeekRequest(_, _) => Some(map[])
    case EnsureAccount(h, s) => if AccountK(h, s) in v then Some(map[]) else Some(map[AccountK(h, s) := AccountR(L.ZeroAccount)])
    case LockAccount(h, s) => if AccountK(h, s) in v then Some(map[]) else None
    case CheckAccount(h, s, sequence, atLeast) =>
      (match AccountIn(v, h, s)
       case None => None
       case Some(a) => if a.sequence == sequence && a.balance - a.locked >= atLeast then Some(map[]) else None)
    case InsertRequest(id, nonce) => if RequestK(id) in v || NonceK(nonce) in v then None else Some(map[RequestK(id) := MarkR, NonceK(nonce) := MarkR])
    case UpdateAccount(h, s, balance, locked, steps) =>
      (match AccountIn(v, h, s)
       case None => Some(map[])
       case Some(a) =>
         var b := L.Account(a.balance + balance, a.locked + locked, a.sequence + steps);
         if AccountCheck(b) then Some(map[AccountK(h, s) := AccountR(b)]) else None)
    case UpsertBalance(h, s, credit) =>
      var a := if AccountIn(v, h, s).Some? then AccountIn(v, h, s).value else L.ZeroAccount;
      var b := a.(balance := a.balance + credit);
      if AccountCheck(b) then Some(map[AccountK(h, s) := AccountR(b)]) else None
    case InsertProof(p, s, amount) => if ProofK(p) in v then None else Some(map[ProofK(p) := ProofR(s, amount)])
    case InsertRedemption(q) =>
      if RedemptionK(q.redemptionId) in v then None
      else Some(map[RedemptionK(q.redemptionId) := RedemptionR(L.Redemption(q, L.Locked))])
    case LockRedemption(t) =>
      if t.OfFailedJob? && JobIn(v, t.failedId).Some? && J.Retries(JobIn(v, t.failedId).value, t.retryable) then Some(map[])
      else (match Resolve(t, v)
            case None => None
            case Some(id) =>
              var r := RedemptionIn(v, id);
              if r.Some? && r.value.status == L.Locked then Some(map[]) else None)
    case Settle(t, outcome) =>
      (match Resolve(t, v)
       case None => Some(map[])
       case Some(id) =>
         (match RedemptionIn(v, id)
          case None => Some(map[])
          case Some(r) =>
            (match AccountIn(v, r.request.holderAgent, r.request.seriesId)
             case None => Some(map[])
             case Some(a) =>
               var spent := if outcome == L.Retired then r.request.amount else 0;
               var b := L.Account(a.balance - spent, a.locked - r.request.amount, a.sequence);
               if AccountCheck(b) then Some(map[HolderRow(r) := AccountR(b)]) else None)))
    case SetStatus(t, status) =>
      (match Resolve(t, v)
       case None => Some(map[])
       case Some(id) =>
         (match RedemptionIn(v, id)
          case None => Some(map[])
          case Some(r) => Some(map[RedemptionK(id) := RedemptionR(r.(status := status))])))
    case InsertRetirement(t) =>
      (match Resolve(t, v)
       case None => None
       case Some(id) =>
         if RetirementK(id) in v || RedemptionIn(v, id).None? then None
         else
           var r := RedemptionIn(v, id).value.request;
           Some(map[RetirementK(id) := ProofR(r.seriesId, r.amount)]))
    case UpsertProvider(p, key) =>
      (match ProviderIn(v, p)
       case None => Some(map[ProviderK(p) := ProviderR(J.Provider(key, true))])
       case Some(known) => if known.publicKey == key then Some(map[ProviderK(p) := ProviderR(known)]) else None)
    case InsertCommitment(c, recognised) =>
      if CommitmentK(c.commitmentId) in v || recognised <= 0 || c.availableUntil <= c.availableFrom then None
      else Some(map[CommitmentK(c.commitmentId) := CommitmentR(J.Capacity(c, recognised, recognised))])
    case SetProvider(p, active) =>
      if ProviderIn(v, p).None? then None else Some(map[ProviderK(p) := ProviderR(ProviderIn(v, p).value.(active := active))])
    case InsertJob(q, j, maxAttempts) =>
      if JobK(j) in v || JobRedemptionK(q.redemptionId) in v || maxAttempts <= 0 then None
      else Some(map[JobK(j) := JobR(J.NewJob(G.InputOf(q, j, maxAttempts))), JobRedemptionK(q.redemptionId) := MarkR])
    case PickJob(p, c, j, now) =>
      var job, cap := JobIn(v, j), CapacityIn(v, c);
      if job.Some? && cap.Some? && J.Open(cap.value, p, now) && J.Fits(job.value, cap.value) then Some(map[]) else None
    case Reserve(c, j) =>
      (match (JobIn(v, j), CapacityIn(v, c))
       case (Some(job), Some(cap)) =>
         var left := cap.(remaining := cap.remaining - job.amount);
         if 0 <= left.remaining <= left.recognised then Some(map[CommitmentK(c) := CommitmentR(left)]) else None
       case _ => None)
    case StartJob(j, p, c, lease) =>
      if JobIn(v, j).None? then None else Some(map[JobK(j) := JobR(J.Claimed(JobIn(v, j).value, p, c, lease))])
    case LockRunning(j, p) =>
      var job := JobIn(v, j);
      if job.Some? && job.value.status == J.Running && job.value.providerId == Some(p) then Some(map[]) else None
    case CompleteJob(j) =>
      if JobIn(v, j).None? then None else Some(map[JobK(j) := JobR(JobIn(v, j).value.(status := J.Completed, leaseExpiresAt := None))])
    case ReturnCapacity(j) =>
      (match JobIn(v, j)
       case None => None
       case Some(job) =>
         if job.commitmentId.None? || CapacityIn(v, job.commitmentId.value).None? then Some(map[])
         else
           var c := job.commitmentId.value;
           var cap := CapacityIn(v, c).value;
           var more := cap.(remaining := cap.remaining + job.amount);
           if 0 <= more.remaining <= more.recognised then Some(map[CommitmentK(c) := CommitmentR(more)]) else None)
    case FailJob(j, retryable) =>
      if JobIn(v, j).None? then None else Some(map[JobK(j) := JobR(J.Failed(JobIn(v, j).value, retryable))])
  }

  // The tests that read other rows without a lock; they may be stale by commit.
  predicate PeekPasses(st: Stmt, v: DB) {
    match st
    case PeekRequest(id, nonce) => RequestK(id) !in v && NonceK(nonce) !in v
    case PickJob(p, _, _, _) => ProviderIn(v, p).Some? && ProviderIn(v, p).value.active
    case _ => true
  }

  // ---------- Transactions ----------

  // A call, with the keys its signature verifies under, and for a registration its own key.
  datatype Call = Call(op: G.Op, keys: set<string>, publicKey: string)

  // Account rows are locked in the order of their agent ids.
  predicate Before(a: string, b: string) {
    if a == [] then true
    else if b == [] then false
    else a[0] < b[0] || (a[0] == b[0] && Before(a[1..], b[1..]))
  }

  function AllocateItem(series: string, i: L.Allocation): seq<Stmt> {
    [Guard(SafeInteger(i.amount) && 0 <= i.amount), HasAgent(i.recipient),
     InsertProof(i.proofId, series, i.amount), UpsertBalance(i.recipient, series, i.amount)]
  }

  function AllocateItems(series: string, items: seq<L.Allocation>): seq<Stmt> {
    if items == [] then [] else AllocateItem(series, items[0]) + AllocateItems(series, items[1..])
  }

  function RequestChecks(actor: string, id: string, nonce: string, amount: int, expiresAt: int, now: int, signed: bool, keys: set<string>): seq<Stmt> {
    [Guard(L.PositiveAmount(amount) && signed), Signed(actor, keys), Guard(now < expiresAt), PeekRequest(id, nonce)]
  }

  function TransferRows(r: L.TransferRequest): seq<Stmt> {
    var (first, second) := if Before(r.fromAgent, r.toAgent) then (r.fromAgent, r.toAgent) else (r.toAgent, r.fromAgent);
    [HasAgent(r.toAgent), EnsureAccount(r.fromAgent, r.seriesId), EnsureAccount(r.toAgent, r.seriesId),
     LockAccount(first, r.seriesId), LockAccount(second, r.seriesId)]
  }

  // The sequence and balance tests on the locked account row, then the unique inserts.
  function Accept(holder: string, series: string, sequence: int, amount: int, id: string, nonce: string): seq<Stmt> {
    [CheckAccount(holder, series, sequence, amount), InsertRequest(id, nonce)]
  }

  function TransferUpdates(r: L.TransferRequest): seq<Stmt> {
    [UpdateAccount(r.fromAgent, r.seriesId, -r.amount, 0, 1), UpdateAccount(r.toAgent, r.seriesId, r.amount, 0, 0)]
  }

  function LockUpdates(q: L.LockRequest): seq<Stmt> {
    [UpdateAccount(q.holderAgent, q.seriesId, 0, q.amount, 1), InsertRedemption(q)]
  }

  // The statements that end a redemption as retired, and as refunded.
  function RetireEffects(t: Target): seq<Stmt> {
    [Settle(t, L.Retired), SetStatus(t, L.Retired), InsertRetirement(t)]
  }

  function RefundEffects(t: Target): seq<Stmt> {
    [Settle(t, L.Refunded), SetStatus(t, L.Refunded)]
  }

  // No text or JSON column takes a NUL, so a call with one anywhere fails.
  predicate Storable(c: Call) {
    match c.op
    case OpLedger(o) =>
      (match o
       case OpRegister(a) => L.NulFree(a) && L.NulFree(c.publicKey)
       case OpBalance(a, s) => L.NulFree(a) && L.NulFree(s)
       case OpAllocate(series, items) => L.NulFree(series) && forall i <- items :: L.NulFree(i.proofId) && L.NulFree(i.recipient)
       case OpTransfer(r, _, _) => L.NulFree(r.transferId) && L.NulFree(r.seriesId) && L.NulFree(r.fromAgent) && L.NulFree(r.toAgent) && L.NulFree(r.nonce)
       case OpLock(q, _, _) => StorableRequest(q)
       case OpRetire(id, receipt) => L.NulFree(id) && L.NulFree(receipt.redemptionId)
       case OpRelease(id) => L.NulFree(id))
    case OpRegisterProvider(d, key, _) => L.NulFree(d.commitmentId) && L.NulFree(d.providerId) && L.NulFree(d.resourceClass) && L.NulFree(key)
    case OpSetActive(p, _) => L.NulFree(p)
    case OpPrecheck(id, digest) => L.NulFree(id)
    case OpInsert(q, j, _) => StorableRequest(q) && L.NulFree(j)
    case OpClaim(p, _, _, _, _) => L.NulFree(p)
    case OpComplete(j, p) => L.NulFree(j) && L.NulFree(p)
    case OpFail(j, p, _) => L.NulFree(j) && L.NulFree(p)
  }

  predicate StorableRequest(q: L.LockRequest) {
    && L.NulFree(q.redemptionId) && L.NulFree(q.holderAgent) && L.NulFree(q.seriesId) && L.NulFree(q.nonce) && L.NulFree(q.workloadDigest)
    && forall x <- q.resourceClasses :: L.NulFree(x)
  }

  // The lookup of a redemption before enqueueing is no transaction.
  function Program(c: Call): seq<Stmt> {
    if c.op.OpPrecheck? then [] else [Guard(Storable(c))] + Body(c)
  }

  function Body(c: Call): seq<Stmt> {
    match c.op
    case OpLedger(o) =>
      (match o
       case OpRegister(a) => [Guard(a != "" && L.NulFree(a)), InsertAgent(a, c.publicKey)]
       case OpBalance(_, _) => []
       case OpAllocate(series, items) => [Guard(L.Distinct(L.ProofIds(items)))] + AllocateItems(series, items)
       case OpTransfer(r, now, signed) =>
         RequestChecks(r.fromAgent, r.transferId, r.nonce, r.amount, r.expiresAt, now, signed, c.keys)
         + (TransferRows(r) + (Accept(r.fromAgent, r.seriesId, r.senderSequence, r.amount, r.transferId, r.nonce) + TransferUpdates(r)))
       case OpLock(q, now, signed) =>
         RequestChecks(q.holderAgent, q.redemptionId, q.nonce, q.amount, q.expiresAt, now, signed, c.keys)
         + ([EnsureAccount(q.holderAgent, q.seriesId)] + (Accept(q.holderAgent, q.seriesId, q.senderSequence, q.amount, q.redemptionId, q.nonce) + LockUpdates(q)))
       case OpRetire(id, receipt) =>
         [LockRedemption(ById(id)), Guard(receipt.redemptionId == id && receipt.verified)] + RetireEffects(ById(id))
       case OpRelease(id) => [LockRedemption(ById(id))] + RefundEffects(ById(id)))
    case OpRegisterProvider(d, key, recognised) => [UpsertProvider(d.providerId, key), InsertCommitment(d, recognised)]
    case OpSetActive(p, active) => [SetProvider(p, active)]
    case OpPrecheck(_, _) => []
    case OpInsert(q, j, maxAttempts) => [InsertJob(q, j, maxAttempts)]
    case OpClaim(p, d, j, now, leaseMs) => [PickJob(p, d, j, now), Reserve(d, j), StartJob(j, p, d, now + leaseMs)]
    case OpComplete(j, p) =>
      [LockRunning(j, p), LockRedemption(OfJob(j))] + (RetireEffects(OfJob(j)) + [CompleteJob(j)])
    case OpFail(j, p, retryable) =>
      var t := OfFailedJob(j, retryable);
      [LockRunning(j, p), ReturnCapacity(j), LockRedemption(t)] + (RefundEffects(t) + [FailJob(j, retryable)])
  }

  // `prechecked` are the redemption snapshots read by enqueue calls; `log` the calls
  // committed so far, in commit order.
  datatype Txn = Txn(call: Call, pc: nat, writes: DB, locks: set<RowKey>)

  datatype System = System(db: DB, txns: map<nat, Txn>, prechecked: set<L.LockRequest>, log: seq<Call>)

  const Start := System(map[], map[], {}, [])

  datatype Event =
    | Begin(t: nat, call: Call)
    | Advance(t: nat)
    | Commit(t: nat)
    | Abort(t: nat)
    | Precheck(id: string, digest: string)

  predicate CanAdvance(s: System, t: nat) {
    && t in s.txns && s.txns[t].pc < |Program(s.txns[t].call)|
    && var x := s.txns[t];
       var st, v := Program(x.call)[x.pc], s.db + x.writes;
       && PeekPasses(st, v) && Exec(st, v).Some?
       && forall u <- s.txns :: u != t ==> Touches(st, v) !! s.txns[u].locks
  }

  predicate CanBegin(s: System, t: nat, c: Call) {
    t !in s.txns && !c.op.OpPrecheck? && (c.op.OpInsert? ==> c.op.request in s.prechecked)
  }

  predicate CanPrecheck(s: System, id: string, digest: string) {
    var r := RedemptionIn(s.db, id);
    r.Some? && r.value.status == L.Locked && r.value.request.workloadDigest == digest
  }

  // One step of the interleaving; an event that is not possible changes nothing.
  function Next(s: System, e: Event): System {
    match e
    case Begin(t, c) => if CanBegin(s, t, c) then s.(txns := s.txns[t := Txn(c, 0, map[], {})]) else s
    case Advance(t) =>
      if !CanAdvance(s, t) then s
      else
        var x := s.txns[t];
        var st, v := Program(x.call)[x.pc], s.db + x.writes;
        s.(txns := s.txns[t := Txn(x.call, x.pc + 1, x.writes + Exec(st, v).value, x.locks + Touches(st, v))])
    case Commit(t) =>
      if t !in s.txns || s.txns[t].pc < |Program(s.txns[t].call)| then s
      else System(s.db + s.txns[t].writes, s.txns - {t}, s.prechecked, s.log + [s.txns[t].call])
    case Abort(t) => s.(txns := s.txns - {t})
    case Precheck(id, digest) =>
      if !CanPrecheck(s, id, digest) then s
      else s.(prechecked := s.prechecked + {RedemptionIn(s.db, id).value.request},
              log := s.log + [Call(G.OpPrecheck(id, digest), {}, "")])
  }

  function Run(s: System, events: seq<Event>): System
    decreases |events|
  {
    if events == [] then s else Run(Next(s, events[0]), events[1..])
  }

  // ---------- Replaying statements ----------

  // The writes and locks of a run of statements on a fixed database, with nobody else running.
  function Replay(p: seq<Stmt>, db: DB): Option<(DB, set<RowKey>)> {
    if p == [] then Some((map[], {}))
    else match Replay(p[..|p| - 1], db)
      case None => None
      case Some((w, locks)) =>
        var st, v := p[|p| - 1], db + w;
        match Exec(st, v)
        case None => None
        case Some(d) => Some((w + d, locks + Touches(st, v)))
  }

  // Two databases that agree on the given rows, the second with every row of the first and
  // the same agents' keys.
  ghost predicate Stable(db: DB, db': DB, rows: set<RowKey>) {
    && (forall k <- db :: k in db')
    && (forall k <- rows :: k in db' ==> k in db && db[k] == db'[k])
    && (forall k <- db :: k.AgentK? ==> db[k] == db'[k])
  }

  lemma ResolveStable(t: Target, v: DB, v': DB, rows: set<RowKey>)
    requires Stable(v, v', rows) && TargetRows(t) <= rows
    ensures Resolve(t, v) == Resolve(t, v')
  {
  }

  lemma SettleStable(t: Target, outcome: L.Status, v: DB, v': DB, rows: set<RowKey>)
    requires Stable(v, v', rows) && Touches(Settle(t, outcome), v) <= rows && Exec(Settle(t, outcome), v).Some?
    ensures Exec(Settle(t, outcome), v') == Exec(Settle(t, outcome), v) && Touches(Settle(t, outcome), v') == Touches(Settle(t, outcome), v)
  {
    ResolveStable(t, v, v', rows);
    hide Resolve;
  }

  lemma TargetStable(st: Stmt, v: DB, v': DB, rows: set<RowKey>)
    requires st.LockRedemption? || st.SetStatus? || st.InsertRetirement?
    requires Stable(v, v', rows) && Touches(st, v) <= rows && Exec(st, v).Some?
    ensures Exec(st, v') == Exec(st, v) && Touches(st, v') == Touches(st, v)
  {
    match st
    case LockRedemption(t) => ResolveStable(t, v, v', rows);
    case SetStatus(t, _) => ResolveStable(t, v, v', rows);
    case InsertRetirement(t) => ResolveStable(t, v, v', rows);
  }

  predicate JobStmt(st: Stmt) {
    st.InsertJob? || st.PickJob? || st.Reserve? || st.StartJob? || st.LockRunning? || st.CompleteJob? || st.ReturnCapacity? || st.FailJob?
  }

  lemma ReturnStable(j: string, v: DB, v': DB, rows: set<RowKey>)
    requires Stable(v, v', rows) && Touches(ReturnCapacity(j), v) <= rows && Exec(ReturnCapacity(j), v).Some?
    ensures Exec(ReturnCapacity(j), v') == Exec(ReturnCapacity(j), v) && Touches(ReturnCapacity(j), v') == Touches(ReturnCapacity(j), v)
  {
    assert JobIn(v', j) == JobIn(v, j);
  }

  lemma JobStable(st: Stmt, v: DB, v': DB, rows: set<RowKey>)
    requires JobStmt(st) && !st.ReturnCapacity? && Stable(v, v', rows) && Touches(st, v) <= rows && Exec(st, v).Some?
    ensures Exec(st, v') == Exec(st, v) && Touches(st, v') == Touches(st, v)
  {
  }

  // A statement that runs on one database runs alike on any that agrees on the rows it locks.
  lemma ExecStable(st: Stmt, v: DB, v': DB, rows: set<RowKey>)
    requires Stable(v, v', rows) && Touches(st, v) <= rows && Exec(st, v).Some?
    ensures Exec(st, v') == Exec(st, v) && Touches(st, v') == Touches(st, v)
  {
    if st.Settle? {
      SettleStable(st.settleTarget, st.outcome, v, v', rows);
    } else if st.LockRedemption? || st.SetStatus? || st.InsertRetirement? {
      TargetStable(st, v, v', rows);
    } else if st.ReturnCapacity? {
      ReturnStable(st.returningId, v, v', rows);
    } else if JobStmt(st) {
      JobStable(st, v, v', rows);
    } else {
      PlainStable(st, v, v', rows);
    }
  }

  lemma PlainStable(st: Stmt, v: DB, v': DB, rows: set<RowKey>)
    requires !st.Settle? && !st.LockRedemption? && !st.SetStatus? && !st.InsertRetirement? && !JobStmt(st)
    requires Stable(v, v', rows) && Touches(st, v) <= rows && Exec(st, v).Some?
    ensures Exec(st, v') == Exec(st, v) && Touches(st, v') == Touches(st, v)
  {
  }

  // A statement writes only rows it locks, and never an existing agent row.
  lemma ExecWrites(st: Stmt, v: DB)
    requires Exec(st, v).Some?
    ensures Exec(st, v).value.Keys <= Touches(st, v)
    ensures forall k <- Exec(st, v).value :: k.AgentK? ==> k !in v
  {
  }

  lemma {:induction false} ReplayWrites(p: seq<Stmt>, db: DB)
    requires Replay(p, db).Some?
    ensures var (w, locks) := Replay(p, db).value; w.Keys <= locks && forall k <- w :: k.AgentK? ==> k !in db
    decreases |p|
  {
    if p != [] {
      ReplayWrites(p[..|p| - 1], db);
      var (w, locks) := Replay(p[..|p| - 1], db).value;
      ExecWrites(p[|p| - 1], db + w);
    }
  }

  lemma {:induction false} ReplayStable(p: seq<Stmt>, db: DB, db': DB, rows: set<RowKey>)
    requires Replay(p, db).Some? && Replay(p, db).value.1 <= rows && Stable(db, db', rows)
    ensures Replay(p, db') == Replay(p, db)
    decreases |p|
  {
    if p != [] {
      ReplayStable(p[..|p| - 1], db, db', rows);
      var (w, locks) := Replay(p[..|p| - 1], db).value;
      assert Stable(db + w, db' + w, rows);
      ExecStable(p[|p| - 1], db + w, db' + w, rows);
    }
  }

  // ---------- The invariant of the interleaving ----------

  // Replaying what a transaction has done so far on the rows committed now gives its writes
  // and locks: nothing it relied on has changed since it looked.
  ghost predicate TxnOk(s: System, t: nat)
    requires t in s.txns
  {
    var x := s.txns[t];
    && x.pc <= |Program(x.call)|
    && Replay(Program(x.call)[..x.pc], s.db) == Some((x.writes, x.locks))
    && !x.call.op.OpPrecheck?
    && (x.call.op.OpInsert? ==> x.call.op.request in s.prechecked)
  }

  ghost predicate Inv(s: System) {
    && (forall t <- s.txns :: TxnOk(s, t))
    && (forall t <- s.txns, u <- s.txns :: t != u ==> s.txns[t].locks !! s.txns[u].locks)
  }

  lemma AdvanceKeeps(s: System, t: nat)
    requires Inv(s) && CanAdvance(s, t)
    ensures Inv(Next(s, Advance(t)))
  {
    hide Exec, Touches, Program, PeekPasses;
    var x := s.txns[t];
    var s' := Next(s, Advance(t));
    var p := Program(x.call);
    assert p[..x.pc + 1][..x.pc] == p[..x.pc];
    assert TxnOk(s, t);
    forall u <- s'.txns ensures TxnOk(s', u) {
      if u != t { assert TxnOk(s, u); }
    }
  }

  // A commit leaves every other transaction's rows as that transaction saw them.
  lemma CommitStable(s: System, t: nat, u: nat)
    requires Inv(s) && t in s.txns && u in s.txns && t != u
    ensures Stable(s.db, s.db + s.txns[t].writes, s.txns[u].locks)
  {
    assert TxnOk(s, t);
    ReplayWrites(Program(s.txns[t].call)[..s.txns[t].pc], s.db);
  }

  lemma CommitKeeps(s: System, t: nat)
    requires Inv(s) && t in s.txns && s.txns[t].pc == |Program(s.txns[t].call)|
    ensures Inv(Next(s, Commit(t)))
  {
    var s' := Next(s, Commit(t));
    forall u <- s'.txns ensures TxnOk(s', u) {
      assert TxnOk(s, u);
      CommitStable(s, t, u);
      ReplayStable(Program(s.txns[u].call)[..s.txns[u].pc], s.db, s'.db, s.txns[u].locks);
    }
  }

  // Transactions left as they were on the same rows stay in order.
  lemma FewerKeep(s: System, s': System)
    requires Inv(s) && s'.db == s.db && s.prechecked <= s'.prechecked && forall t <- s'.txns :: t in s.txns && s'.txns[t] == s.txns[t]
    ensures Inv(s')
  {
    hide Program, Replay;
    forall t <- s'.txns ensures TxnOk(s', t) { assert TxnOk(s, t); }
  }

  lemma BeginKeeps(s: System, t: nat, c: Call)
    requires Inv(s) && CanBegin(s, t, c)
    ensures Inv(Next(s, Begin(t, c)))
  {
    var s' := Next(s, Begin(t, c));
    assert Replay(Program(c)[..0], s.db) == Some((map[], {})) by { assert Program(c)[..0] == []; }
    hide Program, Replay;
    forall u <- s'.txns ensures TxnOk(s', u) { if u != t { assert TxnOk(s, u); } }
  }

  lemma NextKeeps(s: System, e: Event)
    requires Inv(s)
    ensures Inv(Next(s, e))
  {
    hide Inv, Program, CanAdvance, CanBegin, CanPrecheck;
    match e
    case Begin(t, c) => if CanBegin(s, t, c) { BeginKeeps(s, t, c); }
    case Advance(t) => if CanAdvance(s, t) { AdvanceKeeps(s, t); }
    case Commit(t) =>
      if t in s.txns && s.txns[t].pc >= |Program(s.txns[t].call)| { NotBeyond(s, t); CommitKeeps(s, t); }
    case Abort(t) => FewerKeep(s, Next(s, e));
    case Precheck(id, digest) => FewerKeep(s, Next(s, e));
  }

  lemma NotBeyond(s: System, t: nat)
    requires Inv(s) && t in s.txns
    ensures s.txns[t].pc <= |Program(s.txns[t].call)|
  {
    assert TxnOk(s, t);
  }

  // ---------- Serializability ----------

  // One whole transaction run alone.
  function Serial(db: DB, c: Call): Option<DB> {
    match Replay(Program(c), db)
    case None => None
    case Some((w, _)) => Some(db + w)
  }

  function SerialRun(log: seq<Call>): Option<DB> {
    if log == [] then Some(map[])
    else match SerialRun(log[..|log| - 1])
      case None => None
      case Some(db) => Serial(db, log[|log| - 1])
  }

  ghost predicate Serialized(s: System) {
    SerialRun(s.log) == Some(s.db)
  }

  lemma NextSerialized(s: System, e: Event)
    requires Inv(s) && Serialized(s)
    ensures Serialized(Next(s, e))
  {
    match e
    case Commit(t) =>
      if t in s.txns && s.txns[t].pc >= |Program(s.txns[t].call)| {
        assert TxnOk(s, t);
        var c := s.txns[t].call;
        assert Program(c)[..s.txns[t].pc] == Program(c);
        assert (s.log + [c])[..|s.log|] == s.log;
      }
    case Precheck(id, digest) =>
      if CanPrecheck(s, id, digest) {
        var c := Call(G.OpPrecheck(id, digest), {}, "");
        assert (s.log + [c])[..|s.log|] == s.log;
        assert Program(c) == [] && s.db + map[] == s.db;
      }
    case _ =>
  }

  lemma {:induction false} RunSerialized(s: System, events: seq<Event>)
    requires Inv(s) && Serialized(s)
    ensures Inv(Run(s, events)) && Serialized(Run(s, events))
    decreases |events|
  {
    if events != [] {
      NextKeeps(s, events[0]);
      NextSerialized(s, events[0]);
      RunSerialized(Next(s, events[0]), events[1..]);
    }
  }

  // Whatever the interleaving, the committed rows are those of running the committed
  // transactions alone, one after another, in commit order.
  lemma Serializable(events: seq<Event>)
    ensures Serialized(Run(Start, events))
  {
    RunSerialized(Start, events);
  }
}
