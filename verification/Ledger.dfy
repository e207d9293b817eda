/**
 The settlement ledger as a value: one function per registry operation, giving the
 state after the call and the returned value or thrown error. The class
 Registry.SettlementRegistry performs the same steps on mutable fields.
*/
module Ledger {
  import opened Results
  import opened Sums

  const NUL := '\0'

  datatype Account = Account(balance: int, locked: int, sequence: int)

  datatype Status = Locked | Retired | Refunded

  datatype TransferRequest = TransferRequest(
    transferId: string, seriesId: string, fromAgent: string, toAgent: string,
    amount: int, senderSequence: int, nonce: string, expiresAt: int)

  datatype LockRequest = LockRequest(
    redemptionId: string, holderAgent: string, seriesId: string, amount: int,
    senderSequence: int, nonce: string, expiresAt: int,
    resourceClasses: seq<string>, workloadDigest: string)

  datatype Redemption = Redemption(request: LockRequest, status: Status)

  datatype Allocation = Allocation(proofId: string, recipient: string, amount: int)

  datatype ExecutionReceipt = ExecutionReceipt(redemptionId: string, verified: bool)

  datatype TransferReceipt = TransferReceipt(
    settlementId: string, transferId: string, seriesId: string, fromAgent: string,
    toAgent: string, amount: int, acceptedSenderSequence: int,
    nextSenderSequence: int, committedAt: int)

  // What retire, releaseRedemption and lockRedemption return.
  datatype Record = Record(redemptionId: string, seriesId: string, amount: int, status: Status)

  datatype Entry =
    | AllocationEntry(seriesId: string, proofIds: seq<string>)
    | TransferEntry(receipt: TransferReceipt)
    | LockedEntry(redemptionId: string)
    | EndingEntry(record: Record)

  datatype Error =
    | AgentIdRequired | BadAmount | NotCredentialed | BadSignature | Replayed | Expired
    | UnexpectedSequence | UnknownRecipient | Insufficient | ProofConsumed
    | BadAllocation | NotLocked | NotVerified

  datatype State = State(
    agents: set<string>,
    accounts: map<string, Account>,
    acceptedIds: set<string>,
    acceptedNonces: set<string>,
    consumedProofs: set<string>,
    redemptions: map<string, Redemption>,
    issued: map<string, int>,
    retired: map<string, int>,
    journal: seq<Entry>)

  datatype Step<+T> = Step(state: State, result: Result<T, Error>)

  const Empty := State({}, map[], {}, {}, {}, map[], map[], map[], [])
  const ZeroAccount := Account(0, 0, 0)

  // ---------- Account keys ----------

  function Key(agent: string, series: string): string {
    agent + [NUL] + series
  }

  predicate NulFree(s: string) {
    NUL !in s
  }

  // The part of a key before its first NUL.
  function AgentOf(key: string): string {
    if key == [] || key[0] == NUL then [] else [key[0]] + AgentOf(key[1..])
  }

  // The part of a key after its first NUL.
  function SeriesOf(key: string): string {
    if key == [] then [] else if key[0] == NUL then key[1..] else SeriesOf(key[1..])
  }

  // A key names its agent and series exactly when the agent id has no NUL.
  lemma {:induction false} KeySplits(agent: string, series: string)
    ensures NulFree(agent) <==> AgentOf(Key(agent, series)) == agent
    ensures NulFree(agent) <==> SeriesOf(Key(agent, series)) == series
    ensures |SeriesOf(Key(agent, series))| >= |series|
    ensures AgentOf(Key(agent, series)) + [NUL] + SeriesOf(Key(agent, series)) == Key(agent, series)
  {
    var key := Key(agent, series);
    if agent != [] {
      assert key[1..] == Key(agent[1..], series);
      assert agent == [agent[0]] + agent[1..];
      KeySplits(agent[1..], series);
    }
  }

  // A key with a NUL is the key of the agent and series read from it.
  lemma {:induction false} KeyRebuilds(key: string)
    requires NUL in key
    ensures NulFree(AgentOf(key)) && Key(AgentOf(key), SeriesOf(key)) == key
  {
    assert key == [key[0]] + key[1..];
    if key[0] != NUL {
      KeyRebuilds(key[1..]);
      var agent, series := AgentOf(key[1..]), SeriesOf(key[1..]);
      assert Key([key[0]] + agent, series) == [key[0]] + Key(agent, series);
    }
  }

  // Registered agents never share an account: distinct (agent, series) pairs have distinct keys.
  lemma KeyInjective(a: string, s: string, b: string, t: string)
    requires NulFree(a) && NulFree(b) && Key(a, s) == Key(b, t)
    ensures a == b && s == t
  {
    KeySplits(a, s);
    KeySplits(b, t);
  }

  // ---------- Reading the state ----------

  // An account that was never created reads as zero.
  function AccountAt(l: State, key: string): Account {
    if key in l.accounts then l.accounts[key] else ZeroAccount
  }

  // The lazy creation done by every account lookup.
  function Touch(l: State, key: string): State {
    if key in l.accounts then l else l.(accounts := l.accounts[key := ZeroAccount])
  }

  function IssuedTotal(l: State, series: string): int {
    At(l.issued, series)
  }

  function RetiredTotal(l: State, series: string): int {
    At(l.retired, series)
  }

  // Equal states when an absent account counts as a zero one.
  ghost predicate SameView(l: State, m: State) {
    && l.(accounts := map[]) == m.(accounts := map[])
    && forall key :: AccountAt(l, key) == AccountAt(m, key)
  }

  // ---------- Operations ----------

  function RegisterAgent(l: State, agent: string): Step<()> {
    if agent == "" then Step(l, Err(AgentIdRequired))
    else Step(l.(agents := l.agents + {agent}), Ok(()))
  }

  function Balance(l: State, agent: string, series: string): Step<Account> {
    Step(Touch(l, Key(agent, series)), Ok(AccountAt(l, Key(agent, series))))
  }

  function ProofIds(items: seq<Allocation>): (ids: seq<string>)
    ensures |ids| == |items|
  {
    seq(|items|, i requires 0 <= i < |items| => items[i].proofId)
  }

  predicate Distinct<T(==)>(s: seq<T>) {
    forall i, j :: 0 <= i < j < |s| ==> s[i] != s[j]
  }

  // The first item that the second check of allocate refuses.
  function FirstBadItem(l: State, items: seq<Allocation>): Option<Error> {
    if items == [] then None
    else if items[0].recipient !in l.agents then Some(UnknownRecipient)
    else if !SafeInteger(items[0].amount) || items[0].amount < 0 then Some(BadAllocation)
    else FirstBadItem(l, items[1..])
  }

  function CreditOne(l: State, series: string, item: Allocation): State {
    var key := Key(item.recipient, series);
    var account := AccountAt(l, key);
    l.(accounts := l.accounts[key := account.(balance := account.balance + item.amount)],
       issued := l.issued[series := IssuedTotal(l, series) + item.amount],
       consumedProofs := l.consumedProofs + {item.proofId})
  }

  function CreditAll(l: State, series: string, items: seq<Allocation>): State
    decreases |items|
  {
    if items == [] then l else CreditAll(CreditOne(l, series, items[0]), series, items[1..])
  }

  function Log(l: State, entry: Entry): State {
    l.(journal := l.journal + [entry])
  }

  function Allocate(l: State, series: string, items: seq<Allocation>): Step<()> {
    var ids := ProofIds(items);
    if !Distinct(ids) || exists id <- ids :: id in l.consumedProofs then Step(l, Err(ProofConsumed))
    else match FirstBadItem(l, items)
      case Some(e) => Step(l, Err(e))
      case None => Step(Log(CreditAll(l, series, items), AllocationEntry(series, ids)), Ok(()))
  }

  predicate PositiveAmount(amount: int) {
    SafeInteger(amount) && amount > 0
  }

  // The checks of a signed request that come before its account is looked up.
  function Refusal(l: State, actor: string, id: string, nonce: string, expiresAt: int, now: int, signed: bool): Option<Error> {
    if actor !in l.agents then Some(NotCredentialed)
    else if !signed then Some(BadSignature)
    else if id in l.acceptedIds || nonce in l.acceptedNonces then Some(Replayed)
    else if expiresAt <= now then Some(Expired)
    else None
  }

  function Consume(l: State, id: string, nonce: string): State {
    l.(acceptedIds := l.acceptedIds + {id}, acceptedNonces := l.acceptedNonces + {nonce})
  }

  function SetAccount(l: State, key: string, account: Account): State {
    l.(accounts := l.accounts[key := account])
  }

  function Debit(l: State, key: string, amount: int): State {
    var a := AccountAt(l, key);
    SetAccount(l, key, a.(balance := a.balance - amount))
  }

  function Advance(l: State, key: string): State {
    var a := AccountAt(l, key);
    SetAccount(l, key, a.(sequence := a.sequence + 1))
  }

  // The three account changes of a transfer, in order; sender and recipient may be one account.
  function MoveBalance(l: State, from: string, to: string, amount: int): State {
    Advance(Debit(Debit(l, from, amount), to, -amount), from)
  }

  function ReceiptOf(r: TransferRequest, nextSequence: int, now: int): TransferReceipt {
    TransferReceipt("settle:" + r.transferId, r.transferId, r.seriesId, r.fromAgent, r.toAgent,
                    r.amount, r.senderSequence, nextSequence, now)
  }

  // The state after an accepted transfer.
  function Transferred(l: State, r: TransferRequest, now: int): State {
    var from := Key(r.fromAgent, r.seriesId);
    var to := Key(r.toAgent, r.seriesId);
    var moved := MoveBalance(l, from, to, r.amount);
    Log(Consume(moved, r.transferId, r.nonce), TransferEntry(ReceiptOf(r, AccountAt(l, from).sequence + 1, now)))
  }

  function Transfer(l: State, r: TransferRequest, now: int, signed: bool): Step<TransferReceipt> {
    if !PositiveAmount(r.amount) then Step(l, Err(BadAmount))
    else match Refusal(l, r.fromAgent, r.transferId, r.nonce, r.expiresAt, now, signed)
      case Some(e) => Step(l, Err(e))
      case None =>
        var from := Key(r.fromAgent, r.seriesId);
        var sender := AccountAt(l, from);
        if r.senderSequence != sender.sequence then Step(Touch(l, from), Err(UnexpectedSequence))
        else if r.toAgent !in l.agents then Step(Touch(l, from), Err(UnknownRecipient))
        else if sender.balance - sender.locked < r.amount then Step(Touch(l, from), Err(Insufficient))
        else Step(Transferred(l, r, now), Ok(ReceiptOf(r, sender.sequence + 1, now)))
  }

  // The state after an accepted lock, before its journal entry.
  function Stored(l: State, r: LockRequest): State {
    var key := Key(r.holderAgent, r.seriesId);
    var a := AccountAt(l, key);
    var locked := SetAccount(l, key, Account(a.balance, a.locked + r.amount, a.sequence + 1));
    var consumed := Consume(locked, r.redemptionId, r.nonce);
    consumed.(redemptions := consumed.redemptions[r.redemptionId := Redemption(r, Locked)])
  }

  function LockRedemption(l: State, r: LockRequest, now: int, signed: bool): Step<Record> {
    if !PositiveAmount(r.amount) then Step(l, Err(BadAmount))
    else match Refusal(l, r.holderAgent, r.redemptionId, r.nonce, r.expiresAt, now, signed)
      case Some(e) => Step(l, Err(e))
      case None =>
        var key := Key(r.holderAgent, r.seriesId);
        var holder := AccountAt(l, key);
        if r.senderSequence != holder.sequence then Step(Touch(l, key), Err(UnexpectedSequence))
        else if holder.balance - holder.locked < r.amount then Step(Touch(l, key), Err(Insufficient))
        else Step(Log(Stored(l, r), LockedEntry(r.redemptionId)), Ok(Record(r.redemptionId, r.seriesId, r.amount, Locked)))
  }

  predicate IsLocked(l: State, id: string) {
    id in l.redemptions && l.redemptions[id].status == Locked
  }

  // The end of a locked redemption: its lock goes, and on retirement its balance too.
  function End(l: State, id: string, outcome: Status): State
    requires id in l.redemptions
  {
    var r := l.redemptions[id].request;
    var key := Key(r.holderAgent, r.seriesId);
    var a := AccountAt(l, key);
    var spent := if outcome == Retired then r.amount else 0;
    var settled := SetAccount(l, key, Account(a.balance - spent, a.locked - r.amount, a.sequence));
    var ended := settled.(
      redemptions := settled.redemptions[id := Redemption(r, outcome)],
      retired := if outcome == Retired then settled.retired[r.seriesId := RetiredTotal(l, r.seriesId) + r.amount] else settled.retired);
    Log(ended, EndingEntry(Record(id, r.seriesId, r.amount, outcome)))
  }

  function Retire(l: State, id: string, receipt: ExecutionReceipt): Step<Record> {
    if !IsLocked(l, id) then Step(l, Err(NotLocked))
    else if receipt.redemptionId != id || !receipt.verified then Step(l, Err(NotVerified))
    else
      var r := l.redemptions[id].request;
      Step(End(l, id, Retired), Ok(Record(id, r.seriesId, r.amount, Retired)))
  }

  function Release(l: State, id: string): Step<Record> {
    if !IsLocked(l, id) then Step(l, Err(NotLocked))
    else
      var r := l.redemptions[id].request;
      Step(End(l, id, Refunded), Ok(Record(id, r.seriesId, r.amount, Refunded)))
  }

  // ---------- The ledger report ----------

  datatype Summary = Summary(
    issuedTotal: int, circulatingTotal: int, spendableTotal: int, lockedTotal: int,
    retiredTotal: int, conservationValid: bool, accounts: map<string, Account>)

  predicate EndsWith(s: string, suffix: string) {
    |suffix| <= |s| && s[|s| - |suffix|..] == suffix
  }

  // The report picks accounts by the text at the end of their key.
  function Selected(l: State, series: string): map<string, Account> {
    map key | key in l.accounts && EndsWith(key, [NUL] + series) :: l.accounts[key]
  }

  ghost function BalanceSum(accounts: map<string, Account>): int {
    Sum(map key | key in accounts :: accounts[key].balance)
  }

  ghost function LockedSum(accounts: map<string, Account>): int {
    Sum(map key | key in accounts :: accounts[key].locked)
  }

  ghost function LedgerSummary(l: State, series: string): Summary {
    var accounts := Selected(l, series);
    var circulating := BalanceSum(accounts);
    var locked := LockedSum(accounts);
    Summary(IssuedTotal(l, series), circulating, circulating - locked, locked, RetiredTotal(l, series),
            IssuedTotal(l, series) == circulating + RetiredTotal(l, series), accounts)
  }

  // ---------- Runs ----------

  datatype Op =
    | OpRegister(agent: string)
    | OpBalance(agent: string, series: string)
    | OpAllocate(series: string, items: seq<Allocation>)
    | OpTransfer(transfer: TransferRequest, now: int, signed: bool)
    | OpLock(lock: LockRequest, now: int, signed: bool)
    | OpRetire(id: string, receipt: ExecutionReceipt)
    | OpRelease(id: string)

  // The state after one call, and whether the call returned rather than threw.
  function Apply(l: State, op: Op): (State, bool) {
    match op
    case OpRegister(agent) => var s := RegisterAgent(l, agent); (s.state, s.result.Ok?)
    case OpBalance(agent, series) => (Balance(l, agent, series).state, true)
    case OpAllocate(series, items) => var s := Allocate(l, series, items); (s.state, s.result.Ok?)
    case OpTransfer(r, now, signed) => var s := Transfer(l, r, now, signed); (s.state, s.result.Ok?)
    case OpLock(r, now, signed) => var s := LockRedemption(l, r, now, signed); (s.state, s.result.Ok?)
    case OpRetire(id, receipt) => var s := Retire(l, id, receipt); (s.state, s.result.Ok?)
    case OpRelease(id) => var s := Release(l, id); (s.state, s.result.Ok?)
  }

  function Run(l: State, ops: seq<Op>): State
    decreases |ops|
  {
    if ops == [] then l else Run(Apply(l, ops[0]).0, ops[1..])
  }
}
