/** The promises of the settlement ledger over every run of calls. */
module LedgerTheorems {
  import opened Results
  import opened Sums
  import opened Ledger
  import opened LedgerInvariants

  // ---------- The ledger report ----------

  // Balances the report for a series counts although their account belongs to another series.
  function ForeignBalances(l: State, series: string): map<string, int> {
    map key | key in l.accounts && EndsWith(key, [NUL] + series) && SeriesOf(key) != series :: l.accounts[key].balance
  }

  lemma {:induction false} SuffixOfOwnSeries(key: string)
    requires NUL in key
    ensures EndsWith(key, [NUL] + SeriesOf(key))
  {
    if key[0] == NUL {
      assert [NUL] + key[1..] == key;
    } else {
      SuffixOfOwnSeries(key[1..]);
    }
  }

  // What the report says about a series, and exactly when it calls that series conserved.
  lemma SummaryExact(l: State, series: string)
    requires Inv(l) && NulFreeAgents(l)
    ensures LedgerSummary(l, series).circulatingTotal == Circulating(l, series) + Sum(ForeignBalances(l, series))
    ensures LedgerSummary(l, series).conservationValid <==> Sum(ForeignBalances(l, series)) == 0
  {
    var selected := Selected(l, series);
    var balances := map key | key in selected :: selected[key].balance;
    forall key | key in l.accounts && SeriesOf(key) == series ensures EndsWith(key, [NUL] + series) { SuffixOfOwnSeries(key); }
    SumSplit(balances, Balances(l.accounts, series), ForeignBalances(l, series));
    assert IssuedTotal(l, series) == Circulating(l, series) + RetiredTotal(l, series);
  }

  // A key with a single NUL can only end with its own series.
  lemma {:induction false} OneNulOneSeries(key: string, series: string)
    requires NUL in key && NulFree(SeriesOf(key)) && EndsWith(key, [NUL] + series)
    ensures SeriesOf(key) == series
  {
    if key[0] == NUL {
      assert key[|key| - |series| - 1..][0] == NUL;
      assert key[|key| - |series| - 1..][1..] == series;
    } else {
      assert |[NUL] + series| < |key| by { assert ([NUL] + series)[0] == NUL; assert key[0..] == key; }
      OneNulOneSeries(key[1..], series);
    }
  }

  // Every account that holds a balance belongs to a NUL-free series.
  ghost predicate FundedNulFree(l: State) {
    forall key <- l.accounts :: l.accounts[key].balance == 0 || NulFree(SeriesOf(key))
  }

  // A funded account whose series has a NUL is counted under the series after that NUL.
  lemma NulSeriesCountedTwice(l: State, key: string)
    requires Inv(l) && key in l.accounts && l.accounts[key].balance != 0 && !NulFree(SeriesOf(key))
    ensures 0 < Sum(ForeignBalances(l, SeriesOf(SeriesOf(key))))
  {
    var own := SeriesOf(key);
    var other := SeriesOf(own);
    SuffixOfOwnSeries(own);
    SuffixOfOwnSeries(key);
    EndsWithin(key, own, [NUL] + other);
    OwnIsLonger(own);
    var foreign := ForeignBalances(l, other);
    assert key in foreign;
    forall k | k in foreign ensures 0 <= foreign[k] {}
    SumBounds(foreign);
  }

  lemma EndsWithin(key: string, own: string, suffix: string)
    requires EndsWith(key, [NUL] + own) && EndsWith(own, suffix)
    ensures EndsWith(key, suffix)
  {
    var n, m := |key|, |own|;
    assert key[n - m..] == (key[n - m - 1..])[1..] == own;
    assert key[n - |suffix|..] == own[m - |suffix|..];
  }

  lemma {:induction false} OwnIsLonger(s: string)
    requires NUL in s
    ensures |SeriesOf(s)| < |s|
  {
    if s[0] != NUL { OwnIsLonger(s[1..]); }
  }

  lemma NothingForeign(l: State, series: string)
    requires Inv(l) && FundedNulFree(l)
    ensures Sum(ForeignBalances(l, series)) == 0
  {
    var foreign := ForeignBalances(l, series);
    forall key | key in foreign ensures foreign[key] == 0 {
      if NulFree(SeriesOf(key)) { OneNulOneSeries(key, series); }
    }
    SumZero(foreign);
  }

  // Every series is reported conserved exactly when no funded account's series has a NUL.
  lemma ReportsValidIff(l: State)
    requires Inv(l) && NulFreeAgents(l)
    ensures (forall series :: LedgerSummary(l, series).conservationValid) <==> FundedNulFree(l)
  {
    hide LedgerSummary, Inv;
    if FundedNulFree(l) {
      forall series ensures LedgerSummary(l, series).conservationValid {
        SummaryExact(l, series);
        NothingForeign(l, series);
      }
    } else {
      var key :| key in l.accounts && l.accounts[key].balance != 0 && !NulFree(SeriesOf(key));
      NulSeriesCountedTwice(l, key);
      SummaryExact(l, SeriesOf(SeriesOf(key)));
    }
  }

  // The report of any series is then conserved, and its totals are ordered.
  lemma SummaryValid(l: State, series: string)
    requires Inv(l) && NulFreeAgents(l) && FundedNulFree(l)
    ensures var s := LedgerSummary(l, series);
            && s.conservationValid
            && s.issuedTotal == s.circulatingTotal + s.retiredTotal
            && 0 <= s.lockedTotal <= s.circulatingTotal <= s.issuedTotal
            && s.spendableTotal == s.circulatingTotal - s.lockedTotal
  {
    SummaryExact(l, series);
    NothingForeign(l, series);
    var selected := Selected(l, series);
    var balances := map key | key in selected :: selected[key].balance;
    var locks := map key | key in selected :: selected[key].locked;
    SumBounds(locks);
    SumMonotone(locks, balances);
    RetiredNonNegative(l, series);
  }

  // ---------- Which runs keep every report valid ----------

  // Only allocations name the series of new balance; reads, locks and transfers may name any.
  ghost predicate AllocatesNulFree(ops: seq<Op>) {
    forall op <- ops :: op.OpAllocate? ==> NulFree(op.series)
  }

  lemma TouchFunded(l: State, key: string)
    requires FundedNulFree(l)
    ensures FundedNulFree(Touch(l, key))
  {
  }

  lemma SetFunded(l: State, m: State, key: string, a: Account)
    requires FundedNulFree(l) && m.accounts == l.accounts[key := a] && (a.balance == 0 || NulFree(SeriesOf(key)))
    ensures FundedNulFree(m)
  {
  }

  lemma {:induction false} CreditAllFunded(l: State, series: string, items: seq<Allocation>)
    requires FundedNulFree(l) && NulFreeAgents(l) && NulFree(series) && FirstBadItem(l, items) == None
    ensures FundedNulFree(CreditAll(l, series, items))
    decreases |items|
  {
    if items != [] {
      var m := CreditOne(l, series, items[0]);
      var key := Key(items[0].recipient, series);
      KeySplits(items[0].recipient, series);
      SetFunded(l, m, key, m.accounts[key]);
      SameAgentsSameItems(l, m, items[1..]);
      CreditAllFunded(m, series, items[1..]);
    }
  }

  // A transfer moves balance only out of a funded account, and stays in its series.
  lemma TransferFunded(l: State, r: TransferRequest, now: int, signed: bool)
    requires Inv(l) && NulFreeAgents(l) && FundedNulFree(l)
    ensures FundedNulFree(Transfer(l, r, now, signed).state)
  {
    var from, to := Key(r.fromAgent, r.seriesId), Key(r.toAgent, r.seriesId);
    var m := Transfer(l, r, now, signed).state;
    if Transfer(l, r, now, signed).result.Ok? {
      TransferAcceptedIff(l, r, now, signed);
      AgentsSameSeries(l, r.fromAgent, r.toAgent, r.seriesId);
      AccountInRange(l, from);
      hide Inv, Key, SeriesOf, Transfer;
      forall key | key in m.accounts ensures m.accounts[key].balance == 0 || NulFree(SeriesOf(key)) {
        TransferPays(l, r, now, signed, key);
        if key != from && key != to { assert AccountAt(m, key).balance == AccountAt(l, key).balance; }
      }
    } else {
      TouchFunded(l, from);
    }
  }

  lemma ApplyFunded(l: State, op: Op)
    requires Inv(l) && NulFreeAgents(l) && FundedNulFree(l) && (op.OpAllocate? ==> NulFree(op.series))
    ensures FundedNulFree(Apply(l, op).0)
  {
    hide Inv, Key, ProofIds, Distinct, FundedNulFree, Refusal;
    match op
    case OpRegister(agent) => SameAccountsFunded(l, RegisterAgent(l, agent).state);
    case OpBalance(agent, series) => TouchFunded(l, Key(agent, series));
    case OpAllocate(series, items) =>
      if Allocate(l, series, items).result.Ok? {
        CreditAllFunded(l, series, items);
        SameAccountsFunded(CreditAll(l, series, items), Allocate(l, series, items).state);
      }
    case OpTransfer(r, now, signed) => TransferFunded(l, r, now, signed);
    case OpLock(r, now, signed) => LockFunded(l, r, now, signed);
    case OpRetire(id, receipt) => if IsLocked(l, id) { EndFunded(l, id, Retired); }
    case OpRelease(id) => if IsLocked(l, id) { EndFunded(l, id, Refunded); }
  }

  lemma SameAccountsFunded(l: State, m: State)
    requires FundedNulFree(l) && m.accounts == l.accounts
    ensures FundedNulFree(m)
  {
  }

  lemma LockFunded(l: State, r: LockRequest, now: int, signed: bool)
    requires FundedNulFree(l)
    ensures FundedNulFree(LockRedemption(l, r, now, signed).state)
  {
    hide Key, SeriesOf;
  }

  // Ending a redemption takes balance only from an account that has some.
  lemma EndFunded(l: State, id: string, outcome: Status)
    requires Inv(l) && FundedNulFree(l) && IsLocked(l, id) && outcome != Locked
    ensures FundedNulFree(End(l, id, outcome))
  {
    LockCovered(l, id);
    hide Key, SeriesOf;
  }

  lemma {:induction false} RunFunded(l: State, ops: seq<Op>)
    requires Inv(l) && NulFreeAgents(l) && FundedNulFree(l) && RegistersNulFree(ops) && AllocatesNulFree(ops)
    ensures FundedNulFree(Run(l, ops))
    decreases |ops|
  {
    hide Inv, FundedNulFree;
    if ops != [] {
      var m := Apply(l, ops[0]).0;
      ApplyKeeps(l, ops[0]);
      AgentsStay(l, ops[0]);
      ApplyFunded(l, ops[0]);
      hide Apply;
      RunFunded(m, ops[1..]);
    }
  }

  // In every run whose registrations and allocations use NUL-free identifiers, the report of
  // every series is conserved, whatever other calls name and whichever of them throw.
  lemma ReportsValid(ops: seq<Op>, series: string)
    requires RegistersNulFree(ops) && AllocatesNulFree(ops)
    ensures LedgerSummary(Run(Empty, ops), series).conservationValid
  {
    Reachable(ops);
    EmptyInv();
    RunNulFree(Empty, ops);
    RunFunded(Empty, ops);
    hide Run, Inv, FundedNulFree;
    SummaryValid(Run(Empty, ops), series);
  }

  // And one accepted allocation with a positive item to a series with a NUL breaks some report.
  lemma NulSeriesBreaksReport(ops: seq<Op>, series: string, items: seq<Allocation>, i: nat)
    requires RegistersNulFree(ops) && !NulFree(series) && i < |items| && 0 < items[i].amount
    requires Allocate(Run(Empty, ops), series, items).result.Ok?
    ensures exists other :: !LedgerSummary(Allocate(Run(Empty, ops), series, items).state, other).conservationValid
  {
    var l := Run(Empty, ops);
    Reachable(ops);
    RunNulFree(Empty, ops);
    ApplyKeeps(l, OpAllocate(series, items));
    AgentsStay(l, OpAllocate(series, items));
    var m := Allocate(l, series, items).state;
    assert m == Apply(l, OpAllocate(series, items)).0;
    hide Run, Apply;
    var key := Key(items[i].recipient, series);
    AllocatePays(l, series, items, key);
    ItemAccepted(l, items, i);
    CreditPositive(l, series, items, i);
    KeySplits(items[i].recipient, series);
    AccountInRange(l, key);
    hide Inv, Allocate, LedgerSummary, Key, SeriesOf, CreditTo;
    assert key in m.accounts && m.accounts[key].balance > 0;
    ReportsValidIff(m);
  }

  lemma {:induction false} ItemAccepted(l: State, items: seq<Allocation>, i: nat)
    requires FirstBadItem(l, items) == None && i < |items|
    ensures items[i].recipient in l.agents && 0 <= items[i].amount
  {
    if i > 0 { ItemAccepted(l, items[1..], i - 1); }
  }

  lemma {:induction false} CreditPositive(l: State, series: string, items: seq<Allocation>, i: nat)
    requires FirstBadItem(l, items) == None && i < |items|
    ensures CreditTo(series, items, Key(items[i].recipient, series)) >= items[i].amount
    decreases |items|
  {
    hide Key;
    if i > 0 { CreditPositive(l, series, items[1..], i - 1); } else { CreditNonNegative(l, series, items[1..], Key(items[0].recipient, series)); }
  }

  lemma {:induction false} CreditNonNegative(l: State, series: string, items: seq<Allocation>, key: string)
    requires FirstBadItem(l, items) == None
    ensures 0 <= CreditTo(series, items, key)
    decreases |items|
  {
    hide Key;
    if items != [] { CreditNonNegative(l, series, items[1..], key); }
  }

  lemma RetiredNonNegative(l: State, series: string)
    requires RedemptionsOk(l) && RetirementsMatch(l)
    ensures 0 <= RetiredTotal(l, series)
  {
    SumBounds(RetiredAmounts(l.redemptions, series));
  }

  // A change of one selected balance alone cannot keep a conserved report conserved.
  lemma ReportMoves(l: State, m: State, series: string, key: string, a: Account)
    requires m.accounts == l.accounts[key := a] && EndsWith(key, [NUL] + series)
    requires IssuedTotal(m, series) == IssuedTotal(l, series) && RetiredTotal(m, series) == RetiredTotal(l, series)
    requires a.balance != AccountAt(l, key).balance
    ensures !(LedgerSummary(l, series).conservationValid && LedgerSummary(m, series).conservationValid)
  {
    hide EndsWith;
    var before := map k | k in Selected(l, series) :: Selected(l, series)[k].balance;
    var after := map k | k in Selected(m, series) :: Selected(m, series)[k].balance;
    assert after == before[key := a.balance];
    SumUpdate(before, key, a.balance);
  }

  lemma AllocateSingle(l: State, series: string, item: Allocation)
    requires item.recipient in l.agents && item.proofId !in l.consumedProofs && 0 <= item.amount <= MAX_SAFE
    ensures Allocate(l, series, [item]) == Step(Log(CreditOne(l, series, item), AllocationEntry(series, [item.proofId])), Ok(()))
  {
    assert ProofIds([item]) == [item.proofId];
    assert FirstBadItem(l, [item]) == None;
    assert CreditAll(l, series, [item]) == CreditAll(CreditOne(l, series, item), series, []);
  }

  // An agent id with a NUL is a hazard in every state: crediting it breaks the report of another series.
  lemma NulAgentBreaksReport(l: State, agent: string, series: string, proofId: string, amount: int)
    requires agent in l.agents && !NulFree(agent)
    requires proofId !in l.consumedProofs && 0 < amount <= MAX_SAFE
    ensures var step := Allocate(l, series, [Allocation(proofId, agent, amount)]);
            var other := SeriesOf(Key(agent, series));
            && step.result.Ok? && other != series
            && !(LedgerSummary(l, other).conservationValid && LedgerSummary(step.state, other).conservationValid)
  {
    var item := Allocation(proofId, agent, amount);
    var key := Key(agent, series);
    KeySplits(agent, series);
    KeyHasNul(agent, series);
    SuffixOfOwnSeries(key);
    AllocateSingle(l, series, item);
    hide LedgerSummary, EndsWith, SeriesOf, Key, AgentOf;
    ReportMoves(l, Allocate(l, series, [item]).state, SeriesOf(key), key, CreditOne(l, series, item).accounts[key]);
  }

  // ---------- Safe integers ----------

  // A safe issued total keeps every stored number of the series a safe integer.
  lemma SafeTotals(l: State, key: string)
    requires Inv(l) && NulFreeAgents(l) && IssuedTotal(l, SeriesOf(key)) <= MAX_SAFE
    ensures 0 <= AccountAt(l, key).locked <= AccountAt(l, key).balance <= MAX_SAFE
    ensures 0 <= RetiredTotal(l, SeriesOf(key)) <= MAX_SAFE
    ensures AccountAt(l, key).balance <= Circulating(l, SeriesOf(key)) <= MAX_SAFE
  {
    var series := SeriesOf(key);
    var balances := Balances(l.accounts, series);
    assert IssuedTotal(l, series) == Circulating(l, series) + RetiredTotal(l, series);
    SumBounds(balances);
    RetiredNonNegative(l, series);
    AccountInRange(l, key);
    if key in l.accounts { assert balances[key] <= Sum(balances); }
  }

  // ---------- Requests ----------

  // The account an accepted request advances.
  function ActorKey(op: Op): Option<string> {
    match op
    case OpTransfer(r, _, _) => Some(Key(r.fromAgent, r.seriesId))
    case OpLock(r, _, _) => Some(Key(r.holderAgent, r.seriesId))
    case _ => None
  }

  function RequestId(op: Op): string
    requires ActorKey(op).Some?
  {
    if op.OpTransfer? then op.transfer.transferId else op.lock.redemptionId
  }

  function Nonce(op: Op): string
    requires ActorKey(op).Some?
  {
    if op.OpTransfer? then op.transfer.nonce else op.lock.nonce
  }

  function SenderSequence(op: Op): int
    requires ActorKey(op).Some?
  {
    if op.OpTransfer? then op.transfer.senderSequence else op.lock.senderSequence
  }

  // The sender sequences of the requests a run accepts for one account, in order.
  function AcceptedSequences(l: State, ops: seq<Op>, key: string): seq<int>
    decreases |ops|
  {
    if ops == [] then []
    else
      var (m, accepted) := Apply(l, ops[0]);
      (if accepted && ActorKey(ops[0]) == Some(key) then [SenderSequence(ops[0])] else []) + AcceptedSequences(m, ops[1..], key)
  }

  lemma {:induction false} CreditAllShape(l: State, series: string, items: seq<Allocation>, key: string)
    ensures var m := CreditAll(l, series, items);
            && AccountAt(m, key).sequence == AccountAt(l, key).sequence
            && m.redemptions == l.redemptions && m.agents == l.agents
            && m.acceptedIds == l.acceptedIds && m.acceptedNonces == l.acceptedNonces
            && l.consumedProofs <= m.consumedProofs
    decreases |items|
  {
    if items != [] { CreditAllShape(CreditOne(l, series, items[0]), series, items[1..], key); }
  }

  lemma TransferSequence(l: State, r: TransferRequest, now: int, signed: bool, key: string)
    ensures var s := Transfer(l, r, now, signed);
            AccountAt(s.state, key).sequence == AccountAt(l, key).sequence + When(s.result.Ok? && key == Key(r.fromAgent, r.seriesId), 1)
  {
    hide Key;
  }

  lemma LockSequence(l: State, r: LockRequest, now: int, signed: bool, key: string)
    ensures var s := LockRedemption(l, r, now, signed);
            AccountAt(s.state, key).sequence == AccountAt(l, key).sequence + When(s.result.Ok? && key == Key(r.holderAgent, r.seriesId), 1)
  {
    hide Key;
  }

  // One call advances exactly its actor's sequence, by one, and only if accepted with that sequence.
  lemma ApplySequence(l: State, op: Op, key: string)
    ensures var (m, accepted) := Apply(l, op);
            if accepted && ActorKey(op) == Some(key)
            then AccountAt(m, key).sequence == AccountAt(l, key).sequence + 1 && SenderSequence(op) == AccountAt(l, key).sequence
            else AccountAt(m, key).sequence == AccountAt(l, key).sequence
  {
    hide Key, ProofIds, Distinct, FirstBadItem, Stored, MoveBalance;
    match op
    case OpAllocate(series, items) => CreditAllShape(l, series, items, key);
    case OpTransfer(r, now, signed) => TransferSequence(l, r, now, signed, key);
    case OpLock(r, now, signed) => LockSequence(l, r, now, signed, key);
    case _ =>
  }

  // For each account the accepted sequences have no gap and no repeat: from any state,
  // they count up from the account's sequence, one per accepted request.
  lemma {:induction false} SequencesGapless(l: State, ops: seq<Op>, key: string)
    ensures var a := AcceptedSequences(l, ops, key);
            && AccountAt(Run(l, ops), key).sequence == AccountAt(l, key).sequence + |a|
            && forall i :: 0 <= i < |a| ==> a[i] == AccountAt(l, key).sequence + i
    decreases |ops|
  {
    if ops != [] {
      ApplySequence(l, ops[0], key);
      SequencesGapless(Apply(l, ops[0]).0, ops[1..], key);
    }
  }

  // Agents, accepted requests, consumed proofs and redemptions are never forgotten,
  // and an ended redemption never changes again.
  ghost predicate Remembers(l: State, m: State) {
    && l.agents <= m.agents
    && l.acceptedIds <= m.acceptedIds
    && l.acceptedNonces <= m.acceptedNonces
    && l.consumedProofs <= m.consumedProofs
    && forall id <- l.redemptions ::
         && id in m.redemptions
         && m.redemptions[id].request == l.redemptions[id].request
         && (l.redemptions[id].status != Locked ==> m.redemptions[id] == l.redemptions[id])
  }

  lemma ApplyRemembers(l: State, op: Op)
    requires RedemptionsOk(l)
    ensures Remembers(l, Apply(l, op).0)
  {
    hide Key, Distinct, ProofIds, FirstBadItem, Refusal, End, Remembers;
    SelfRemembers(l);
    match op
    case OpRegister(agent) => GrowsRemembers(l, RegisterAgent(l, agent).state);
    case OpBalance(agent, series) => GrowsRemembers(l, Touch(l, Key(agent, series)));
    case OpAllocate(series, items) =>
      CreditAllShape(l, series, items, "");
      if Allocate(l, series, items).result.Ok? { GrowsRemembers(l, Allocate(l, series, items).state); }
    case OpTransfer(r, now, signed) => TransferRemembers(l, r, now, signed);
    case OpLock(r, now, signed) => LockRemembers(l, r, now, signed);
    case OpRetire(id, receipt) => if IsLocked(l, id) { EndRemembers(l, id, Retired); }
    case OpRelease(id) => if IsLocked(l, id) { EndRemembers(l, id, Refunded); }
  }

  lemma SelfRemembers(l: State)
    ensures Remembers(l, l)
  {
  }

  lemma RemembersTrans(k: State, l: State, m: State)
    requires Remembers(k, l) && Remembers(l, m)
    ensures Remembers(k, m)
  {
  }

  lemma GrowsRemembers(l: State, m: State)
    requires l.agents <= m.agents && l.acceptedIds <= m.acceptedIds && l.acceptedNonces <= m.acceptedNonces
    requires l.consumedProofs <= m.consumedProofs && m.redemptions == l.redemptions
    ensures Remembers(l, m)
  {
  }

  lemma LockRemembers(l: State, r: LockRequest, now: int, signed: bool)
    requires RedemptionsOk(l)
    ensures Remembers(l, LockRedemption(l, r, now, signed).state)
  {
    hide Key;
  }

  lemma EndRemembers(l: State, id: string, outcome: Status)
    requires IsLocked(l, id)
    ensures Remembers(l, End(l, id, outcome))
  {
    hide Key;
  }

  lemma TransferRemembers(l: State, r: TransferRequest, now: int, signed: bool)
    ensures Remembers(l, Transfer(l, r, now, signed).state)
  {
    hide Key;
  }

  lemma RedemptionsStay(l: State, op: Op)
    requires RedemptionsOk(l)
    ensures RedemptionsOk(Apply(l, op).0)
  {
    hide Key, Distinct, ProofIds, FirstBadItem;
    match op
    case OpAllocate(series, items) => CreditAllShape(l, series, items, "");
    case OpTransfer(r, now, signed) => TransferRedemptions(l, r, now, signed);
    case OpLock(r, now, signed) =>
    case _ =>
  }

  lemma TransferRedemptions(l: State, r: TransferRequest, now: int, signed: bool)
    ensures Transfer(l, r, now, signed).state.redemptions == l.redemptions
    ensures l.acceptedIds <= Transfer(l, r, now, signed).state.acceptedIds
  {
    hide Key;
  }

  lemma {:induction false} RunRemembers(l: State, ops: seq<Op>)
    requires RedemptionsOk(l)
    ensures Remembers(l, Run(l, ops))
    decreases |ops|
  {
    if ops != [] {
      ApplyRemembers(l, ops[0]);
      RedemptionsStay(l, ops[0]);
      RunRemembers(Apply(l, ops[0]).0, ops[1..]);
    }
  }

  // An accepted request uses up its id and its nonce: later in the run, no request
  // carrying either is accepted.
  lemma AcceptedOnce(l: State, op: Op, ops: seq<Op>, again: Op)
    requires RedemptionsOk(l)
    requires ActorKey(op).Some? && Apply(l, op).1
    requires ActorKey(again).Some? && (RequestId(again) == RequestId(op) || Nonce(again) == Nonce(op))
    ensures !Apply(Run(Apply(l, op).0, ops), again).1
    ensures RequestId(op) !in l.acceptedIds && Nonce(op) !in l.acceptedNonces
  {
    hide RedemptionsOk;
    RedemptionsStay(l, op);
    RunRemembers(Apply(l, op).0, ops);
    AcceptedIsRecorded(l, op);
    RecordedIsRefused(Run(Apply(l, op).0, ops), again);
  }

  lemma AcceptedIsRecorded(l: State, op: Op)
    requires ActorKey(op).Some? && Apply(l, op).1
    ensures RequestId(op) !in l.acceptedIds && Nonce(op) !in l.acceptedNonces
    ensures RequestId(op) in Apply(l, op).0.acceptedIds && Nonce(op) in Apply(l, op).0.acceptedNonces
  {
  }

  lemma RecordedIsRefused(l: State, op: Op)
    requires ActorKey(op).Some? && (RequestId(op) in l.acceptedIds || Nonce(op) in l.acceptedNonces)
    ensures !Apply(l, op).1
  {
  }

  // A redemption ends at most once, never both retired and refunded: after either ending
  // no later retire or release of it is accepted, and its status stays.
  lemma EndsOnce(l: State, op: Op, ops: seq<Op>, receipt: ExecutionReceipt)
    requires Inv(l)
    requires (op.OpRetire? || op.OpRelease?) && Apply(l, op).1
    ensures var m := Run(Apply(l, op).0, ops);
            && op.id in m.redemptions
            && m.redemptions[op.id].status == (if op.OpRetire? then Retired else Refunded)
            && !Apply(m, OpRetire(op.id, receipt)).1 && !Apply(m, OpRelease(op.id)).1
            && Endings(m.journal, op.id) == [m.redemptions[op.id].status]
  {
    hide Inv, Apply, Endings;
    ApplyKeeps(l, op);
    EndingIsRecorded(l, op);
    var ended := Apply(l, op).0;
    InvRedemptions(ended);
    RunRemembers(ended, ops);
    RunKeeps(ended, ops);
    InvEndedOnce(Run(ended, ops));
    EndedIsRefused(Run(ended, ops), op.id, receipt);
  }

  lemma EndedIsRefused(l: State, id: string, receipt: ExecutionReceipt)
    requires !IsLocked(l, id)
    ensures !Apply(l, OpRetire(id, receipt)).1 && !Apply(l, OpRelease(id)).1
  {
  }

  lemma EndingIsRecorded(l: State, op: Op)
    requires (op.OpRetire? || op.OpRelease?) && Apply(l, op).1
    ensures op.id in Apply(l, op).0.redemptions
    ensures Apply(l, op).0.redemptions[op.id].status == if op.OpRetire? then Retired else Refunded
  {
  }

  lemma InvRedemptions(l: State)
    requires Inv(l)
    ensures RedemptionsOk(l)
  {
  }

  lemma InvEndedOnce(l: State)
    requires Inv(l)
    ensures EndedOnce(l)
  {
  }

  // ---------- Allocation ----------

  function AllocationTotal(items: seq<Allocation>): int {
    if items == [] then 0 else items[0].amount + AllocationTotal(items[1..])
  }

  lemma {:induction false} CreditAllIssues(l: State, series: string, items: seq<Allocation>, s: string)
    ensures IssuedTotal(CreditAll(l, series, items), s) == IssuedTotal(l, s) + When(s == series, AllocationTotal(items))
    ensures CreditAll(l, series, items).consumedProofs == l.consumedProofs + set id <- ProofIds(items)
    decreases |items|
  {
    if items != [] {
      CreditAllIssues(CreditOne(l, series, items[0]), series, items[1..], s);
      assert ProofIds(items) == [items[0].proofId] + ProofIds(items[1..]);
    } else {
      assert (set id <- ProofIds(items)) == {};
    }
  }

  // An accepted allocation raises its series' issued total by exactly its amounts, touches no
  // other series, and its proofs were never allocated before.
  lemma AllocateIssues(l: State, series: string, items: seq<Allocation>, s: string)
    requires Allocate(l, series, items).result.Ok?
    ensures var m := Allocate(l, series, items).state;
            && IssuedTotal(m, s) == IssuedTotal(l, s) + When(s == series, AllocationTotal(items))
            && m.consumedProofs == l.consumedProofs + (set id <- ProofIds(items))
            && (set id <- ProofIds(items)) !! l.consumedProofs
            && Distinct(ProofIds(items))
  {
    CreditAllIssues(l, series, items, s);
  }

  // What an allocation gives one account.
  function CreditTo(series: string, items: seq<Allocation>, key: string): int {
    if items == [] then 0
    else When(Key(items[0].recipient, series) == key, items[0].amount) + CreditTo(series, items[1..], key)
  }

  lemma {:induction false} CreditAllPays(l: State, series: string, items: seq<Allocation>, key: string)
    ensures var (a, b) := (AccountAt(l, key), AccountAt(CreditAll(l, series, items), key));
            b == a.(balance := a.balance + CreditTo(series, items, key))
    decreases |items|
  {
    hide Key;
    if items != [] { CreditAllPays(CreditOne(l, series, items[0]), series, items[1..], key); }
  }

  // An accepted allocation pays every account exactly its items, and moves no lock or sequence.
  lemma AllocatePays(l: State, series: string, items: seq<Allocation>, key: string)
    requires Allocate(l, series, items).result.Ok?
    ensures var (a, b) := (AccountAt(l, key), AccountAt(Allocate(l, series, items).state, key));
            b == a.(balance := a.balance + CreditTo(series, items, key))
  {
    hide CreditAll, FirstBadItem, Distinct, CreditTo;
    CreditAllPays(l, series, items, key);
  }

  // ---------- What one accepted request does ----------

  function Spendable(a: Account): int {
    a.balance - a.locked
  }

  // A transfer is accepted exactly for a credentialed, signed, fresh, unexpired request in
  // sequence, to a registered agent, that the spendable balance covers.
  lemma TransferAcceptedIff(l: State, r: TransferRequest, now: int, signed: bool)
    ensures Transfer(l, r, now, signed).result.Ok? <==>
      && 0 < r.amount <= MAX_SAFE && r.fromAgent in l.agents && r.toAgent in l.agents && signed
      && r.transferId !in l.acceptedIds && r.nonce !in l.acceptedNonces && now < r.expiresAt
      && r.senderSequence == AccountAt(l, Key(r.fromAgent, r.seriesId)).sequence
      && r.amount <= Spendable(AccountAt(l, Key(r.fromAgent, r.seriesId)))
  {
    hide Key;
  }

  // It moves its amount from sender to recipient, advances the sender alone, and leaves every
  // other account as it was; a transfer to oneself moves nothing.
  lemma TransferPays(l: State, r: TransferRequest, now: int, signed: bool, key: string)
    requires Transfer(l, r, now, signed).result.Ok?
    ensures var (from, to) := (Key(r.fromAgent, r.seriesId), Key(r.toAgent, r.seriesId));
            var (a, b) := (AccountAt(l, key), AccountAt(Transfer(l, r, now, signed).state, key));
            && b.balance == a.balance - When(key == from, r.amount) + When(key == to, r.amount)
            && b.locked == a.locked && b.sequence == a.sequence + When(key == from, 1)
  {
    hide Key;
  }

  // A lock and its end: releasing restores the holder's account but for the sequence, and
  // retiring takes exactly the locked amount; no other account changes.
  lemma LockThenEnd(l: State, r: LockRequest, now: int, signed: bool, outcome: Status, key: string)
    requires LockRedemption(l, r, now, signed).result.Ok? && outcome != Locked
    ensures var holder := Key(r.holderAgent, r.seriesId);
            var locked := LockRedemption(l, r, now, signed).state;
            && IsLocked(locked, r.redemptionId) && locked.redemptions[r.redemptionId].request == r
            && AccountAt(locked, key).locked == AccountAt(l, key).locked + When(key == holder, r.amount)
            && AccountAt(locked, key).balance == AccountAt(l, key).balance
            && var (a, b) := (AccountAt(l, key), AccountAt(End(locked, r.redemptionId, outcome), key));
               b == Account(a.balance - When(key == holder && outcome == Retired, r.amount), a.locked, a.sequence + When(key == holder, 1))
  {
    hide Key;
  }
}
