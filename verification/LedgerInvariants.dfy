/**
 What every run of the settlement ledger keeps.

 Over all series, and for NUL-free agent ids series by series, the issued totals are the
 balances plus the retired totals. The lock of an account is the sum of its still-locked
 redemptions and never above its balance. A retired total is the sum of the retired
 redemptions of its series. Each redemption has at most one ending in the journal. The
 accepted ids, the accepted nonces and the account sequences count the same requests.
*/
module LedgerInvariants {
  import opened Results
  import opened Sums
  import opened Ledger

  // ---------- Sums over the state ----------

  function Balances(accounts: map<string, Account>, series: string): map<string, int> {
    map key | key in accounts && SeriesOf(key) == series :: accounts[key].balance
  }

  ghost function Circulating(l: State, series: string): int {
    Sum(Balances(l.accounts, series))
  }

  function Sequences(accounts: map<string, Account>): map<string, int> {
    map key | key in accounts :: accounts[key].sequence
  }

  // The amounts of the redemptions still locked on one account.
  function LockedAmounts(redemptions: map<string, Redemption>, key: string): map<string, int> {
    map id | id in redemptions && redemptions[id].status == Locked && KeyOf(redemptions[id]) == key :: redemptions[id].request.amount
  }

  function RetiredAmounts(redemptions: map<string, Redemption>, series: string): map<string, int> {
    map id | id in redemptions && redemptions[id].status == Retired && redemptions[id].request.seriesId == series :: redemptions[id].request.amount
  }

  function KeyOf(r: Redemption): string {
    Key(r.request.holderAgent, r.request.seriesId)
  }

  // How the journal says a redemption ended, in order.
  function Endings(journal: seq<Entry>, id: string): seq<Status> {
    if journal == [] then []
    else
      var last := journal[|journal| - 1];
      Endings(journal[..|journal| - 1], id) + if last.EndingEntry? && last.record.redemptionId == id then [last.record.status] else []
  }

  lemma EndingsLog(journal: seq<Entry>, entry: Entry, id: string)
    ensures Endings(journal + [entry], id) == Endings(journal, id) + if entry.EndingEntry? && entry.record.redemptionId == id then [entry.record.status] else []
  {
    assert (journal + [entry])[..|journal|] == journal;
  }

  // ---------- The invariant ----------

  ghost predicate KeysOk(l: State) {
    && (forall key <- l.accounts :: NUL in key)
    && (forall id <- l.redemptions :: l.redemptions[id].request.holderAgent in l.agents)
  }

  ghost predicate NulFreeAgents(l: State) {
    forall a <- l.agents :: NulFree(a)
  }

  ghost predicate AgentsOk(l: State) {
    NulFreeAgents(l) && KeysOk(l)
  }

  ghost predicate AccountsOk(l: State) {
    forall key <- l.accounts :: 0 <= l.accounts[key].locked <= l.accounts[key].balance && 0 <= l.accounts[key].sequence
  }

  ghost predicate RedemptionsOk(l: State) {
    forall id <- l.redemptions :: id in l.acceptedIds && l.redemptions[id].request.redemptionId == id && 0 < l.redemptions[id].request.amount
  }

  ghost predicate LocksMatch(l: State) {
    forall key :: AccountAt(l, key).locked == Sum(LockedAmounts(l.redemptions, key))
  }

  ghost predicate Conserved(l: State) {
    forall series :: IssuedTotal(l, series) == Circulating(l, series) + RetiredTotal(l, series)
  }

  // Keys name their series only for NUL-free agents; over all series the books balance anyway.
  ghost predicate SeriesConserved(l: State) {
    NulFreeAgents(l) ==> Conserved(l)
  }

  ghost predicate TotalConserved(l: State) {
    Sum(l.issued) == BalanceSum(l.accounts) + Sum(l.retired)
  }

  ghost predicate RetirementsMatch(l: State) {
    forall series :: RetiredTotal(l, series) == Sum(RetiredAmounts(l.redemptions, series))
  }

  ghost predicate RequestsCounted(l: State) {
    |l.acceptedIds| == |l.acceptedNonces| == Sum(Sequences(l.accounts))
  }

  ghost predicate EndedOnce(l: State) {
    forall id :: Endings(l.journal, id) == if id in l.redemptions && l.redemptions[id].status != Locked then [l.redemptions[id].status] else []
  }

  ghost predicate Inv(l: State) {
    && KeysOk(l) && AccountsOk(l) && RedemptionsOk(l) && LocksMatch(l)
    && SeriesConserved(l) && TotalConserved(l) && RetirementsMatch(l) && RequestsCounted(l) && EndedOnce(l)
  }

  // ---------- How one account or redemption update moves the sums ----------

  lemma BalancesUpdate(accounts: map<string, Account>, key: string, a: Account, series: string)
    ensures Sum(Balances(accounts[key := a], series)) ==
            Sum(Balances(accounts, series)) + When(SeriesOf(key) == series, a.balance - At(Balances(accounts, series), key))
  {
    var before, after := Balances(accounts, series), Balances(accounts[key := a], series);
    if SeriesOf(key) == series {
      assert after == before[key := a.balance];
      SumUpdate(before, key, a.balance);
    } else {
      assert after == before;
    }
  }

  lemma SequencesUpdate(accounts: map<string, Account>, key: string, a: Account)
    ensures Sum(Sequences(accounts[key := a])) ==
            Sum(Sequences(accounts)) + a.sequence - At(Sequences(accounts), key)
  {
    assert Sequences(accounts[key := a]) == Sequences(accounts)[key := a.sequence];
    SumUpdate(Sequences(accounts), key, a.sequence);
  }

  lemma BalanceSumUpdate(accounts: map<string, Account>, key: string, a: Account)
    ensures BalanceSum(accounts[key := a]) == BalanceSum(accounts) + a.balance - (if key in accounts then accounts[key].balance else 0)
  {
    var before := map k | k in accounts :: accounts[k].balance;
    var updated := accounts[key := a];
    assert (map k | k in updated :: updated[k].balance) == before[key := a.balance];
    SumUpdate(before, key, a.balance);
  }

  // Adding a locked redemption under a new id.
  lemma LockedAmountsAdd(redemptions: map<string, Redemption>, id: string, r: LockRequest, key: string)
    requires id !in redemptions
    ensures var added := redemptions[id := Redemption(r, Locked)];
            && Sum(LockedAmounts(added, key)) == Sum(LockedAmounts(redemptions, key)) + When(Key(r.holderAgent, r.seriesId) == key, r.amount)
            && forall series :: RetiredAmounts(added, series) == RetiredAmounts(redemptions, series)
  {
    var before := LockedAmounts(redemptions, key);
    var after := LockedAmounts(redemptions[id := Redemption(r, Locked)], key);
    if Key(r.holderAgent, r.seriesId) == key {
      assert after == before[id := r.amount];
      SumUpdate(before, id, r.amount);
    } else {
      assert after == before;
    }
  }

  // Ending a locked redemption.
  lemma LockedAmountsEnd(redemptions: map<string, Redemption>, id: string, outcome: Status, key: string)
    requires id in redemptions && redemptions[id].status == Locked && outcome != Locked
    ensures var r := redemptions[id].request;
            Sum(LockedAmounts(redemptions[id := Redemption(r, outcome)], key)) ==
            Sum(LockedAmounts(redemptions, key)) - When(KeyOf(redemptions[id]) == key, r.amount)
  {
    var before := LockedAmounts(redemptions, key);
    var after := LockedAmounts(redemptions[id := Redemption(redemptions[id].request, outcome)], key);
    if KeyOf(redemptions[id]) == key {
      assert after == before - {id};
      SumRemove(before, id);
    } else {
      assert after == before;
    }
  }

  lemma RetiredAmountsEnd(redemptions: map<string, Redemption>, id: string, outcome: Status, series: string)
    requires id in redemptions && redemptions[id].status == Locked && outcome != Locked
    ensures var r := redemptions[id].request;
            Sum(RetiredAmounts(redemptions[id := Redemption(r, outcome)], series)) ==
            Sum(RetiredAmounts(redemptions, series)) + When(outcome == Retired && r.seriesId == series, r.amount)
  {
    var r := redemptions[id].request;
    var before := RetiredAmounts(redemptions, series);
    var after := RetiredAmounts(redemptions[id := Redemption(r, outcome)], series);
    if outcome == Retired && r.seriesId == series {
      assert after == before[id := r.amount];
      SumUpdate(before, id, r.amount);
    } else {
      assert after == before;
    }
  }

  // A still-locked redemption is covered by its account's lock, hence by its balance.
  lemma LockCovered(l: State, id: string)
    requires LocksMatch(l) && AccountsOk(l) && RedemptionsOk(l) && IsLocked(l, id)
    ensures var a := AccountAt(l, KeyOf(l.redemptions[id]));
            l.redemptions[id].request.amount <= a.locked <= a.balance
  {
    var key := KeyOf(l.redemptions[id]);
    SumBounds(LockedAmounts(l.redemptions, key));
    assert id in LockedAmounts(l.redemptions, key);
  }

  // ---------- How account changes move the invariant's parts ----------

  // The key of a registered agent's account.
  ghost predicate IsKey(key: string, series: string) {
    NUL in key && SeriesOf(key) == series
  }

  lemma KeyIsKey(agent: string, series: string)
    requires NulFree(agent)
    ensures IsKey(Key(agent, series), series)
  {
    KeySplits(agent, series);
    assert Key(agent, series)[|agent|] == NUL;
  }

  lemma SetAccountEffect(l: State, key: string, a: Account)
    ensures var m := SetAccount(l, key, a);
            && Sum(Sequences(m.accounts)) == Sum(Sequences(l.accounts)) + a.sequence - AccountAt(l, key).sequence
            && BalanceSum(m.accounts) == BalanceSum(l.accounts) + a.balance - AccountAt(l, key).balance
            && forall s :: Circulating(m, s) == Circulating(l, s) + When(s == SeriesOf(key), a.balance - AccountAt(l, key).balance)
  {
    SequencesUpdate(l.accounts, key, a);
    BalanceSumUpdate(l.accounts, key, a);
    forall s ensures Circulating(SetAccount(l, key, a), s) == Circulating(l, s) + When(s == SeriesOf(key), a.balance - AccountAt(l, key).balance) {
      BalancesUpdate(l.accounts, key, a, s);
    }
  }

  lemma DebitEffect(l: State, key: string, amount: int)
    ensures var m := Debit(l, key, amount);
            && Sum(Sequences(m.accounts)) == Sum(Sequences(l.accounts))
            && BalanceSum(m.accounts) == BalanceSum(l.accounts) - amount
            && forall s :: Circulating(m, s) == Circulating(l, s) - When(s == SeriesOf(key), amount)
  {
    hide Circulating, Sequences, SeriesOf, Sum;
    var a := AccountAt(l, key);
    SetAccountEffect(l, key, a.(balance := a.balance - amount));
  }

  lemma AdvanceEffect(l: State, key: string)
    ensures var m := Advance(l, key);
            && Sum(Sequences(m.accounts)) == Sum(Sequences(l.accounts)) + 1
            && BalanceSum(m.accounts) == BalanceSum(l.accounts)
            && forall s :: Circulating(m, s) == Circulating(l, s)
  {
    hide Circulating, Sequences, SeriesOf, Sum;
    var a := AccountAt(l, key);
    SetAccountEffect(l, key, a.(sequence := a.sequence + 1));
  }

  // A transfer moves balance, within one series if the keys agree on it, one sequence step
  // forward, and no lock.
  lemma MoveEffect(l: State, from: string, to: string, amount: int)
    ensures var m := MoveBalance(l, from, to, amount);
            && Sum(Sequences(m.accounts)) == Sum(Sequences(l.accounts)) + 1
            && BalanceSum(m.accounts) == BalanceSum(l.accounts)
            && (SeriesOf(from) == SeriesOf(to) ==> forall s :: Circulating(m, s) == Circulating(l, s))
  {
    hide Circulating, Sequences, SeriesOf, AccountAt, Sum, BalanceSum;
    var l1 := Debit(l, from, amount);
    var l2 := Debit(l1, to, -amount);
    DebitEffect(l, from, amount);
    DebitEffect(l1, to, -amount);
    AdvanceEffect(l2, from);
  }

  // Reading an absent account by creating it leaves the view and every sum alone.
  lemma TouchEffect(l: State, key: string)
    ensures var m := Touch(l, key);
            && SameView(l, m)
            && Sum(Sequences(m.accounts)) == Sum(Sequences(l.accounts))
            && BalanceSum(m.accounts) == BalanceSum(l.accounts)
            && forall s :: Circulating(m, s) == Circulating(l, s)
  {
    if key !in l.accounts {
      SequencesUpdate(l.accounts, key, ZeroAccount);
      BalanceSumUpdate(l.accounts, key, ZeroAccount);
      forall s ensures Circulating(Touch(l, key), s) == Circulating(l, s) { BalancesUpdate(l.accounts, key, ZeroAccount, s); }
    }
  }

  // Conservation and the lock and retirement accounts depend only on a few totals.
  lemma SameTotals(l: State, m: State)
    requires SeriesConserved(l) && TotalConserved(l) && LocksMatch(l) && RetirementsMatch(l)
    requires m.issued == l.issued && m.retired == l.retired && m.redemptions == l.redemptions && l.agents <= m.agents
    requires NulFreeAgents(l) ==> forall s :: Circulating(m, s) == Circulating(l, s)
    requires BalanceSum(m.accounts) == BalanceSum(l.accounts)
    requires forall key :: AccountAt(m, key).locked == AccountAt(l, key).locked
    ensures SeriesConserved(m) && TotalConserved(m) && LocksMatch(m) && RetirementsMatch(m)
  {
    LocksUnmoved(l, m);
    if NulFreeAgents(m) {
      assert NulFreeAgents(l);
      forall s ensures IssuedTotal(m, s) == Circulating(m, s) + RetiredTotal(m, s) {
        assert IssuedTotal(l, s) == Circulating(l, s) + RetiredTotal(l, s);
      }
    }
  }

  lemma AccountInRange(l: State, key: string)
    requires AccountsOk(l)
    ensures 0 <= AccountAt(l, key).locked <= AccountAt(l, key).balance && 0 <= AccountAt(l, key).sequence
  {
  }

  // ---------- Each operation keeps the invariant ----------

  lemma TouchKeeps(l: State, key: string)
    requires Inv(l) && NUL in key
    ensures Inv(Touch(l, key)) && SameView(l, Touch(l, key))
  {
    hide SeriesConserved, TotalConserved, LocksMatch, RetirementsMatch, EndedOnce, Circulating, BalanceSum, Sum, Sequences;
    EndedOnceSame(l, Touch(l, key));
    TouchEffect(l, key);
    SameTotals(l, Touch(l, key));
  }

  lemma KeyHasNul(agent: string, series: string)
    ensures NUL in Key(agent, series)
  {
    assert Key(agent, series)[|agent|] == NUL;
  }

  lemma RegisterKeeps(l: State, agent: string)
    requires Inv(l)
    ensures Inv(RegisterAgent(l, agent).state)
  {
    SameTotals(l, RegisterAgent(l, agent).state);
  }

  lemma CreditOneKeeps(l: State, series: string, item: Allocation)
    requires Inv(l) && item.recipient in l.agents && 0 <= item.amount
    ensures Inv(CreditOne(l, series, item))
  {
    var key := Key(item.recipient, series);
    var m := CreditOne(l, series, item);
    hide Circulating, Sequences, SeriesOf, Sum, SeriesConserved, TotalConserved, LocksMatch, RetirementsMatch, EndedOnce, Key;
    KeyHasNul(item.recipient, series);
    SetAccountEffect(l, key, m.accounts[key]);
    AccountInRange(l, key);
    CreditOneConserves(l, series, item);
    CreditOneTotal(l, series, item);
    LocksUnmoved(l, m);
    EndedOnceSame(l, m);
  }

  lemma EndedOnceSame(l: State, m: State)
    requires EndedOnce(l) && l.journal == m.journal && l.redemptions == m.redemptions
    ensures EndedOnce(m)
  {
  }

  lemma CreditOneTotal(l: State, series: string, item: Allocation)
    requires TotalConserved(l)
    ensures TotalConserved(CreditOne(l, series, item))
  {
    hide Circulating, Key, SeriesOf, BalanceSum, Sequences;
    var key := Key(item.recipient, series);
    SetAccountEffect(l, key, CreditOne(l, series, item).accounts[key]);
    SumUpdate(l.issued, series, IssuedTotal(l, series) + item.amount);
  }

  lemma CreditOneConserves(l: State, series: string, item: Allocation)
    requires SeriesConserved(l) && item.recipient in l.agents
    ensures SeriesConserved(CreditOne(l, series, item))
  {
    var key := Key(item.recipient, series);
    var m := CreditOne(l, series, item);
    SetAccountEffect(l, key, m.accounts[key]);
    if NulFreeAgents(m) {
      assert NulFreeAgents(l);
      KeyIsKey(item.recipient, series);
      hide Key, SeriesOf;
      forall s ensures IssuedTotal(m, s) == Circulating(m, s) + RetiredTotal(m, s) {
        assert Circulating(m, s) == Circulating(SetAccount(l, key, m.accounts[key]), s);
        assert IssuedTotal(l, s) == Circulating(l, s) + RetiredTotal(l, s);
      }
    }
  }

  lemma LocksUnmoved(l: State, m: State)
    requires LocksMatch(l) && RetirementsMatch(l)
    requires m.retired == l.retired && m.redemptions == l.redemptions
    requires forall key :: AccountAt(m, key).locked == AccountAt(l, key).locked
    ensures LocksMatch(m) && RetirementsMatch(m)
  {
    forall key ensures AccountAt(m, key).locked == Sum(LockedAmounts(m.redemptions, key)) {
      assert AccountAt(l, key).locked == Sum(LockedAmounts(l.redemptions, key));
    }
    forall s ensures RetiredTotal(m, s) == Sum(RetiredAmounts(m.redemptions, s)) {
      assert RetiredTotal(l, s) == Sum(RetiredAmounts(l.redemptions, s));
    }
  }

  lemma {:induction false} CreditAllKeeps(l: State, series: string, items: seq<Allocation>)
    requires Inv(l) && FirstBadItem(l, items) == None
    ensures Inv(CreditAll(l, series, items))
    decreases |items|
  {
    if items != [] {
      var m := CreditOne(l, series, items[0]);
      CreditOneKeeps(l, series, items[0]);
      SameAgentsSameItems(l, m, items[1..]);
      CreditAllKeeps(m, series, items[1..]);
    }
  }

  lemma SameAgentsSameItems(l: State, m: State, items: seq<Allocation>)
    requires l.agents == m.agents
    ensures FirstBadItem(l, items) == FirstBadItem(m, items)
  {
  }

  // A journal entry that ends nothing changes no ending.
  lemma LogKeeps(l: State, entry: Entry)
    requires Inv(l) && !entry.EndingEntry?
    ensures Inv(Log(l, entry))
  {
    var m := Log(l, entry);
    forall id ensures Endings(m.journal, id) == Endings(l.journal, id) { EndingsLog(l.journal, entry, id); }
    SameTotals(l, m);
  }

  // The account of a transfer's sender covers the amount; nobody's lock moves.
  lemma MoveInRange(l: State, from: string, to: string, amount: int)
    requires AccountsOk(l) && 0 < amount <= AccountAt(l, from).balance - AccountAt(l, from).locked
    ensures AccountsOk(MoveBalance(l, from, to, amount))
  {
    AccountInRange(l, from);
    AccountInRange(l, to);
  }

  // Two accounts of one series, as the agents' keys name it.
  ghost predicate SameSeries(l: State, from: string, to: string) {
    NulFreeAgents(l) ==> SeriesOf(from) == SeriesOf(to)
  }

  lemma MoveKeeps(l: State, from: string, to: string, amount: int, id: string, nonce: string)
    requires Inv(l) && NUL in from && NUL in to && SameSeries(l, from, to)
    requires 0 < amount <= AccountAt(l, from).balance - AccountAt(l, from).locked
    requires id !in l.acceptedIds && nonce !in l.acceptedNonces
    ensures Inv(Consume(MoveBalance(l, from, to, amount), id, nonce))
  {
    hide Circulating, Sequences, SeriesOf, Sum, BalanceSum, SeriesConserved, TotalConserved, LocksMatch, RetirementsMatch, EndedOnce, RedemptionsOk, NulFreeAgents;
    MoveEffect(l, from, to, amount);
    MoveInRange(l, from, to, amount);
    ConsumeKeeps(l, MoveBalance(l, from, to, amount), id, nonce);
  }

  // Consuming a fresh request after its account has moved one sequence step.
  lemma ConsumeKeeps(l: State, moved: State, id: string, nonce: string)
    requires Inv(l) && id !in l.acceptedIds && nonce !in l.acceptedNonces
    requires moved.(accounts := map[]) == l.(accounts := map[])
    requires AccountsOk(moved) && forall key <- moved.accounts :: NUL in key
    requires Sum(Sequences(moved.accounts)) == Sum(Sequences(l.accounts)) + 1
    requires BalanceSum(moved.accounts) == BalanceSum(l.accounts)
    requires NulFreeAgents(l) ==> forall s :: Circulating(moved, s) == Circulating(l, s)
    requires forall key :: AccountAt(moved, key).locked == AccountAt(l, key).locked
    ensures Inv(Consume(moved, id, nonce))
  {
    SameTotals(l, Consume(moved, id, nonce));
  }

  lemma AgentsSameSeries(l: State, a: string, b: string, series: string)
    requires a in l.agents && b in l.agents
    ensures SameSeries(l, Key(a, series), Key(b, series))
  {
    KeySplits(a, series);
    KeySplits(b, series);
  }

  lemma TransferKeeps(l: State, r: TransferRequest, now: int, signed: bool)
    requires Inv(l)
    ensures Inv(Transfer(l, r, now, signed).state)
    ensures Transfer(l, r, now, signed).result.Err? ==> SameView(l, Transfer(l, r, now, signed).state)
  {
    hide Inv, MoveBalance, Key, SameView;
    var from, to := Key(r.fromAgent, r.seriesId), Key(r.toAgent, r.seriesId);
    KeyHasNul(r.fromAgent, r.seriesId);
    KeyHasNul(r.toAgent, r.seriesId);
    if Transfer(l, r, now, signed).result.Ok? {
      AgentsSameSeries(l, r.fromAgent, r.toAgent, r.seriesId);
      MoveKeeps(l, from, to, r.amount, r.transferId, r.nonce);
      LogKeeps(Consume(MoveBalance(l, from, to, r.amount), r.transferId, r.nonce),
               TransferEntry(ReceiptOf(r, AccountAt(l, from).sequence + 1, now)));
    } else {
      TouchKeeps(l, from);
      SameIsSame(l);
    }
  }

  lemma StoredLocks(l: State, r: LockRequest)
    requires LocksMatch(l) && RetirementsMatch(l) && r.redemptionId !in l.redemptions
    ensures LocksMatch(Stored(l, r)) && RetirementsMatch(Stored(l, r))
  {
    var m := Stored(l, r);
    forall key ensures AccountAt(m, key).locked == Sum(LockedAmounts(m.redemptions, key)) {
      LockedAmountsAdd(l.redemptions, r.redemptionId, r, key);
      assert AccountAt(l, key).locked == Sum(LockedAmounts(l.redemptions, key));
    }
    forall s ensures RetiredTotal(m, s) == Sum(RetiredAmounts(m.redemptions, s)) {
      LockedAmountsAdd(l.redemptions, r.redemptionId, r, "");
      assert RetiredTotal(l, s) == Sum(RetiredAmounts(l.redemptions, s));
    }
  }

  lemma StoredTotals(l: State, r: LockRequest)
    requires SeriesConserved(l) && TotalConserved(l) && RequestsCounted(l)
    requires r.redemptionId !in l.acceptedIds && r.nonce !in l.acceptedNonces
    ensures SeriesConserved(Stored(l, r)) && TotalConserved(Stored(l, r)) && RequestsCounted(Stored(l, r))
  {
    var key := Key(r.holderAgent, r.seriesId);
    var m := Stored(l, r);
    SetAccountEffect(l, key, m.accounts[key]);
    if NulFreeAgents(m) {
      assert NulFreeAgents(l);
      forall s ensures IssuedTotal(m, s) == Circulating(m, s) + RetiredTotal(m, s) {
        assert Circulating(m, s) == Circulating(SetAccount(l, key, m.accounts[key]), s);
        assert IssuedTotal(l, s) == Circulating(l, s) + RetiredTotal(l, s);
      }
    }
  }

  // Locking unlocked balance under a fresh redemption id.
  lemma StoredKeeps(l: State, r: LockRequest)
    requires Inv(l) && r.holderAgent in l.agents && 0 < r.amount
    requires AccountAt(l, Key(r.holderAgent, r.seriesId)).balance - AccountAt(l, Key(r.holderAgent, r.seriesId)).locked >= r.amount
    requires r.redemptionId !in l.acceptedIds && r.nonce !in l.acceptedNonces
    ensures Inv(Stored(l, r))
  {
    AccountInRange(l, Key(r.holderAgent, r.seriesId));
    KeyHasNul(r.holderAgent, r.seriesId);
    StoredLocks(l, r);
    StoredTotals(l, r);
  }

  lemma LockKeeps(l: State, r: LockRequest, now: int, signed: bool)
    requires Inv(l)
    ensures Inv(LockRedemption(l, r, now, signed).state)
    ensures LockRedemption(l, r, now, signed).result.Err? ==> SameView(l, LockRedemption(l, r, now, signed).state)
  {
    if LockRedemption(l, r, now, signed).result.Ok? {
      StoredKeeps(l, r);
      LogKeeps(Stored(l, r), LockedEntry(r.redemptionId));
    } else {
      KeyHasNul(r.holderAgent, r.seriesId);
      TouchKeeps(l, Key(r.holderAgent, r.seriesId));
    }
  }

  lemma EndLocks(l: State, id: string, outcome: Status)
    requires LocksMatch(l) && RetirementsMatch(l) && IsLocked(l, id) && outcome != Locked
    ensures LocksMatch(End(l, id, outcome)) && RetirementsMatch(End(l, id, outcome))
  {
    var m := End(l, id, outcome);
    forall key ensures AccountAt(m, key).locked == Sum(LockedAmounts(m.redemptions, key)) {
      LockedAmountsEnd(l.redemptions, id, outcome, key);
      assert AccountAt(l, key).locked == Sum(LockedAmounts(l.redemptions, key));
    }
    forall s ensures RetiredTotal(m, s) == Sum(RetiredAmounts(m.redemptions, s)) {
      RetiredAmountsEnd(l.redemptions, id, outcome, s);
      assert RetiredTotal(l, s) == Sum(RetiredAmounts(l.redemptions, s));
    }
  }

  lemma EndSeries(l: State, id: string, outcome: Status)
    requires SeriesConserved(l) && KeysOk(l) && IsLocked(l, id) && outcome != Locked
    ensures SeriesConserved(End(l, id, outcome))
  {
    var r := l.redemptions[id].request;
    var key := Key(r.holderAgent, r.seriesId);
    var m := End(l, id, outcome);
    SetAccountEffect(l, key, m.accounts[key]);
    if NulFreeAgents(m) {
      assert NulFreeAgents(l);
      KeyIsKey(r.holderAgent, r.seriesId);
      hide Key, SeriesOf;
      forall s ensures IssuedTotal(m, s) == Circulating(m, s) + RetiredTotal(m, s) {
        assert Circulating(m, s) == Circulating(SetAccount(l, key, m.accounts[key]), s);
        assert IssuedTotal(l, s) == Circulating(l, s) + RetiredTotal(l, s);
      }
    }
  }

  lemma EndTotals(l: State, id: string, outcome: Status)
    requires TotalConserved(l) && RequestsCounted(l) && IsLocked(l, id) && outcome != Locked
    ensures TotalConserved(End(l, id, outcome)) && RequestsCounted(End(l, id, outcome))
  {
    hide Circulating, Key, SeriesOf, BalanceSum, Sequences;
    var r := l.redemptions[id].request;
    var key := Key(r.holderAgent, r.seriesId);
    var m := End(l, id, outcome);
    SetAccountEffect(l, key, m.accounts[key]);
    SumUpdate(l.retired, r.seriesId, RetiredTotal(l, r.seriesId) + r.amount);
  }

  lemma EndInRange(l: State, id: string, outcome: Status)
    requires KeysOk(l) && AccountsOk(l) && RedemptionsOk(l) && LocksMatch(l) && IsLocked(l, id) && outcome != Locked
    ensures KeysOk(End(l, id, outcome)) && AccountsOk(End(l, id, outcome)) && RedemptionsOk(End(l, id, outcome))
  {
    var r := l.redemptions[id].request;
    LockCovered(l, id);
    AccountInRange(l, KeyOf(l.redemptions[id]));
    KeyHasNul(r.holderAgent, r.seriesId);
    hide Key, LocksMatch;
  }

  lemma EndJournal(l: State, id: string, outcome: Status)
    requires EndedOnce(l) && IsLocked(l, id) && outcome != Locked
    ensures EndedOnce(End(l, id, outcome))
  {
    hide Endings, Key, AccountAt;
    var r := l.redemptions[id].request;
    var m := End(l, id, outcome);
    var entry := EndingEntry(Record(id, r.seriesId, r.amount, outcome));
    forall i ensures Endings(m.journal, i) == if i in m.redemptions && m.redemptions[i].status != Locked then [m.redemptions[i].status] else [] {
      EndingsLog(l.journal, entry, i);
    }
  }

  // Ending a locked redemption either way.
  lemma EndKeeps(l: State, id: string, outcome: Status)
    requires Inv(l) && IsLocked(l, id) && outcome != Locked
    ensures Inv(End(l, id, outcome))
  {
    hide SeriesConserved, TotalConserved, LocksMatch, RetirementsMatch, EndedOnce, RedemptionsOk, KeysOk, AccountsOk, RequestsCounted, End, Key;
    EndInRange(l, id, outcome);
    EndLocks(l, id, outcome);
    EndSeries(l, id, outcome);
    EndTotals(l, id, outcome);
    EndJournal(l, id, outcome);
  }

  // ---------- Whole runs ----------

  lemma AllocateKeeps(l: State, series: string, items: seq<Allocation>)
    requires Inv(l)
    ensures Inv(Allocate(l, series, items).state)
  {
    hide Inv, CreditAll, ProofIds, Distinct, FirstBadItem;
    if Allocate(l, series, items).result.Ok? {
      CreditAllKeeps(l, series, items);
      LogKeeps(CreditAll(l, series, items), AllocationEntry(series, ProofIds(items)));
    }
  }

  lemma RetireKeeps(l: State, id: string, receipt: ExecutionReceipt)
    requires Inv(l)
    ensures Inv(Retire(l, id, receipt).state)
  {
    hide Inv, End;
    if IsLocked(l, id) { EndKeeps(l, id, Retired); }
  }

  lemma ReleaseKeeps(l: State, id: string)
    requires Inv(l)
    ensures Inv(Release(l, id).state)
  {
    hide Inv, End;
    if IsLocked(l, id) { EndKeeps(l, id, Refunded); }
  }

  // Every call keeps the invariant, and a call that throws leaves the view as it was.
  lemma ApplyKeeps(l: State, op: Op)
    requires Inv(l)
    ensures Inv(Apply(l, op).0)
    ensures !Apply(l, op).1 ==> SameView(l, Apply(l, op).0)
  {
    hide Inv, SameView, Transfer, LockRedemption, Key, Touch;
    match op
    case OpRegister(agent) => RegisterKeeps(l, agent); SameIsSame(l);
    case OpBalance(agent, series) =>
      KeyHasNul(agent, series);
      TouchKeeps(l, Key(agent, series));
    case OpAllocate(series, items) => AllocateKeeps(l, series, items); SameIsSame(l);
    case OpTransfer(r, now, signed) => TransferKeeps(l, r, now, signed);
    case OpLock(r, now, signed) => LockKeeps(l, r, now, signed);
    case OpRetire(id, receipt) => RetireKeeps(l, id, receipt); SameIsSame(l);
    case OpRelease(id) => ReleaseKeeps(l, id); SameIsSame(l);
  }

  lemma SameIsSame(l: State)
    ensures SameView(l, l)
  {
  }

  // Whatever is called, in whatever order, with whatever identifiers, and whichever calls throw.
  lemma {:induction false} RunKeeps(l: State, ops: seq<Op>)
    requires Inv(l)
    ensures Inv(Run(l, ops))
    decreases |ops|
  {
    if ops != [] {
      ApplyKeeps(l, ops[0]);
      RunKeeps(Apply(l, ops[0]).0, ops[1..]);
    }
  }

  lemma EmptyInv()
    ensures Inv(Empty)
  {
    assert forall s :: Circulating(Empty, s) == 0;
    assert BalanceSum(map[]) == 0;
  }

  lemma Reachable(ops: seq<Op>)
    ensures Inv(Run(Empty, ops))
  {
    EmptyInv();
    RunKeeps(Empty, ops);
  }

  // The agents of a run are those it registers.
  ghost predicate RegistersNulFree(ops: seq<Op>) {
    forall op <- ops :: op.OpRegister? ==> NulFree(op.agent)
  }

  lemma AgentsStay(l: State, op: Op)
    ensures Apply(l, op).0.agents == l.agents + if op.OpRegister? && op.agent != "" then {op.agent} else {}
  {
    hide Key;
    match op
    case OpAllocate(series, items) => AllocateAgents(l, series, items);
    case OpTransfer(r, now, signed) => TransferAgents(l, r, now, signed);
    case _ =>
  }

  lemma {:induction false} AllocateAgents(l: State, series: string, items: seq<Allocation>)
    ensures CreditAll(l, series, items).agents == l.agents
    decreases |items|
  {
    if items != [] { AllocateAgents(CreditOne(l, series, items[0]), series, items[1..]); }
  }

  lemma TransferAgents(l: State, r: TransferRequest, now: int, signed: bool)
    ensures Transfer(l, r, now, signed).state.agents == l.agents
  {
    hide Key;
  }

  lemma {:induction false} RunNulFree(l: State, ops: seq<Op>)
    requires NulFreeAgents(l) && RegistersNulFree(ops)
    ensures NulFreeAgents(Run(l, ops))
    decreases |ops|
  {
    if ops != [] {
      AgentsStay(l, ops[0]);
      RunNulFree(Apply(l, ops[0]).0, ops[1..]);
    }
  }
}
