/**
 The in-memory settlement registry: its maps and sets as mutable fields, each method
 updating them in the registry's own order, proved against the ledger functions.
 The clock reading and the outcome of the signature check are arguments.
*/
module Registry {
  import opened Results
  import opened Sums
  import L = Ledger
  import LC = LedgerCalls

  lemma DebitTouched(l: L.State, key: string, amount: int)
    ensures L.Debit(L.Touch(l, key), key, amount) == L.Debit(l, key, amount)
  {
    var a := L.AccountAt(l, key);
    var b := a.(balance := a.balance - amount);
    assert l.accounts[key := a][key := b] == l.accounts[key := b];
  }

  lemma DebitOtherTouched(l: L.State, key: string, other: string, amount: int)
    requires key != other
    ensures L.Debit(L.Touch(l, other), key, amount) == L.Touch(L.Debit(l, key, amount), other)
  {
    var a := L.AccountAt(l, key);
    var b := a.(balance := a.balance - amount);
    assert l.accounts[other := L.ZeroAccount][key := b] == l.accounts[key := b][other := L.ZeroAccount];
  }

  // Creating both accounts first makes no difference to a transfer that goes through.
  lemma TouchedMove(l: L.State, from: string, to: string, amount: int)
    ensures L.MoveBalance(L.Touch(L.Touch(l, from), to), from, to, amount) == L.MoveBalance(l, from, to, amount)
  {
    hide L.Debit, L.Touch, L.Advance;
    DebitTouched(l, from, amount);
    if from != to {
      DebitOtherTouched(L.Touch(l, from), from, to, amount);
      DebitTouched(L.Debit(l, from, amount), to, -amount);
    } else {
      DebitTouched(L.Touch(l, from), from, amount);
    }
  }

  lemma TouchedTransfer(l: L.State, r: L.TransferRequest, now: int)
    ensures L.Transferred(L.Touch(l, L.Key(r.fromAgent, r.seriesId)), r, now) == L.Transferred(l, r, now)
  {
    var from, to := L.Key(r.fromAgent, r.seriesId), L.Key(r.toAgent, r.seriesId);
    var m := L.Touch(l, from);
    TouchedMove(l, from, to, r.amount);
    TouchedMove(m, from, to, r.amount);
    assert L.Touch(m, from) == m;
    hide L.MoveBalance, L.Key;
  }

  lemma TakeOne(accounts: map<string, L.Account>, key: string)
    requires key in accounts
    ensures L.BalanceSum(accounts) == accounts[key].balance + L.BalanceSum(accounts - {key})
    ensures L.LockedSum(accounts) == accounts[key].locked + L.LockedSum(accounts - {key})
  {
    var rest := accounts - {key};
    var balances := map k | k in accounts :: accounts[k].balance;
    var locks := map k | k in accounts :: accounts[k].locked;
    assert balances - {key} == map k | k in rest :: rest[k].balance;
    assert locks - {key} == map k | k in rest :: rest[k].locked;
    SumRemove(balances, key);
    SumRemove(locks, key);
  }

  class SettlementRegistry {
    var agents: set<string>
    var accounts: map<string, L.Account>
    var acceptedIds: set<string>
    var acceptedNonces: set<string>
    var consumedProofs: set<string>
    var redemptions: map<string, L.Redemption>
    var issuedBySeries: map<string, int>
    var retiredBySeries: map<string, int>
    var journal: seq<L.Entry>

    ghost function Model(): L.State
      reads this
    {
      L.State(agents, accounts, acceptedIds, acceptedNonces, consumedProofs,
              redemptions, issuedBySeries, retiredBySeries, journal)
    }

    constructor ()
      ensures Model() == L.Empty
    {
      agents, accounts, acceptedIds, acceptedNonces, consumedProofs := {}, map[], {}, {}, {};
      redemptions, issuedBySeries, retiredBySeries, journal := map[], map[], map[], [];
    }

    method RegisterAgent(agentId: string) returns (r: Result<(), L.Error>)
      modifies this
      ensures L.Step(Model(), r) == L.RegisterAgent(old(Model()), agentId)
      ensures agentId == "" ==> r == Err(L.AgentIdRequired) && Model() == old(Model())
      ensures agentId != "" ==> r.Ok? && Model() == old(Model()).(agents := old(agents) + {agentId})
    {
      if agentId == "" { return Err(L.AgentIdRequired); }
      agents := agents + {agentId};
      return Ok(());
    }

    // The lazily created account of a key.
    method Account(key: string) returns (a: L.Account)
      modifies this`accounts
      ensures Model() == L.Touch(old(Model()), key)
      ensures key in accounts && a == accounts[key] == L.AccountAt(old(Model()), key)
    {
      if key !in accounts { accounts := accounts[key := L.ZeroAccount]; }
      a := accounts[key];
    }

    method Balance(agentId: string, seriesId: string) returns (r: Result<L.Account, L.Error>)
      modifies this`accounts
      ensures L.Step(Model(), r) == L.Balance(old(Model()), agentId, seriesId)
      ensures var key := L.Key(agentId, seriesId);
              key in accounts && r == Ok(accounts[key])
              && if key in old(accounts) then Model() == old(Model())
                 else Model() == old(Model()).(accounts := old(accounts)[key := L.Account(0, 0, 0)])
    {
      var a := Account(L.Key(agentId, seriesId));
      r := Ok(a);
    }

    // The checks of every item before any is credited.
    method CheckItems(items: seq<L.Allocation>) returns (refusal: Option<L.Error>)
      ensures refusal == L.FirstBadItem(Model(), items)
    {
      for i := 0 to |items|
        invariant L.FirstBadItem(Model(), items[i..]) == L.FirstBadItem(Model(), items)
      {
        if items[i].recipient !in agents { return Some(L.UnknownRecipient); }
        if !SafeInteger(items[i].amount) || items[i].amount < 0 { return Some(L.BadAllocation); }
        assert items[i..][1..] == items[i + 1..];
      }
      return None;
    }

    method Credit(seriesId: string, item: L.Allocation)
      modifies this
      ensures Model() == L.CreditOne(old(Model()), seriesId, item)
    {
      var key := L.Key(item.recipient, seriesId);
      var a := Account(key);
      accounts := accounts[key := a.(balance := a.balance + item.amount)];
      issuedBySeries := issuedBySeries[seriesId := At(issuedBySeries, seriesId) + item.amount];
      consumedProofs := consumedProofs + {item.proofId};
      assert accounts == old(accounts)[key := a.(balance := a.balance + item.amount)];
    }

    method Allocate(seriesId: string, items: seq<L.Allocation>) returns (r: Result<(), L.Error>)
      modifies this
      ensures L.Step(Model(), r) == L.Allocate(old(Model()), seriesId, items)
      ensures r.Ok? <==>
        && (forall i, k :: 0 <= i < k < |items| ==> items[i].proofId != items[k].proofId)
        && (forall i :: 0 <= i < |items| ==> items[i].proofId !in old(consumedProofs))
        && (forall i :: 0 <= i < |items| ==> items[i].recipient in old(agents) && 0 <= items[i].amount < 0x20_0000_0000_0000)
      ensures r == Err(L.ProofConsumed) <==>
        || (exists i, k :: 0 <= i < k < |items| && items[i].proofId == items[k].proofId)
        || (exists i :: 0 <= i < |items| && items[i].proofId in old(consumedProofs))
      ensures r.Err? && r.error != L.ProofConsumed ==>
        exists i :: 0 <= i < |items|
          && r.error == (if items[i].recipient !in old(agents) then L.UnknownRecipient else L.BadAllocation)
          && (items[i].recipient in old(agents) ==> !(0 <= items[i].amount < 0x20_0000_0000_0000))
          && forall k :: 0 <= k < i ==> items[k].recipient in old(agents) && 0 <= items[k].amount < 0x20_0000_0000_0000
      ensures r.Err? ==> Model() == old(Model())
      ensures r.Ok? ==>
        && agents == old(agents) && acceptedIds == old(acceptedIds) && acceptedNonces == old(acceptedNonces)
        && redemptions == old(redemptions) && retiredBySeries == old(retiredBySeries)
        && journal == old(journal) + [L.AllocationEntry(seriesId, seq(|items|, i requires 0 <= i < |items| => items[i].proofId))]
    {
      LC.AllocateAccepted(Model(), seriesId, items);
      LC.AllocateOutcome(Model(), seriesId, items);
      hide L.SameView;
      var proofIds := L.ProofIds(items);
      if !L.Distinct(proofIds) || exists id <- proofIds :: id in consumedProofs { return Err(L.ProofConsumed); }
      var refusal := CheckItems(items);
      if refusal.Some? { return Err(refusal.value); }
      for i := 0 to |items|
        invariant L.CreditAll(Model(), seriesId, items[i..]) == L.CreditAll(old(Model()), seriesId, items)
      {
        assert items[i..][1..] == items[i + 1..];
        Credit(seriesId, items[i]);
      }
      journal := journal + [L.AllocationEntry(seriesId, proofIds)];
      return Ok(());
    }

    // Sender and recipient may be the same account, so each change reads the account afresh.
    method Move(from: string, to: string, amount: int)
      requires from in accounts && to in accounts
      modifies this`accounts
      ensures Model() == L.MoveBalance(old(Model()), from, to, amount)
      ensures from in accounts && accounts[from].sequence == old(accounts[from].sequence) + 1
    {
      accounts := accounts[from := accounts[from].(balance := accounts[from].balance - amount)];
      accounts := accounts[to := accounts[to].(balance := accounts[to].balance + amount)];
      accounts := accounts[from := accounts[from].(sequence := accounts[from].sequence + 1)];
    }

    // The part of a transfer that nothing refuses any more.
    method CommitTransfer(request: L.TransferRequest, now: int) returns (receipt: L.TransferReceipt)
      requires L.Key(request.fromAgent, request.seriesId) in accounts
      modifies this
      ensures Model() == L.Transferred(old(Model()), request, now)
      ensures receipt == L.ReceiptOf(request, L.AccountAt(old(Model()), L.Key(request.fromAgent, request.seriesId)).sequence + 1, now)
    {
      hide L.Key;
      var from, to := L.Key(request.fromAgent, request.seriesId), L.Key(request.toAgent, request.seriesId);
      var recipient := Account(to);
      Move(from, to, request.amount);
      TouchedMove(old(Model()), from, to, request.amount);
      hide L.MoveBalance;
      acceptedIds, acceptedNonces := acceptedIds + {request.transferId}, acceptedNonces + {request.nonce};
      receipt := L.ReceiptOf(request, accounts[from].sequence, now);
      journal := journal + [L.TransferEntry(receipt)];
    }

    method Transfer(request: L.TransferRequest, now: int, signed: bool) returns (r: Result<L.TransferReceipt, L.Error>)
      modifies this
      ensures L.Step(Model(), r) == L.Transfer(old(Model()), request, now, signed)
      ensures var sender := L.AccountAt(old(Model()), L.Key(request.fromAgent, request.seriesId));
        && (r.Ok? <==>
              && 0 < request.amount < 0x20_0000_0000_0000 && request.fromAgent in old(agents) && signed
              && request.transferId !in old(acceptedIds) && request.nonce !in old(acceptedNonces) && now < request.expiresAt
              && request.senderSequence == sender.sequence && request.toAgent in old(agents)
              && request.amount <= sender.balance - sender.locked)
        && (r.Err? ==> L.SameView(old(Model()), Model()))
        && (r.Err? ==>
              r.error ==
              if !(0 < request.amount < 0x20_0000_0000_0000) then L.BadAmount
              else if request.fromAgent !in old(agents) then L.NotCredentialed
              else if !signed then L.BadSignature
              else if request.transferId in old(acceptedIds) || request.nonce in old(acceptedNonces) then L.Replayed
              else if request.expiresAt <= now then L.Expired
              else if request.senderSequence != sender.sequence then L.UnexpectedSequence
              else if request.toAgent !in old(agents) then L.UnknownRecipient
              else L.Insufficient)
        && (r.Ok? ==> r.value == L.TransferReceipt("settle:" + request.transferId, request.transferId, request.seriesId, request.fromAgent,
              request.toAgent, request.amount, request.senderSequence, sender.sequence + 1, now))
      ensures r.Ok? ==>
        && acceptedIds == old(acceptedIds) + {request.transferId} && acceptedNonces == old(acceptedNonces) + {request.nonce}
        && journal == old(journal) + [L.TransferEntry(r.value)] && agents == old(agents) && consumedProofs == old(consumedProofs)
        && redemptions == old(redemptions) && issuedBySeries == old(issuedBySeries) && retiredBySeries == old(retiredBySeries)
    {
      LC.TransferAccepted(Model(), request, now, signed);
      if L.Transfer(Model(), request, now, signed).result.Ok? { LC.TransferOutcome(Model(), request, now, signed); }
      hide L.Key, L.Transferred, L.MoveBalance, L.SameView;
      if !L.PositiveAmount(request.amount) { return Err(L.BadAmount); }
      var refusal := ValidateRequest(request.fromAgent, request.seriesId, request.transferId, request.nonce,
                                     request.expiresAt, request.senderSequence, now, signed);
      if refusal.Some? { return Err(refusal.value); }
      if request.toAgent !in agents { return Err(L.UnknownRecipient); }
      var from := L.Key(request.fromAgent, request.seriesId);
      var sender := Account(from);
      if sender.balance - sender.locked < request.amount { return Err(L.Insufficient); }
      TouchedTransfer(old(Model()), request, now);
      var receipt := CommitTransfer(request, now);
      return Ok(receipt);
    }

    method LockRedemption(request: L.LockRequest, now: int, signed: bool) returns (r: Result<L.Record, L.Error>)
      modifies this
      ensures L.Step(Model(), r) == L.LockRedemption(old(Model()), request, now, signed)
      ensures var holder := L.AccountAt(old(Model()), L.Key(request.holderAgent, request.seriesId));
        && (r.Ok? <==>
              && 0 < request.amount < 0x20_0000_0000_0000 && request.holderAgent in old(agents) && signed
              && request.redemptionId !in old(acceptedIds) && request.nonce !in old(acceptedNonces) && now < request.expiresAt
              && request.senderSequence == holder.sequence && request.amount <= holder.balance - holder.locked)
        && (r.Err? ==> L.SameView(old(Model()), Model()))
        && (r.Err? ==>
              r.error ==
              if !(0 < request.amount < 0x20_0000_0000_0000) then L.BadAmount
              else if request.holderAgent !in old(agents) then L.NotCredentialed
              else if !signed then L.BadSignature
              else if request.redemptionId in old(acceptedIds) || request.nonce in old(acceptedNonces) then L.Replayed
              else if request.expiresAt <= now then L.Expired
              else if request.senderSequence != holder.sequence then L.UnexpectedSequence
              else L.Insufficient)
        && (r.Ok? ==> accounts == old(accounts)[L.Key(request.holderAgent, request.seriesId) :=
              L.Account(holder.balance, holder.locked + request.amount, holder.sequence + 1)])
      ensures r.Ok? ==>
        && r.value == L.Record(request.redemptionId, request.seriesId, request.amount, L.Locked)
        && redemptions == old(redemptions)[request.redemptionId := L.Redemption(request, L.Locked)]
        && acceptedIds == old(acceptedIds) + {request.redemptionId} && acceptedNonces == old(acceptedNonces) + {request.nonce}
        && journal == old(journal) + [L.LockedEntry(request.redemptionId)] && agents == old(agents)
        && consumedProofs == old(consumedProofs) && issuedBySeries == old(issuedBySeries) && retiredBySeries == old(retiredBySeries)
    {
      LC.LockAccepted(Model(), request, now, signed);
      if L.LockRedemption(Model(), request, now, signed).result.Ok? { LC.LockOutcome(Model(), request, now, signed); }
      hide L.Key, L.SameView;
      if !L.PositiveAmount(request.amount) { return Err(L.BadAmount); }
      var refusal := ValidateRequest(request.holderAgent, request.seriesId, request.redemptionId, request.nonce,
                                     request.expiresAt, request.senderSequence, now, signed);
      if refusal.Some? { return Err(refusal.value); }
      var key := L.Key(request.holderAgent, request.seriesId);
      var account := Account(key);
      if account.balance - account.locked < request.amount { return Err(L.Insufficient); }
      accounts := accounts[key := accounts[key].(locked := accounts[key].locked + request.amount)];
      accounts := accounts[key := accounts[key].(sequence := accounts[key].sequence + 1)];
      acceptedIds, acceptedNonces := acceptedIds + {request.redemptionId}, acceptedNonces + {request.nonce};
      redemptions := redemptions[request.redemptionId := L.Redemption(request, L.Locked)];
      journal := journal + [L.LockedEntry(request.redemptionId)];
      assert accounts == L.Stored(old(Model()), request).accounts;
      return Ok(L.Record(request.redemptionId, request.seriesId, request.amount, L.Locked));
    }

    method Redemption(redemptionId: string) returns (r: Option<L.Redemption>)
      ensures r.Some? <==> redemptionId in Model().redemptions
      ensures r.Some? ==> r.value == Model().redemptions[redemptionId]
    {
      r := if redemptionId in redemptions then Some(redemptions[redemptionId]) else None;
    }

    // Takes an ended redemption's amount off the lock, and off the balance if it is spent.
    method Settle(key: string, amount: int, spent: bool)
      modifies this`accounts
      ensures var a := L.AccountAt(old(Model()), key);
              accounts == old(accounts)[key := L.Account(if spent then a.balance - amount else a.balance, a.locked - amount, a.sequence)]
    {
      var account := Account(key);
      accounts := accounts[key := accounts[key].(locked := accounts[key].locked - amount)];
      if spent { accounts := accounts[key := accounts[key].(balance := accounts[key].balance - amount)]; }
    }

    method Retire(redemptionId: string, receipt: L.ExecutionReceipt) returns (r: Result<L.Record, L.Error>)
      modifies this
      ensures L.Step(Model(), r) == L.Retire(old(Model()), redemptionId, receipt)
      ensures r == Err(L.NotLocked) <==> !(redemptionId in old(redemptions) && old(redemptions)[redemptionId].status == L.Locked)
      ensures r == Err(L.NotVerified) <==>
        && redemptionId in old(redemptions) && old(redemptions)[redemptionId].status == L.Locked
        && !(receipt.redemptionId == redemptionId && receipt.verified)
      ensures r.Ok? <==>
        && redemptionId in old(redemptions) && old(redemptions)[redemptionId].status == L.Locked
        && receipt.redemptionId == redemptionId && receipt.verified
      ensures r.Err? ==> Model() == old(Model())
      ensures r.Ok? ==>
        var request := old(redemptions)[redemptionId].request;
        var key := L.Key(request.holderAgent, request.seriesId);
        var a := L.AccountAt(old(Model()), key);
        && r.value == L.Record(redemptionId, request.seriesId, request.amount, L.Retired)
        && accounts == old(accounts)[key := L.Account(a.balance - request.amount, a.locked - request.amount, a.sequence)]
        && redemptions == old(redemptions)[redemptionId := L.Redemption(request, L.Retired)]
        && retiredBySeries == old(retiredBySeries)[request.seriesId := At(old(retiredBySeries), request.seriesId) + request.amount]
        && journal == old(journal) + [L.EndingEntry(r.value)] && agents == old(agents) && acceptedIds == old(acceptedIds)
        && acceptedNonces == old(acceptedNonces) && consumedProofs == old(consumedProofs) && issuedBySeries == old(issuedBySeries)
    {
      hide L.Key, L.AccountAt;
      if redemptionId !in redemptions || redemptions[redemptionId].status != L.Locked { return Err(L.NotLocked); }
      if receipt.redemptionId != redemptionId || !receipt.verified { return Err(L.NotVerified); }
      var request := redemptions[redemptionId].request;
      Settle(L.Key(request.holderAgent, request.seriesId), request.amount, true);
      redemptions := redemptions[redemptionId := L.Redemption(request, L.Retired)];
      retiredBySeries := retiredBySeries[request.seriesId := At(retiredBySeries, request.seriesId) + request.amount];
      var record := L.Record(redemptionId, request.seriesId, request.amount, L.Retired);
      journal := journal + [L.EndingEntry(record)];
      return Ok(record);
    }

    method ReleaseRedemption(redemptionId: string) returns (r: Result<L.Record, L.Error>)
      modifies this
      ensures L.Step(Model(), r) == L.Release(old(Model()), redemptionId)
      ensures r.Ok? <==> redemptionId in old(redemptions) && old(redemptions)[redemptionId].status == L.Locked
      ensures r.Err? ==> r.error == L.NotLocked
      ensures r.Err? ==> Model() == old(Model())
      ensures r.Ok? ==>
        var request := old(redemptions)[redemptionId].request;
        var key := L.Key(request.holderAgent, request.seriesId);
        var a := L.AccountAt(old(Model()), key);
        && r.value == L.Record(redemptionId, request.seriesId, request.amount, L.Refunded)
        && accounts == old(accounts)[key := L.Account(a.balance, a.locked - request.amount, a.sequence)]
        && redemptions == old(redemptions)[redemptionId := L.Redemption(request, L.Refunded)]
        && retiredBySeries == old(retiredBySeries)
        && journal == old(journal) + [L.EndingEntry(r.value)] && agents == old(agents) && acceptedIds == old(acceptedIds)
        && acceptedNonces == old(acceptedNonces) && consumedProofs == old(consumedProofs) && issuedBySeries == old(issuedBySeries)
    {
      hide L.Key, L.AccountAt;
      if redemptionId !in redemptions || redemptions[redemptionId].status != L.Locked { return Err(L.NotLocked); }
      var request := redemptions[redemptionId].request;
      Settle(L.Key(request.holderAgent, request.seriesId), request.amount, false);
      redemptions := redemptions[redemptionId := L.Redemption(request, L.Refunded)];
      var record := L.Record(redemptionId, request.seriesId, request.amount, L.Refunded);
      journal := journal + [L.EndingEntry(record)];
      return Ok(record);
    }

    // Replay, expiry and sequence checks; the account is created only after the first four pass.
    method ValidateRequest(actor: string, seriesId: string, id: string, nonce: string, expiresAt: int,
                           senderSequence: int, now: int, signed: bool) returns (refusal: Option<L.Error>)
      modifies this`accounts
      ensures var early := L.Refusal(old(Model()), actor, id, nonce, expiresAt, now, signed);
              var key := L.Key(actor, seriesId);
              if early.Some? then refusal == early && Model() == old(Model())
              else Model() == L.Touch(old(Model()), key)
                   && refusal == if senderSequence != L.AccountAt(old(Model()), key).sequence then Some(L.UnexpectedSequence) else None
    {
      if actor !in agents { return Some(L.NotCredentialed); }
      if !signed { return Some(L.BadSignature); }
      if id in acceptedIds || nonce in acceptedNonces { return Some(L.Replayed); }
      if expiresAt <= now { return Some(L.Expired); }
      var account := Account(L.Key(actor, seriesId));
      if senderSequence != account.sequence { return Some(L.UnexpectedSequence); }
      return None;
    }

    method LedgerSummary(seriesId: string) returns (s: L.Summary)
      ensures s == L.LedgerSummary(Model(), seriesId)
      ensures s.accounts == map key | key in accounts && |seriesId| < |key| && key[|key| - |seriesId| - 1..] == [L.NUL] + seriesId :: accounts[key]
      ensures s.issuedTotal == At(issuedBySeries, seriesId) && s.retiredTotal == At(retiredBySeries, seriesId)
      ensures s.spendableTotal == s.circulatingTotal - s.lockedTotal
      ensures s.conservationValid <==> s.issuedTotal == s.circulatingTotal + s.retiredTotal
    {
      var selected := map key | key in accounts && L.EndsWith(key, [L.NUL] + seriesId) :: accounts[key];
      assert selected == L.Selected(Model(), seriesId);
      var circulating, locked := Totals(selected);
      var issued, retired := At(issuedBySeries, seriesId), At(retiredBySeries, seriesId);
      s := L.Summary(issued, circulating, circulating - locked, locked, retired, issued == circulating + retired, selected);
    }

    // The two reductions over the selected accounts, whatever their order.
    static method Totals(selected: map<string, L.Account>) returns (circulating: int, locked: int)
      ensures circulating == L.BalanceSum(selected) && locked == L.LockedSum(selected)
    {
      circulating, locked := 0, 0;
      var left := selected;
      while left != map[]
        invariant left.Keys <= selected.Keys
        invariant circulating + L.BalanceSum(left) == L.BalanceSum(selected)
        invariant locked + L.LockedSum(left) == L.LockedSum(selected)
        decreases |left|
      {
        var key :| key in left;
        TakeOne(left, key);
        circulating, locked := circulating + left[key].balance, locked + left[key].locked;
        left := left - {key};
      }
    }
  }
}
