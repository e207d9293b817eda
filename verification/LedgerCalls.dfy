/** Which calls the ledger accepts, field by field. */
module LedgerCalls {
  // For each call: when it is accepted, which error it gives otherwise, and what an accepted
  // call writes to every field, in terms of the stored fields and the request alone.
  import opened Results
  import opened Sums
  import opened Ledger
  import opened LedgerTheorems

  lemma {:induction false} NoBadItem(l: State, items: seq<Allocation>)
    ensures FirstBadItem(l, items).None? <==> forall i :: 0 <= i < |items| ==> items[i].recipient in l.agents && 0 <= items[i].amount < 0x20_0000_0000_0000
  {
    if items != [] {
      NoBadItem(l, items[1..]);
      assert items == [items[0]] + items[1..];
    }
  }

  lemma {:induction false} FirstBad(l: State, items: seq<Allocation>) returns (i: nat)
    requires FirstBadItem(l, items).Some?
    ensures i < |items| && (items[i].recipient in l.agents ==> !(0 <= items[i].amount < 0x20_0000_0000_0000))
    ensures FirstBadItem(l, items) == Some(if items[i].recipient !in l.agents then UnknownRecipient else BadAllocation)
    ensures forall k :: 0 <= k < i ==> items[k].recipient in l.agents && 0 <= items[k].amount < 0x20_0000_0000_0000
  {
    if items[0].recipient in l.agents && 0 <= items[0].amount < 0x20_0000_0000_0000 {
      var j := FirstBad(l, items[1..]);
      i := j + 1;
      forall k | 0 <= k < i ensures items[k].recipient in l.agents && 0 <= items[k].amount < 0x20_0000_0000_0000 {
        if 0 < k { assert items[k] == items[1..][k - 1]; }
      }
    } else {
      i := 0;
    }
  }

  // An allocation takes distinct, unconsumed proofs for registered recipients, of safe amounts.
  lemma AllocateAccepted(l: State, series: string, items: seq<Allocation>)
    ensures Allocate(l, series, items).result.Ok? <==>
      && (forall i, k :: 0 <= i < k < |items| ==> items[i].proofId != items[k].proofId)
      && (forall i :: 0 <= i < |items| ==> items[i].proofId !in l.consumedProofs)
      && (forall i :: 0 <= i < |items| ==> items[i].recipient in l.agents && 0 <= items[i].amount < 0x20_0000_0000_0000)
    ensures Allocate(l, series, items).result == Err(ProofConsumed) <==>
      || (exists i, k :: 0 <= i < k < |items| && items[i].proofId == items[k].proofId)
      || (exists i :: 0 <= i < |items| && items[i].proofId in l.consumedProofs)
  {
    var ids := ProofIds(items);
    NoBadItem(l, items);
    if FirstBadItem(l, items).Some? { var i := FirstBad(l, items); }
    hide FirstBadItem, CreditAll;
    forall i | 0 <= i < |items| ensures ids[i] in ids && ids[i] == items[i].proofId { }
    assert Distinct(ids) <==> forall i, k :: 0 <= i < k < |items| ==> items[i].proofId != items[k].proofId;
  }

  // A refused one names its first bad item; an accepted one leaves every field it does not pay into.
  lemma AllocateOutcome(l: State, series: string, items: seq<Allocation>)
    ensures var s := Allocate(l, series, items);
      && (s.result.Err? ==> s.state == l)
      && (s.result.Err? && s.result.error != ProofConsumed ==>
            exists i :: 0 <= i < |items|
              && s.result.error == (if items[i].recipient !in l.agents then UnknownRecipient else BadAllocation)
              && (items[i].recipient in l.agents ==> !(0 <= items[i].amount < 0x20_0000_0000_0000))
              && forall k :: 0 <= k < i ==> items[k].recipient in l.agents && 0 <= items[k].amount < 0x20_0000_0000_0000)
      && (s.result.Ok? ==>
            && s.state.agents == l.agents && s.state.acceptedIds == l.acceptedIds && s.state.acceptedNonces == l.acceptedNonces
            && s.state.redemptions == l.redemptions && s.state.retired == l.retired
            && s.state.journal == l.journal + [AllocationEntry(series, seq(|items|, i requires 0 <= i < |items| => items[i].proofId))])
  {
    if FirstBadItem(l, items).Some? { var i := FirstBad(l, items); }
    CreditAllShape(l, series, items, "");
    CreditAllKeeps(l, series, items);
    hide FirstBadItem, CreditAll;
  }

  lemma {:induction false} CreditAllKeeps(l: State, series: string, items: seq<Allocation>)
    ensures CreditAll(l, series, items).retired == l.retired && CreditAll(l, series, items).journal == l.journal
    decreases |items|
  {
    if items != [] { CreditAllKeeps(CreditOne(l, series, items[0]), series, items[1..]); }
  }

  // A transfer's conditions, in the order they are tested.
  lemma TransferAccepted(l: State, r: TransferRequest, now: int, signed: bool)
    ensures var sender, s := AccountAt(l, Key(r.fromAgent, r.seriesId)), Transfer(l, r, now, signed);
      && (s.result.Ok? <==>
            && 0 < r.amount < 0x20_0000_0000_0000 && r.fromAgent in l.agents && signed
            && r.transferId !in l.acceptedIds && r.nonce !in l.acceptedNonces && now < r.expiresAt
            && r.senderSequence == sender.sequence && r.toAgent in l.agents && r.amount <= sender.balance - sender.locked)
      && (s.result.Err? ==> SameView(l, s.state))
      && (s.result.Err? ==>
            s.result.error ==
            if !(0 < r.amount < 0x20_0000_0000_0000) then BadAmount
            else if r.fromAgent !in l.agents then NotCredentialed
            else if !signed then BadSignature
            else if r.transferId in l.acceptedIds || r.nonce in l.acceptedNonces then Replayed
            else if r.expiresAt <= now then Expired
            else if r.senderSequence != sender.sequence then UnexpectedSequence
            else if r.toAgent !in l.agents then UnknownRecipient
            else Insufficient)
  {
    hide Key;
  }

  lemma TransferOutcome(l: State, r: TransferRequest, now: int, signed: bool)
    requires Transfer(l, r, now, signed).result.Ok?
    ensures var sender, s := AccountAt(l, Key(r.fromAgent, r.seriesId)), Transfer(l, r, now, signed);
      && s.result.value == TransferReceipt("settle:" + r.transferId, r.transferId, r.seriesId, r.fromAgent, r.toAgent,
                                           r.amount, r.senderSequence, sender.sequence + 1, now)
      && s.state.acceptedIds == l.acceptedIds + {r.transferId} && s.state.acceptedNonces == l.acceptedNonces + {r.nonce}
      && s.state.journal == l.journal + [TransferEntry(s.result.value)] && s.state.agents == l.agents && s.state.consumedProofs == l.consumedProofs
      && s.state.redemptions == l.redemptions && s.state.issued == l.issued && s.state.retired == l.retired
  {
    hide Key;
  }

  // A lock's conditions, in the order they are tested.
  lemma LockAccepted(l: State, r: LockRequest, now: int, signed: bool)
    ensures var holder, s := AccountAt(l, Key(r.holderAgent, r.seriesId)), LockRedemption(l, r, now, signed);
      && (s.result.Ok? <==>
            && 0 < r.amount < 0x20_0000_0000_0000 && r.holderAgent in l.agents && signed
            && r.redemptionId !in l.acceptedIds && r.nonce !in l.acceptedNonces && now < r.expiresAt
            && r.senderSequence == holder.sequence && r.amount <= holder.balance - holder.locked)
      && (s.result.Err? ==> SameView(l, s.state))
      && (s.result.Err? ==>
            s.result.error ==
            if !(0 < r.amount < 0x20_0000_0000_0000) then BadAmount
            else if r.holderAgent !in l.agents then NotCredentialed
            else if !signed then BadSignature
            else if r.redemptionId in l.acceptedIds || r.nonce in l.acceptedNonces then Replayed
            else if r.expiresAt <= now then Expired
            else if r.senderSequence != holder.sequence then UnexpectedSequence
            else Insufficient)
  {
    hide Key;
  }

  lemma LockOutcome(l: State, r: LockRequest, now: int, signed: bool)
    requires LockRedemption(l, r, now, signed).result.Ok?
    ensures var key := Key(r.holderAgent, r.seriesId);
      var holder, s := AccountAt(l, key), LockRedemption(l, r, now, signed);
      && s.result.value == Record(r.redemptionId, r.seriesId, r.amount, Locked)
      && s.state == State(l.agents, l.accounts[key := Account(holder.balance, holder.locked + r.amount, holder.sequence + 1)],
                          l.acceptedIds + {r.redemptionId}, l.acceptedNonces + {r.nonce}, l.consumedProofs,
                          l.redemptions[r.redemptionId := Redemption(r, Locked)], l.issued, l.retired,
                          l.journal + [LockedEntry(r.redemptionId)])
  {
    hide Key;
  }

  // A retirement is accepted exactly for a redemption stored as locked and a verified receipt of
  // it; otherwise nothing changes, and which error comes back says what was wrong.
  lemma RetireAccepted(l: State, id: string, receipt: ExecutionReceipt)
    ensures var s, locked := Retire(l, id, receipt), id in l.redemptions && l.redemptions[id].status == Locked;
      && (s.result.Ok? <==> locked && receipt.redemptionId == id && receipt.verified)
      && (s.result == Err(NotLocked) <==> !locked)
      && (s.result == Err(NotVerified) <==> locked && !(receipt.redemptionId == id && receipt.verified))
      && (s.result.Err? ==> s.state == l)
  {
  }

  lemma ReleaseAccepted(l: State, id: string)
    ensures var s := Release(l, id);
      && (s.result.Ok? <==> id in l.redemptions && l.redemptions[id].status == Locked)
      && (s.result.Err? ==> s.result.error == NotLocked && s.state == l)
  {
  }

  // What ending a redemption writes: the holder's account, the redemption's status, the retired
  // total if it is spent, and one journal entry.
  lemma EndingOutcome(l: State, id: string, receipt: ExecutionReceipt)
    requires id in l.redemptions
    ensures var q := l.redemptions[id].request;
      var key := Key(q.holderAgent, q.seriesId);
      var a, spent, kept := AccountAt(l, key), Retire(l, id, receipt), Release(l, id);
      && (spent.result.Ok? ==>
            && spent.result.value == Record(id, q.seriesId, q.amount, Retired)
            && spent.state == l.(accounts := l.accounts[key := Account(a.balance - q.amount, a.locked - q.amount, a.sequence)],
                                 redemptions := l.redemptions[id := Redemption(q, Retired)],
                                 retired := l.retired[q.seriesId := At(l.retired, q.seriesId) + q.amount],
                                 journal := l.journal + [EndingEntry(spent.result.value)]))
      && (kept.result.Ok? ==>
            && kept.result.value == Record(id, q.seriesId, q.amount, Refunded)
            && kept.state == l.(accounts := l.accounts[key := Account(a.balance, a.locked - q.amount, a.sequence)],
                                redemptions := l.redemptions[id := Redemption(q, Refunded)],
                                journal := l.journal + [EndingEntry(kept.result.value)]))
  {
    hide Key;
  }
}
