/** The compute pool over the settlement ledger, with each execution split at its awaits. */
module ComputePool {
  // An execution reads the redemption, then checks and reserves, then (once the provider
  // answers) verifies the receipt and retires, then returns or gives the capacity back. Any
  // number of executions, also of one redemption, interleave with registrations and with
  // other ledger calls.
  import opened Results
  import opened Sums
  import A = Allocation
  import L = Ledger
  import I = LedgerInvariants
  import T = LedgerTheorems
  import Registry

  datatype Commitment = Commitment(
    id: string, providerId: string, publicKey: string, resourceClass: string,
    availableFrom: int, availableUntil: int, terms: A.Terms)

  // One registered provider object: registering an id again makes a new one.
  datatype Entry = Entry(commitment: Commitment, recognised: int, remaining: int)

  datatype Receipt = Receipt(
    redemptionId: string, providerId: string, holderAgent: string, resourceClass: string,
    meteredQuantity: int, verified: bool, resultDigest: string, verifiesUnder: set<string>)

  // Where an execution of a redemption is suspended, or how it ended.
  datatype Phase =
    | Asked(found: Option<L.Redemption>)
    | Executing(handle: nat, redemption: L.Redemption)
    | Settling(handle: nat, redemption: L.Redemption, retired: bool)
    | Done(handle: nat, redemption: L.Redemption)
    | Failed

  datatype Call = Call(redemptionId: string, phase: Phase)

  // providers maps commitment ids to entries, in the order the ids were first registered.
  datatype Pool = Pool(providers: map<string, nat>, order: seq<string>, entries: seq<Entry>, calls: map<int, Call>)

  datatype State = State(ledger: L.State, pool: Pool)

  datatype Error = BadIdentity | BadSignature | NotAvailable | BadTerms(capacityError: A.Error) | NoCapacity

  const Empty := State(L.Empty, Pool(map[], [], [], map[]))

  // ---------- Registration ----------

  predicate Available(c: Commitment, now: int) {
    c.availableFrom <= now < c.availableUntil
  }

  function AddEntry(p: Pool, c: Commitment): Pool {
    p.(providers := p.providers[c.id := |p.entries|],
       order := if c.id in p.providers then p.order else p.order + [c.id],
       entries := p.entries + [Entry(c, A.Recognised(c.terms), A.Recognised(c.terms))])
  }

  predicate Registrable(c: Commitment, identityMatches: bool, signed: bool, now: int) {
    identityMatches && signed && Available(c, now) && A.ValidTerms(c.terms) && 1 <= A.Recognised(c.terms)
  }

  // ---------- Execution ----------

  // The first read of an execution.
  function Ask(p: Pool, l: L.State, call: int, redemptionId: string): Pool {
    var found := if redemptionId in l.redemptions then Some(l.redemptions[redemptionId]) else None;
    p.(calls := p.calls[call := Call(redemptionId, Asked(found))])
  }

  predicate Fits(e: Entry, r: L.Redemption, now: int) {
    e.commitment.resourceClass in r.request.resourceClasses && Available(e.commitment, now) && e.remaining >= r.request.amount
  }

  // The first fitting entry in registration order.
  function FirstFit(p: Pool, order: seq<string>, r: L.Redemption, now: int): Option<nat> {
    if order == [] then None
    else if order[0] in p.providers && p.providers[order[0]] < |p.entries| && Fits(p.entries[p.providers[order[0]]], r, now) then Some(p.providers[order[0]])
    else FirstFit(p, order[1..], r, now)
  }

  function SetPhase(p: Pool, call: int, phase: Phase): Pool
    requires call in p.calls
  {
    p.(calls := p.calls[call := p.calls[call].(phase := phase)])
  }

  function AddRemaining(p: Pool, handle: nat, amount: int): Pool
    requires handle < |p.entries|
  {
    p.(entries := p.entries[handle := p.entries[handle].(remaining := p.entries[handle].remaining + amount)])
  }

  // The checks on the redemption as it was read, then the reservation.
  function Begin(p: Pool, call: int, workloadDigest: string, now: int): Pool
    requires call in p.calls && p.calls[call].phase.Asked?
  {
    match p.calls[call].phase.found
    case None => SetPhase(p, call, Failed)
    case Some(r) =>
      if r.status != L.Locked || workloadDigest != r.request.workloadDigest then SetPhase(p, call, Failed)
      else match FirstFit(p, p.order, r, now)
        case None => SetPhase(p, call, Failed)
        case Some(h) => if h < |p.entries| then SetPhase(AddRemaining(p, h, -r.request.amount), call, Executing(h, r)) else p
  }

  predicate ReceiptOk(e: Entry, redemptionId: string, r: L.Redemption, receipt: Receipt, resultDigest: string) {
    && e.commitment.publicKey in receipt.verifiesUnder && receipt.redemptionId == redemptionId
    && receipt.providerId == e.commitment.providerId && receipt.holderAgent == r.request.holderAgent
    && receipt.resourceClass == e.commitment.resourceClass && receipt.meteredQuantity == r.request.amount
    && receipt.verified && resultDigest == receipt.resultDigest
  }

  predicate IsExecuting(p: Pool, call: int) {
    call in p.calls && p.calls[call].phase.Executing? && p.calls[call].phase.handle < |p.entries|
  }

  // The provider has answered (None: it threw). A good receipt goes on to the ledger.
  function Settle(s: State, call: int, answer: Option<(Receipt, string)>): State
    requires IsExecuting(s.pool, call)
  {
    var c := s.pool.calls[call];
    var (h, r) := (c.phase.handle, c.phase.redemption);
    if answer.Some? && ReceiptOk(s.pool.entries[h], c.redemptionId, r, answer.value.0, answer.value.1) then
      var retirement := L.Retire(s.ledger, c.redemptionId, L.ExecutionReceipt(answer.value.0.redemptionId, answer.value.0.verified));
      State(retirement.state, SetPhase(s.pool, call, Settling(h, r, retirement.result.Ok?)))
    else s.(pool := SetPhase(AddRemaining(s.pool, h, r.request.amount), call, Failed))
  }

  predicate IsSettling(p: Pool, call: int) {
    call in p.calls && p.calls[call].phase.Settling? && p.calls[call].phase.handle < |p.entries|
  }

  // The ledger has answered: return, or give the capacity back.
  function Resume(p: Pool, call: int): Pool
    requires IsSettling(p, call)
  {
    var c := p.calls[call].phase;
    if c.retired then SetPhase(p, call, Done(c.handle, c.redemption))
    else SetPhase(AddRemaining(p, c.handle, c.redemption.request.amount), call, Failed)
  }

  // ---------- Runs ----------

  datatype Op =
    | OpRegister(commitment: Commitment, identityMatches: bool, signed: bool, now: int)
    | OpLedger(op: L.Op)
    | OpAsk(call: int, redemptionId: string)
    | OpBegin(call: int, workloadDigest: string, now: int)
    | OpSettle(call: int, answer: Option<(Receipt, string)>)
    | OpResume(call: int)

  function Step(s: State, op: Op): State {
    match op
    case OpRegister(c, identityMatches, signed, now) =>
      if Registrable(c, identityMatches, signed, now) then s.(pool := AddEntry(s.pool, c)) else s
    case OpLedger(call) => s.(ledger := L.Apply(s.ledger, call).0)
    case OpAsk(call, redemptionId) => if call in s.pool.calls then s else s.(pool := Ask(s.pool, s.ledger, call, redemptionId))
    case OpBegin(call, workloadDigest, now) =>
      if call in s.pool.calls && s.pool.calls[call].phase.Asked? then s.(pool := Begin(s.pool, call, workloadDigest, now)) else s
    case OpSettle(call, answer) => if IsExecuting(s.pool, call) then Settle(s, call, answer) else s
    case OpResume(call) => if IsSettling(s.pool, call) then s.(pool := Resume(s.pool, call)) else s
  }

  function Run(s: State, ops: seq<Op>): State
    decreases |ops|
  {
    if ops == [] then s else Run(Step(s, ops[0]), ops[1..])
  }

  // ---------- Capacity accounting ----------

  // What a call has taken from an entry: in flight until it fails, for good once it is done.
  function Charge(c: Call, handle: nat): int {
    match c.phase
    case Executing(h, r) => When(h == handle, r.request.amount)
    case Settling(h, r, _) => When(h == handle, r.request.amount)
    case Done(h, r) => When(h == handle, r.request.amount)
    case _ => 0
  }

  function Charges(calls: map<int, Call>, handle: nat): map<int, int> {
    map c | c in calls :: Charge(calls[c], handle)
  }

  lemma ChargesUpdate(calls: map<int, Call>, c: int, x: Call, handle: nat)
    ensures Sum(Charges(calls[c := x], handle)) == Sum(Charges(calls, handle)) - (if c in calls then Charge(calls[c], handle) else 0) + Charge(x, handle)
  {
    assert Charges(calls[c := x], handle) == Charges(calls, handle)[c := Charge(x, handle)];
    SumUpdate(Charges(calls, handle), c, Charge(x, handle));
  }

  // recognised = remaining + in flight + retired through this entry, at every await point.
  ghost predicate Balanced(p: Pool, handle: nat)
    requires handle < |p.entries|
  {
    var e := p.entries[handle];
    e.recognised == A.Recognised(e.commitment.terms) && e.recognised == e.remaining + Sum(Charges(p.calls, handle)) && 0 <= e.remaining
  }

  ghost predicate EntriesOk(p: Pool) {
    && (forall h :: 0 <= h < |p.entries| ==> Balanced(p, h))
    && (forall id <- p.providers :: p.providers[id] < |p.entries| && p.entries[p.providers[id]].commitment.id == id)
    && (forall id :: id in p.order <==> id in p.providers)
  }

  // The redemption a call works on, once it has read one.
  function Subject(c: Call): Option<L.Redemption> {
    match c.phase
    case Asked(found) => found
    case Executing(_, r) => Some(r)
    case Settling(_, r, _) => Some(r)
    case Done(_, r) => Some(r)
    case Failed => None
  }

  function HandleOf(c: Call): Option<nat> {
    match c.phase
    case Executing(h, _) => Some(h)
    case Settling(h, _, _) => Some(h)
    case Done(h, _) => Some(h)
    case _ => None
  }

  // Each call holds a real redemption, as the ledger recorded its request.
  ghost predicate CallOk(s: State, c: Call) {
    && (HandleOf(c).Some? ==> HandleOf(c).value < |s.pool.entries|)
    && (Subject(c).Some? ==>
          && c.redemptionId in s.ledger.redemptions
          && Subject(c).value.request == s.ledger.redemptions[c.redemptionId].request
          && 0 < Subject(c).value.request.amount)
  }

  // Whether this call is the one that retired its redemption.
  predicate Won(c: Call) {
    c.phase.Done? || (c.phase.Settling? && c.phase.retired)
  }

  predicate SameWin(c: Call, d: Call) {
    Won(c) && Won(d) && c.redemptionId == d.redemptionId
  }

  ghost predicate CallsOk(s: State) {
    forall c <- s.pool.calls :: CallOk(s, s.pool.calls[c])
  }

  ghost predicate WinnersOk(s: State) {
    && (forall c <- s.pool.calls :: Won(s.pool.calls[c]) ==>
          s.pool.calls[c].redemptionId in s.ledger.redemptions && s.ledger.redemptions[s.pool.calls[c].redemptionId].status == L.Retired)
    && (forall c, d :: c in s.pool.calls && d in s.pool.calls && SameWin(s.pool.calls[c], s.pool.calls[d]) ==> c == d)
  }

  ghost predicate Inv(s: State) {
    I.RedemptionsOk(s.ledger) && EntriesOk(s.pool) && CallsOk(s) && WinnersOk(s)
  }

  // ---------- Each step keeps it ----------

  // Calls and winners survive anything the ledger does, because it forgets nothing.
  lemma LedgerGrows(s: State, t: State)
    requires CallsOk(s) && WinnersOk(s) && t.pool == s.pool && T.Remembers(s.ledger, t.ledger)
    ensures CallsOk(t) && WinnersOk(t)
  {
    forall c | c in t.pool.calls ensures CallOk(t, t.pool.calls[c]) { assert CallOk(s, s.pool.calls[c]); }
  }

  lemma OtherLedgerCall(s: State, op: L.Op)
    requires Inv(s)
    ensures Inv(s.(ledger := L.Apply(s.ledger, op).0))
  {
    T.RedemptionsStay(s.ledger, op);
    T.ApplyRemembers(s.ledger, op);
    hide L.Apply, EntriesOk, CallsOk, WinnersOk, I.RedemptionsOk, T.Remembers;
    LedgerGrows(s, s.(ledger := L.Apply(s.ledger, op).0));
  }

  lemma RegisterKeeps(s: State, c: Commitment)
    requires Inv(s) && A.ValidTerms(c.terms)
    ensures Inv(s.(pool := AddEntry(s.pool, c)))
  {
    var p, q := s.pool, AddEntry(s.pool, c);
    var n := |p.entries|;
    A.RecognisedBounds(c.terms);
    hide A.Recognised, A.ValidTerms, I.RedemptionsOk;
    forall k | k in p.calls ensures CallOk(s.(pool := q), q.calls[k]) && Charge(p.calls[k], n) == 0 {
      assert CallOk(s, p.calls[k]);
    }
    SumZero(Charges(p.calls, n));
    forall h | 0 <= h < |q.entries| ensures Balanced(q, h) {
      if h < n { assert Balanced(p, h); }
    }
    forall id ensures id in q.order <==> id in q.providers { assert id in p.order <==> id in p.providers; }
  }

  // Moving one call on, together with the matching change of one entry.
  lemma Moved(p: Pool, q: Pool, call: int, x: Call, h: nat)
    requires EntriesOk(p) && h < |p.entries| == |q.entries|
    requires q.providers == p.providers && q.order == p.order && q.calls == p.calls[call := x]
    requires q.entries == p.entries[h := p.entries[h].(remaining := q.entries[h].remaining)] && 0 <= q.entries[h].remaining
    requires q.entries[h].remaining - p.entries[h].remaining == (if call in p.calls then Charge(p.calls[call], h) else 0) - Charge(x, h)
    requires forall k: nat :: k != h ==> Charge(x, k) == if call in p.calls then Charge(p.calls[call], k) else 0
    ensures EntriesOk(q)
  {
    hide A.Recognised, Charge, Charges;
    forall k | 0 <= k < |q.entries| ensures Balanced(q, k) {
      assert Balanced(p, k);
      ChargesUpdate(p.calls, call, x, k);
    }
  }

  // Moving one call on without touching any entry.
  lemma Stayed(p: Pool, q: Pool, call: int, x: Call)
    requires EntriesOk(p) && q == p.(calls := p.calls[call := x])
    requires forall k: nat :: Charge(x, k) == if call in p.calls then Charge(p.calls[call], k) else 0
    ensures EntriesOk(q)
  {
    hide A.Recognised, Charge, Charges;
    forall k | 0 <= k < |q.entries| ensures Balanced(q, k) {
      assert Balanced(p, k);
      ChargesUpdate(p.calls, call, x, k);
    }
  }

  // One call replaced by one that is in order and has not won since.
  lemma CallMoved(s: State, t: State, call: int, x: Call)
    requires CallsOk(s) && WinnersOk(s) && t.ledger == s.ledger && t.pool.calls == s.pool.calls[call := x] && |t.pool.entries| == |s.pool.entries|
    requires CallOk(s, x)
    requires Won(x) ==> call in s.pool.calls && Won(s.pool.calls[call]) && x.redemptionId == s.pool.calls[call].redemptionId
    ensures CallsOk(t) && WinnersOk(t)
  {
    forall c | c in t.pool.calls ensures CallOk(t, t.pool.calls[c]) {
      if c != call { assert CallOk(s, s.pool.calls[c]); }
    }
  }

  lemma AskKeeps(s: State, call: int, redemptionId: string)
    requires Inv(s) && call !in s.pool.calls
    ensures Inv(s.(pool := Ask(s.pool, s.ledger, call, redemptionId)))
  {
    var t := s.(pool := Ask(s.pool, s.ledger, call, redemptionId));
    var x := t.pool.calls[call];
    Stayed(s.pool, t.pool, call, x);
    assert CallOk(s, x);
    CallMoved(s, t, call, x);
  }

  // The entry an id names fits.
  predicate FitsAt(p: Pool, id: string, r: L.Redemption, now: int) {
    id in p.providers && p.providers[id] < |p.entries| && Fits(p.entries[p.providers[id]], r, now)
  }

  predicate IsFirst(p: Pool, order: seq<string>, r: L.Redemption, now: int, handle: nat, i: int) {
    && 0 <= i < |order| && FitsAt(p, order[i], r, now) && p.providers[order[i]] == handle
    && forall k :: 0 <= k < i ==> !FitsAt(p, order[k], r, now)
  }

  // The search gives the first id's entry that fits, or none does.
  lemma {:induction false} FirstFitIs(p: Pool, order: seq<string>, r: L.Redemption, now: int)
    ensures var f := FirstFit(p, order, r, now);
            && (f.Some? ==> f.value < |p.entries| && Fits(p.entries[f.value], r, now) && exists i :: IsFirst(p, order, r, now, f.value, i))
            && (f.None? ==> forall k :: 0 <= k < |order| ==> !FitsAt(p, order[k], r, now))
  {
    if order != [] {
      FirstFitIs(p, order[1..], r, now);
      var f := FirstFit(p, order[1..], r, now);
      if FitsAt(p, order[0], r, now) {
        assert IsFirst(p, order, r, now, p.providers[order[0]], 0);
      } else if f.Some? {
        var i :| IsFirst(p, order[1..], r, now, f.value, i);
        assert order[i + 1] == order[1..][i];
        forall k | 0 <= k < i + 1 ensures !FitsAt(p, order[k], r, now) { if k > 0 { assert order[k] == order[1..][k - 1]; } }
        assert IsFirst(p, order, r, now, f.value, i + 1);
      } else {
        forall k | 0 <= k < |order| ensures !FitsAt(p, order[k], r, now) { if k > 0 { assert order[k] == order[1..][k - 1]; } }
      }
    }
  }

  // The place of the first fitting entry, or |order|; what comes before does not fit.
  lemma FirstOpen(p: Pool, r: L.Redemption, now: int) returns (i: nat)
    ensures i <= |p.order|
    ensures i < |p.order| ==>
      && p.order[i] in p.providers && p.providers[p.order[i]] < |p.entries| && FirstFit(p, p.order, r, now) == Some(p.providers[p.order[i]])
      && var e := p.entries[p.providers[p.order[i]]];
         && e.commitment.resourceClass in r.request.resourceClasses
         && e.commitment.availableFrom <= now < e.commitment.availableUntil && e.remaining >= r.request.amount
    ensures i == |p.order| ==> FirstFit(p, p.order, r, now).None?
    ensures forall k :: 0 <= k < i && p.order[k] in p.providers && p.providers[p.order[k]] < |p.entries| ==>
      var d := p.entries[p.providers[p.order[k]]];
      !(&& d.commitment.resourceClass in r.request.resourceClasses
        && d.commitment.availableFrom <= now < d.commitment.availableUntil && d.remaining >= r.request.amount)
  {
    FirstFitIs(p, p.order, r, now);
    hide FirstFit;
    var f := FirstFit(p, p.order, r, now);
    i := |p.order|;
    if f.Some? { i :| IsFirst(p, p.order, r, now, f.value, i); }
    forall k | 0 <= k < i && p.order[k] in p.providers && p.providers[p.order[k]] < |p.entries|
      ensures !Fits(p.entries[p.providers[p.order[k]]], r, now)
    {
      assert !FitsAt(p, p.order[k], r, now);
    }
  }

  // What the checks and the reservation come to: the first entry of a class the redemption lists,
  // available now, with enough left, or a failed call.
  lemma BeginIs(p: Pool, call: int, workloadDigest: string, now: int) returns (i: nat)
    requires call in p.calls && p.calls[call].phase.Asked?
    ensures var t := Begin(p, call, workloadDigest, now);
      && call in t.calls && t == p.(entries := t.entries, calls := p.calls[call := Call(p.calls[call].redemptionId, t.calls[call].phase)])
      && (t.calls[call].phase.Executing? || (t.calls[call].phase == Failed && t.entries == p.entries))
    ensures var t := Begin(p, call, workloadDigest, now); t.calls[call].phase.Executing? ==>
      && p.calls[call].phase.found.Some? && i < |p.order| && p.order[i] in p.providers && p.providers[p.order[i]] < |p.entries|
      && var (q, h) := (p.calls[call].phase.found.value, p.providers[p.order[i]]);
         var e := p.entries[h];
         && q.status == L.Locked && workloadDigest == q.request.workloadDigest
         && e.commitment.resourceClass in q.request.resourceClasses
         && e.commitment.availableFrom <= now < e.commitment.availableUntil && e.remaining >= q.request.amount
         && t.calls[call].phase == Executing(h, q) && t.entries == p.entries[h := Entry(e.commitment, e.recognised, e.remaining - q.request.amount)]
         && forall k :: 0 <= k < i && p.order[k] in p.providers && p.providers[p.order[k]] < |p.entries| ==>
              var d := p.entries[p.providers[p.order[k]]];
              !(&& d.commitment.resourceClass in q.request.resourceClasses
                && d.commitment.availableFrom <= now < d.commitment.availableUntil && d.remaining >= q.request.amount)
    ensures Begin(p, call, workloadDigest, now).calls[call].phase == Failed && p.calls[call].phase.found.Some? ==>
      var q := p.calls[call].phase.found.value;
      || q.status != L.Locked || workloadDigest != q.request.workloadDigest
      || forall k :: 0 <= k < |p.order| && p.order[k] in p.providers && p.providers[p.order[k]] < |p.entries| ==>
           var d := p.entries[p.providers[p.order[k]]];
           !(&& d.commitment.resourceClass in q.request.resourceClasses
             && d.commitment.availableFrom <= now < d.commitment.availableUntil && d.remaining >= q.request.amount)
  {
    i := 0;
    if p.calls[call].phase.found.Some? {
      i := FirstOpen(p, p.calls[call].phase.found.value, now);
      hide FirstFit;
    }
  }

  // Reserving takes the amount from the entry exactly while the call holds it.
  lemma Reserved(s: State, call: int, h: nat, r: L.Redemption)
    requires Inv(s) && call in s.pool.calls && s.pool.calls[call].phase == Asked(Some(r))
    requires h < |s.pool.entries| && s.pool.entries[h].remaining >= r.request.amount
    ensures Inv(s.(pool := SetPhase(AddRemaining(s.pool, h, -r.request.amount), call, Executing(h, r))))
  {
    var t := s.(pool := SetPhase(AddRemaining(s.pool, h, -r.request.amount), call, Executing(h, r)));
    var x := t.pool.calls[call];
    assert CallOk(s, s.pool.calls[call]);
    Moved(s.pool, t.pool, call, x, h);
    hide EntriesOk, I.RedemptionsOk;
    CallMoved(s, t, call, x);
  }

  // A call that holds nothing fails without trace.
  lemma Dropped(s: State, call: int)
    requires Inv(s) && call in s.pool.calls && s.pool.calls[call].phase.Asked?
    ensures Inv(s.(pool := SetPhase(s.pool, call, Failed)))
  {
    var t := s.(pool := SetPhase(s.pool, call, Failed));
    var x := t.pool.calls[call];
    Stayed(s.pool, t.pool, call, x);
    hide EntriesOk, I.RedemptionsOk;
    CallMoved(s, t, call, x);
  }

  lemma BeginKeeps(s: State, call: int, workloadDigest: string, now: int)
    requires Inv(s) && call in s.pool.calls && s.pool.calls[call].phase.Asked?
    ensures Inv(s.(pool := Begin(s.pool, call, workloadDigest, now)))
  {
    Dropped(s, call);
    if s.pool.calls[call].phase.found.Some? {
      var r := s.pool.calls[call].phase.found.value;
      FirstFitIs(s.pool, s.pool.order, r, now);
      hide FirstFit;
      var f := FirstFit(s.pool, s.pool.order, r, now);
      if f.Some? { Reserved(s, call, f.value, r); }
    }
  }

  // A call that holds capacity gives it back and fails.
  lemma Restored(s: State, call: int)
    requires Inv(s) && (IsExecuting(s.pool, call) || (IsSettling(s.pool, call) && !s.pool.calls[call].phase.retired))
    ensures var c := s.pool.calls[call].phase;
            Inv(s.(pool := SetPhase(AddRemaining(s.pool, c.handle, c.redemption.request.amount), call, Failed)))
  {
    var c := s.pool.calls[call].phase;
    var t := s.(pool := SetPhase(AddRemaining(s.pool, c.handle, c.redemption.request.amount), call, Failed));
    var x := t.pool.calls[call];
    assert CallOk(s, s.pool.calls[call]) && Balanced(s.pool, c.handle);
    Moved(s.pool, t.pool, call, x, c.handle);
    hide EntriesOk, I.RedemptionsOk;
    CallMoved(s, t, call, x);
  }

  // A call moves to the ledger's answer; winning is new only if the redemption was locked.
  lemma Answered(s: State, call: int, retired: bool)
    requires Inv(s) && IsExecuting(s.pool, call)
    requires var c := s.pool.calls[call];
             retired ==> s.ledger.redemptions[c.redemptionId].status == L.Retired && forall d <- s.pool.calls :: Won(s.pool.calls[d]) ==> s.pool.calls[d].redemptionId != c.redemptionId
    requires s.pool.calls[call].redemptionId in s.ledger.redemptions
    ensures var c := s.pool.calls[call].phase;
            Inv(s.(pool := SetPhase(s.pool, call, Settling(c.handle, c.redemption, retired))))
  {
    var c := s.pool.calls[call].phase;
    var t := s.(pool := SetPhase(s.pool, call, Settling(c.handle, c.redemption, retired)));
    var x := t.pool.calls[call];
    assert CallOk(s, s.pool.calls[call]);
    Stayed(s.pool, t.pool, call, x);
    hide EntriesOk, I.RedemptionsOk;
    forall k | k in t.pool.calls ensures CallOk(t, t.pool.calls[k]) {
      if k != call { assert CallOk(s, s.pool.calls[k]); }
    }
  }

  lemma SettleKeeps(s: State, call: int, answer: Option<(Receipt, string)>)
    requires Inv(s) && IsExecuting(s.pool, call)
    ensures Inv(Settle(s, call, answer))
  {
    var c := s.pool.calls[call];
    Restored(s, call);
    if answer.Some? && ReceiptOk(s.pool.entries[c.phase.handle], c.redemptionId, c.phase.redemption, answer.value.0, answer.value.1) {
      var receipt := L.ExecutionReceipt(answer.value.0.redemptionId, answer.value.0.verified);
      var retirement := L.Retire(s.ledger, c.redemptionId, receipt);
      assert CallOk(s, c);
      OtherLedgerCall(s, L.OpRetire(c.redemptionId, receipt));
      var u := s.(ledger := retirement.state);
      assert L.Apply(s.ledger, L.OpRetire(c.redemptionId, receipt)).0 == retirement.state;
      RetireAnswer(s.ledger, c.redemptionId, receipt);
      hide L.Retire, L.Apply, EntriesOk, I.RedemptionsOk;
      Answered(u, call, retirement.result.Ok?);
    }
  }

  lemma RetireAnswer(l: L.State, id: string, receipt: L.ExecutionReceipt)
    requires id in l.redemptions
    ensures var r := L.Retire(l, id, receipt);
            && id in r.state.redemptions
            && (r.result.Ok? ==> l.redemptions[id].status == L.Locked && r.state.redemptions[id].status == L.Retired)
  {
  }

  lemma ResumeKeeps(s: State, call: int)
    requires Inv(s) && IsSettling(s.pool, call)
    ensures Inv(s.(pool := Resume(s.pool, call)))
  {
    var c := s.pool.calls[call].phase;
    if c.retired {
      var t := s.(pool := Resume(s.pool, call));
      var x := t.pool.calls[call];
      assert CallOk(s, s.pool.calls[call]);
      Stayed(s.pool, t.pool, call, x);
      hide EntriesOk, I.RedemptionsOk;
      CallMoved(s, t, call, x);
    } else {
      Restored(s, call);
    }
  }

  lemma StepKeeps(s: State, op: Op)
    requires Inv(s)
    ensures Inv(Step(s, op))
  {
    hide Inv, L.Apply, Begin, Settle, Resume, Ask, AddEntry;
    match op
    case OpRegister(c, identityMatches, signed, now) => if Registrable(c, identityMatches, signed, now) { RegisterKeeps(s, c); }
    case OpLedger(call) => OtherLedgerCall(s, call);
    case OpAsk(call, redemptionId) => if call !in s.pool.calls { AskKeeps(s, call, redemptionId); }
    case OpBegin(call, workloadDigest, now) => if call in s.pool.calls && s.pool.calls[call].phase.Asked? { BeginKeeps(s, call, workloadDigest, now); }
    case OpSettle(call, answer) => if IsExecuting(s.pool, call) { SettleKeeps(s, call, answer); }
    case OpResume(call) => if IsSettling(s.pool, call) { ResumeKeeps(s, call); }
  }

  lemma {:induction false} RunKeeps(s: State, ops: seq<Op>)
    requires Inv(s)
    ensures Inv(Run(s, ops))
    decreases |ops|
  {
    hide Inv, Step;
    if ops != [] {
      StepKeeps(s, ops[0]);
      RunKeeps(Step(s, ops[0]), ops[1..]);
    }
  }

  lemma Reachable(ops: seq<Op>)
    ensures Inv(Run(Empty, ops))
  {
    RunKeeps(Empty, ops);
  }

  // ---------- What holds in every run ----------

  lemma ChargesNonNegative(s: State, handle: nat)
    requires CallsOk(s)
    ensures forall c <- Charges(s.pool.calls, handle) :: 0 <= Charges(s.pool.calls, handle)[c]
    ensures 0 <= Sum(Charges(s.pool.calls, handle))
  {
    forall c | c in s.pool.calls ensures 0 <= Charge(s.pool.calls[c], handle) { assert CallOk(s, s.pool.calls[c]); }
    SumBounds(Charges(s.pool.calls, handle));
  }

  // At every await point of any run, each entry's recognised capacity is what remains plus what
  // is in flight plus what was retired through it, and neither part is negative.
  lemma CapacityAccounted(ops: seq<Op>, h: nat)
    requires h < |Run(Empty, ops).pool.entries|
    ensures var p := Run(Empty, ops).pool;
            var e := p.entries[h];
            && e.recognised == A.Recognised(e.commitment.terms) == e.remaining + Sum(Charges(p.calls, h))
            && 0 <= e.remaining <= e.recognised
  {
    var s := Run(Empty, ops);
    Reachable(ops);
    hide Run, A.Recognised;
    assert Balanced(s.pool, h);
    ChargesNonNegative(s, h);
  }

  // A redemption is retired through the pool at most once, however many calls work on it, and
  // the winner is charged exactly the amount the ledger retired.
  lemma RetiredOnce(ops: seq<Op>, c: int, d: int)
    requires var calls := Run(Empty, ops).pool.calls;
             c in calls && d in calls && SameWin(calls[c], calls[d])
    ensures var s := Run(Empty, ops);
            var call := s.pool.calls[c];
            && c == d
            && call.redemptionId in s.ledger.redemptions
            && s.ledger.redemptions[call.redemptionId].status == L.Retired
            && HandleOf(call).Some? && Charge(call, HandleOf(call).value) == s.ledger.redemptions[call.redemptionId].request.amount
  {
    var s := Run(Empty, ops);
    Reachable(ops);
    hide Run;
    assert CallOk(s, s.pool.calls[c]);
  }

  // ---------- An execution without interruption ----------

  lemma FourSteps(s: State, a: Op, b: Op, c: Op, d: Op)
    ensures Run(s, [a, b, c, d]) == Step(Step(Step(Step(s, a), b), c), d)
  {
    hide Step;
    var s1 := Step(s, a);
    var s2 := Step(s1, b);
    var s3 := Step(s2, c);
    assert [a, b, c, d][1..] == [b, c, d] && [b, c, d][1..] == [c, d] && [c, d][1..] == [d] && [d][1..] == [];
    assert Run(s, [a, b, c, d]) == Run(s1, [b, c, d]) == Run(s2, [c, d]) == Run(s3, [d]) == Run(Step(s3, d), []);
  }

  // Registrations add an entry, and ledger calls do to the ledger what the registry does.
  lemma OtherSteps(s: State, c: Commitment, now: int, op: L.Op)
    ensures Step(s, OpLedger(op)) == s.(ledger := L.Apply(s.ledger, op).0)
    ensures c.availableFrom <= now < c.availableUntil && A.ValidTerms(c.terms) && 1 <= A.Recognised(c.terms) ==>
      var t := Step(s, OpRegister(c, true, true, now));
      && t.ledger == s.ledger && t.pool.entries == s.pool.entries + [Entry(c, A.Recognised(c.terms), A.Recognised(c.terms))]
      && c.id in t.pool.providers && t.pool.providers[c.id] == |s.pool.entries|
  {
    hide L.Apply, A.Recognised, A.ValidTerms;
  }

  // A locked redemption with the right workload digest, given to the first entry that fits and
  // answered with a receipt of all its particulars, is retired, and that entry is down by its
  // amount.
  lemma ExecuteAtOnce(s: State, call: int, id: string, now: int, receipt: Receipt, h: nat)
    requires call !in s.pool.calls && id in s.ledger.redemptions && s.ledger.redemptions[id].status == L.Locked
    requires FirstFit(s.pool, s.pool.order, s.ledger.redemptions[id], now) == Some(h) && h < |s.pool.entries|
    requires var (e, q) := (s.pool.entries[h], s.ledger.redemptions[id].request);
      && e.commitment.publicKey in receipt.verifiesUnder && receipt.redemptionId == id && receipt.providerId == e.commitment.providerId
      && receipt.holderAgent == q.holderAgent && receipt.resourceClass == e.commitment.resourceClass
      && receipt.meteredQuantity == q.amount && receipt.verified
    ensures var r := s.ledger.redemptions[id];
      var e := s.pool.entries[h];
      var t := Run(s, [OpAsk(call, id), OpBegin(call, r.request.workloadDigest, now), OpSettle(call, Some((receipt, receipt.resultDigest))), OpResume(call)]);
      && t.ledger == L.Retire(s.ledger, id, L.ExecutionReceipt(id, true)).state
      && id in t.ledger.redemptions && t.ledger.redemptions[id].status == L.Retired
      && t.pool == s.pool.(entries := s.pool.entries[h := Entry(e.commitment, e.recognised, e.remaining - r.request.amount)],
                           calls := s.pool.calls[call := Call(id, Done(h, r))])
  {
    var r := s.ledger.redemptions[id];
    var answer := Some((receipt, receipt.resultDigest));
    FourSteps(s, OpAsk(call, id), OpBegin(call, r.request.workloadDigest, now), OpSettle(call, answer), OpResume(call));
    var b := Step(Step(s, OpAsk(call, id)), OpBegin(call, r.request.workloadDigest, now));
    hide Run, Step, FirstFit, L.Retire;
    AskThenBegin(s, call, id, now, h);
    SettleThenResume(b, call, receipt);
    RetiredStatus(s.ledger, id);
  }

  lemma SettleThenResume(s: State, call: int, receipt: Receipt)
    requires IsExecuting(s.pool, call)
    requires var c := s.pool.calls[call];
      ReceiptOk(s.pool.entries[c.phase.handle], c.redemptionId, c.phase.redemption, receipt, receipt.resultDigest)
    ensures var c := s.pool.calls[call];
      var r := L.Retire(s.ledger, c.redemptionId, L.ExecutionReceipt(receipt.redemptionId, receipt.verified));
      var t := Step(Step(s, OpSettle(call, Some((receipt, receipt.resultDigest)))), OpResume(call));
      r.result.Ok? ==> t == State(r.state, SetPhase(s.pool, call, Done(c.phase.handle, c.phase.redemption)))
  {
    hide L.Retire, ReceiptOk;
    var b := Settle(s, call, Some((receipt, receipt.resultDigest)));
    assert Step(s, OpSettle(call, Some((receipt, receipt.resultDigest)))) == b;
  }

  lemma AskThenBegin(s: State, call: int, id: string, now: int, h: nat)
    requires call !in s.pool.calls && id in s.ledger.redemptions && s.ledger.redemptions[id].status == L.Locked
    requires FirstFit(s.pool, s.pool.order, s.ledger.redemptions[id], now) == Some(h) && h < |s.pool.entries|
    ensures var r := s.ledger.redemptions[id];
      var e := s.pool.entries[h];
      Step(Step(s, OpAsk(call, id)), OpBegin(call, r.request.workloadDigest, now)) ==
      s.(pool := s.pool.(entries := s.pool.entries[h := Entry(e.commitment, e.recognised, e.remaining - r.request.amount)],
                         calls := s.pool.calls[call := Call(id, Executing(h, r))]))
  {
    var r := s.ledger.redemptions[id];
    var a := s.(pool := Ask(s.pool, s.ledger, call, id));
    assert Step(s, OpAsk(call, id)) == a;
    SameFit(s.pool, a.pool, s.pool.order, r, now);
    hide FirstFit;
  }

  lemma RetiredStatus(l: L.State, id: string)
    requires id in l.redemptions && l.redemptions[id].status == L.Locked
    ensures var s := L.Retire(l, id, L.ExecutionReceipt(id, true)); s.result.Ok? && id in s.state.redemptions && s.state.redemptions[id].status == L.Retired
  {
  }

  lemma {:induction false} SameFit(p: Pool, q: Pool, order: seq<string>, r: L.Redemption, now: int)
    requires q.providers == p.providers && q.entries == p.entries
    ensures FirstFit(q, order, r, now) == FirstFit(p, order, r, now)
  {
    if order != [] { SameFit(p, q, order[1..], r, now); }
  }

  // ---------- Registering a commitment id again ----------

  predicate Through(p: Pool, c: Call, id: string) {
    HandleOf(c).Some? && HandleOf(c).value < |p.entries| && p.entries[HandleOf(c).value].commitment.id == id
  }

  // What calls hold of any entry registered under this commitment id, and of earlier ones only.
  ghost function HeldUnder(p: Pool, id: string): int {
    Sum(map c | c in p.calls :: if Through(p, p.calls[c], id) then Charge(p.calls[c], HandleOf(p.calls[c]).value) else 0)
  }

  ghost function HeldEarlier(p: Pool, id: string): int
    requires id in p.providers
  {
    Sum(map c | c in p.calls ::
      if Through(p, p.calls[c], id) && HandleOf(p.calls[c]).value != p.providers[id] then Charge(p.calls[c], HandleOf(p.calls[c]).value) else 0)
  }

  // The books of a commitment id balance exactly when no call holds an earlier entry of it:
  // registering an id again starts from full capacity and forgets what was in use.
  lemma BalancedByIdIff(ops: seq<Op>, id: string)
    requires id in Run(Empty, ops).pool.providers
    ensures var p := Run(Empty, ops).pool;
            p.providers[id] < |p.entries|
            && (p.entries[p.providers[id]].recognised == p.entries[p.providers[id]].remaining + HeldUnder(p, id) <==> HeldEarlier(p, id) == 0)
  {
    var s := Run(Empty, ops);
    var p := s.pool;
    Reachable(ops);
    hide Run, A.Recognised;
    var h := p.providers[id];
    assert Balanced(p, h);
    var under := map c | c in p.calls :: if Through(p, p.calls[c], id) then Charge(p.calls[c], HandleOf(p.calls[c]).value) else 0;
    var earlier := map c | c in p.calls ::
      if Through(p, p.calls[c], id) && HandleOf(p.calls[c]).value != p.providers[id] then Charge(p.calls[c], HandleOf(p.calls[c]).value) else 0;
    forall c | c in p.calls ensures under[c] == Charges(p.calls, h)[c] + earlier[c] { assert CallOk(s, p.calls[c]); }
    SumAdd(under, Charges(p.calls, h), earlier);
  }

  // Registering an id again while a call holds its present entry always breaks the balance.
  lemma ReRegistrationForgets(ops: seq<Op>, c: Commitment, now: int, call: int)
    requires var p := Run(Empty, ops).pool;
             && Registrable(c, true, true, now) && c.id in p.providers
             && call in p.calls && HandleOf(p.calls[call]) == Some(p.providers[c.id])
    ensures var p := Step(Run(Empty, ops), OpRegister(c, true, true, now)).pool;
            && c.id in p.providers && p.providers[c.id] < |p.entries|
            && p.entries[p.providers[c.id]].recognised < p.entries[p.providers[c.id]].remaining + HeldUnder(p, c.id)
  {
    var s := Run(Empty, ops);
    var t := Step(s, OpRegister(c, true, true, now));
    Reachable(ops);
    hide Run, A.Recognised, A.ValidTerms;
    StepKeeps(s, OpRegister(c, true, true, now));
    var p, id := t.pool, c.id;
    assert CallOk(s, s.pool.calls[call]);
    var under := map k | k in p.calls :: if Through(p, p.calls[k], id) then Charge(p.calls[k], HandleOf(p.calls[k]).value) else 0;
    forall k | k in under ensures 0 <= under[k] { assert CallOk(t, p.calls[k]); }
    SumBounds(under);
    assert 0 < under[call] <= HeldUnder(p, id);
    hide Inv;
  }

  // With each id registered once there is no earlier entry.
  lemma RegisteredOnceBalanced(ops: seq<Op>, id: string)
    requires var p := Run(Empty, ops).pool;
             id in p.providers && forall h :: 0 <= h < |p.entries| && p.entries[h].commitment.id == id ==> h == p.providers[id]
    ensures HeldEarlier(Run(Empty, ops).pool, id) == 0
  {
    var p := Run(Empty, ops).pool;
    hide Run;
    SumZero(map c | c in p.calls ::
      if Through(p, p.calls[c], id) && HandleOf(p.calls[c]).value != p.providers[id] then Charge(p.calls[c], HandleOf(p.calls[c]).value) else 0);
  }

  // ---------- The pool in place ----------

  class ComputePool {
    const registry: Registry.SettlementRegistry
    var providers: map<string, nat>
    var order: seq<string>
    var entries: seq<Entry>
    var calls: map<int, Call>

    ghost function Model(): Pool
      reads this
    {
      Pool(providers, order, entries, calls)
    }

    // The pool's invariant together with its registry; calls on the registry keep it too.
    ghost predicate Valid()
      reads this, registry
    {
      Inv(State(registry.Model(), Model()))
    }

    constructor (registry: Registry.SettlementRegistry)
      requires I.RedemptionsOk(registry.Model())
      ensures this.registry == registry && Model() == Empty.pool && Valid()
    {
      this.registry := registry;
      providers, order, entries, calls := map[], [], [], map[];
    }

    method RegisterProvider(c: Commitment, identityMatches: bool, signed: bool, now: int) returns (r: Result<int, Error>)
      requires Valid()
      modifies this
      ensures Valid()
      ensures r.Ok? <==> Registrable(c, identityMatches, signed, now)
      ensures Model() == if r.Ok? then AddEntry(old(Model()), c) else old(Model())
      ensures r.Ok? ==> r.value == A.Recognised(c.terms)
      ensures r == Err(BadIdentity) <==> !identityMatches
      ensures r == Err(BadSignature) <==> identityMatches && !signed
      ensures r == Err(NotAvailable) <==> identityMatches && signed && !(c.availableFrom <= now < c.availableUntil)
      ensures r.Ok? <==>
        identityMatches && signed && c.availableFrom <= now < c.availableUntil && A.ValidTerms(c.terms) && 1 <= A.Recognised(c.terms)
      ensures r == Err(NoCapacity) <==>
        identityMatches && signed && c.availableFrom <= now < c.availableUntil && A.ValidTerms(c.terms) && A.Recognised(c.terms) < 1
      ensures r.Err? ==> Model() == old(Model())
      ensures r.Ok? ==>
        && providers == old(providers)[c.id := |old(entries)|] && calls == old(calls)
        && order == (if c.id in old(providers) then old(order) else old(order) + [c.id])
        && entries == old(entries) + [Entry(c, A.Recognised(c.terms), A.Recognised(c.terms))]
    {
      if !identityMatches { return Err(BadIdentity); }
      if !signed { return Err(BadSignature); }
      if c.availableFrom > now || c.availableUntil <= now || c.availableUntil <= c.availableFrom { return Err(NotAvailable); }
      var capacity := A.RecognisedCapacity(c.terms);
      if capacity.Err? { return Err(BadTerms(capacity.error)); }
      if capacity.value < 1 { return Err(NoCapacity); }
      RegisterKeeps(State(registry.Model(), Model()), c);
      if c.id !in providers { order := order + [c.id]; }
      providers := providers[c.id := |entries|];
      entries := entries + [Entry(c, capacity.value, capacity.value)];
      return Ok(capacity.value);
    }

    method Start(call: int, redemptionId: string)
      requires Valid() && call !in calls
      modifies this`calls
      ensures Valid() && Model() == Ask(old(Model()), registry.Model(), call, redemptionId)
      ensures calls == old(calls)[call := Call(redemptionId, Asked(
        if redemptionId in registry.redemptions then Some(registry.redemptions[redemptionId]) else None))]
    {
      AskKeeps(State(registry.Model(), Model()), call, redemptionId);
      var found := if redemptionId in registry.redemptions then Some(registry.redemptions[redemptionId]) else None;
      calls := calls[call := Call(redemptionId, Asked(found))];
    }

    // The first fitting provider in registration order.
    method Find(r: L.Redemption, now: int) returns (found: Option<nat>)
      requires Valid()
      ensures found == FirstFit(Model(), order, r, now)
      ensures found.Some? ==>
        && found.value < |entries|
        && var e := entries[found.value];
           && e.commitment.resourceClass in r.request.resourceClasses
           && e.commitment.availableFrom <= now < e.commitment.availableUntil && e.remaining >= r.request.amount
    {
      for i := 0 to |order|
        invariant FirstFit(Model(), order[i..], r, now) == FirstFit(Model(), order, r, now)
      {
        assert order[i] in order && order[i..][1..] == order[i + 1..];
        var h := providers[order[i]];
        if Fits(entries[h], r, now) { return Some(h); }
      }
      return None;
    }

    method Reserve(call: int, workloadDigest: string, now: int) returns (reserved: bool)
      requires Valid() && call in calls && calls[call].phase.Asked?
      modifies this`entries, this`calls
      ensures Valid() && Model() == Begin(old(Model()), call, workloadDigest, now)
      ensures !reserved ==> entries == old(entries) && calls == old(calls)[call := Call(old(calls)[call].redemptionId, Failed)]
      ensures reserved ==>
        && old(calls)[call].phase.found.Some? && calls[call].phase.Executing? && calls[call].phase.handle < |old(entries)|
        && var (h, q) := (calls[call].phase.handle, old(calls)[call].phase.found.value);
           var e := old(entries)[h];
           && q.status == L.Locked && workloadDigest == q.request.workloadDigest
           && e.commitment.resourceClass in q.request.resourceClasses
           && e.commitment.availableFrom <= now < e.commitment.availableUntil && e.remaining >= q.request.amount
           && entries == old(entries)[h := Entry(e.commitment, e.recognised, e.remaining - q.request.amount)]
           && calls == old(calls)[call := Call(old(calls)[call].redemptionId, Executing(h, q))]
    {
      BeginKeeps(State(registry.Model(), Model()), call, workloadDigest, now);
      hide Inv, FirstFit, Fits;
      var found := calls[call].phase.found;
      if found.None? || found.value.status != L.Locked || workloadDigest != found.value.request.workloadDigest {
        calls := calls[call := calls[call].(phase := Failed)];
        return false;
      }
      var entry := Find(found.value, now);
      if entry.None? {
        calls := calls[call := calls[call].(phase := Failed)];
        return false;
      }
      var h := entry.value;
      entries := entries[h := entries[h].(remaining := entries[h].remaining - found.value.request.amount)];
      calls := calls[call := calls[call].(phase := Executing(h, found.value))];
      return true;
    }

    method Restore(call: int, h: nat, amount: int)
      requires call in calls && h < |entries|
      modifies this`entries, this`calls
      ensures Model() == SetPhase(AddRemaining(old(Model()), h, amount), call, Failed)
    {
      entries := entries[h := entries[h].(remaining := entries[h].remaining + amount)];
      calls := calls[call := calls[call].(phase := Failed)];
    }

    method Answer(call: int, answer: Option<(Receipt, string)>)
      requires Valid() && IsExecuting(Model(), call)
      modifies this`entries, this`calls, registry
      ensures Valid()
      ensures State(registry.Model(), Model()) == Settle(old(State(registry.Model(), Model())), call, answer)
      ensures call in calls && calls == old(calls)[call := Call(old(calls)[call].redemptionId, calls[call].phase)]
      ensures calls[call].phase.Settling? <==>
        && answer.Some?
        && var (receipt, e, q) := (answer.value.0, old(entries)[old(calls)[call].phase.handle], old(calls)[call].phase.redemption.request);
           && e.commitment.publicKey in receipt.verifiesUnder && receipt.redemptionId == old(calls)[call].redemptionId
           && receipt.providerId == e.commitment.providerId && receipt.holderAgent == q.holderAgent
           && receipt.resourceClass == e.commitment.resourceClass && receipt.meteredQuantity == q.amount
           && receipt.verified && receipt.resultDigest == answer.value.1
      ensures !calls[call].phase.Settling? ==>
        var (h, q) := (old(calls)[call].phase.handle, old(calls)[call].phase.redemption.request);
        var e := old(entries)[h];
        && registry.Model() == old(registry.Model()) && calls[call].phase == Failed
        && entries == old(entries)[h := Entry(e.commitment, e.recognised, e.remaining + q.amount)]
      ensures calls[call].phase.Settling? ==>
        var (id, l) := (old(calls)[call].redemptionId, old(registry.redemptions));
        && entries == old(entries)
        && calls[call].phase == Settling(old(calls)[call].phase.handle, old(calls)[call].phase.redemption, id in l && l[id].status == L.Locked)
        && (calls[call].phase.retired ==> id in registry.redemptions && registry.redemptions[id].status == L.Retired)
        && (!calls[call].phase.retired ==> registry.Model() == old(registry.Model()))
    {
      SettleKeeps(State(registry.Model(), Model()), call, answer);
      var c := calls[call];
      var (h, r) := (c.phase.handle, c.phase.redemption);
      if answer.Some? && ReceiptOk(entries[h], c.redemptionId, r, answer.value.0, answer.value.1) {
        var retirement := registry.Retire(c.redemptionId, L.ExecutionReceipt(answer.value.0.redemptionId, answer.value.0.verified));
        calls := calls[call := c.(phase := Settling(h, r, retirement.Ok?))];
      } else {
        Restore(call, h, r.request.amount);
      }
    }

    method Finish(call: int) returns (ok: bool)
      requires Valid() && IsSettling(Model(), call)
      modifies this`entries, this`calls
      ensures Valid() && Model() == Resume(old(Model()), call)
      ensures ok <==> Won(calls[call])
      ensures ok <==> old(calls)[call].phase.retired
      ensures var (h, q) := (old(calls)[call].phase.handle, old(calls)[call].phase.redemption);
        && calls == old(calls)[call := Call(old(calls)[call].redemptionId, if ok then Done(h, q) else Failed)]
        && entries == if ok then old(entries)
                      else old(entries)[h := Entry(old(entries)[h].commitment, old(entries)[h].recognised, old(entries)[h].remaining + q.request.amount)]
    {
      ResumeKeeps(State(registry.Model(), Model()), call);
      var c := calls[call];
      if c.phase.retired {
        calls := calls[call := c.(phase := Done(c.phase.handle, c.phase.redemption))];
        return true;
      }
      Restore(call, c.phase.handle, c.phase.redemption.request.amount);
      return false;
    }
  }
}
