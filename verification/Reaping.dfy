/** Reaping expired jobs while other calls come between its steps. */
module Reaping {
  // The expired jobs are listed once and then failed one after another, each failure checking
  // afresh; the first one refused makes the reaping throw.
  import opened Results
  import L = Ledger
  import LI = LedgerInvariants
  import LT = LedgerTheorems
  import J = Jobs
  import G = Joint
  import S = SplitEndings

  // The calls before a listed job's turn, and those between failing it for good and releasing
  // its redemption.
  datatype Turn = Turn(before: seq<S.Event>, between: seq<S.Event>)

  datatype Outcome = Outcome(passed: bool, ledger: L.State, jobs: J.State)

  function OneTurn(l: L.State, s: J.State, j: J.Job, turn: Turn): Outcome {
    if j.providerId.None? then Outcome(false, l, s)
    else
      var (l1, s1) := S.Happen(l, s, turn.before);
      var failed := J.Fail(s1, j.jobId, j.providerId.value, true);
      if failed.result.Err? then Outcome(false, l1, s1)
      else if failed.result.value.status != J.Refunded then Outcome(true, l1, failed.state)
      else
        var (l2, s2) := S.Happen(l1, failed.state, turn.between);
        var released := L.Release(l2, failed.result.value.redemptionId);
        Outcome(released.result.Ok?, released.state, s2)
  }

  // `done` counts the jobs reaped before the first refusal.
  datatype Reaped = Reaped(done: nat, ledger: L.State, jobs: J.State)

  function Reap(l: L.State, s: J.State, listed: seq<J.Job>, turns: seq<Turn>): (r: Reaped)
    requires |turns| == |listed|
    ensures r.done <= |listed|
    decreases |listed|
  {
    if listed == [] then Reaped(0, l, s)
    else
      var o := OneTurn(l, s, listed[0], turns[0]);
      if !o.passed then Reaped(0, o.ledger, o.jobs)
      else
        var r := Reap(o.ledger, o.jobs, listed[1..], turns[1..]);
        r.(done := r.done + 1)
  }

  // ---------- Calls that leave a job alone ----------

  predicate Enqueues(e: S.Event, jobId: string) {
    e.OnStore? && e.op.OpEnqueue? && e.op.input.jobId == jobId
  }

  predicate EndsIt(call: L.Op, redemptionId: string) {
    match call
    case OpRetire(id, _) => id == redemptionId
    case OpRelease(id) => id == redemptionId
    case _ => false
  }

  // A call that names the job, or ends its redemption.
  predicate Names(e: S.Event, j: J.Job) {
    match e
    case OnLedger(call) => EndsIt(call, j.redemptionId)
    case OnStore(op) =>
      match op
      case OpEnqueue(input) => input.jobId == j.jobId
      case OpClaim(_, _, id, _, _) => id == j.jobId
      case OpComplete(id, _) => id == j.jobId
      case OpFail(id, _, _) => id == j.jobId
      case _ => false
  }

  predicate Spares(events: seq<S.Event>, j: J.Job) {
    forall e <- events :: !Names(e, j)
  }

  predicate TurnsSpare(turns: seq<Turn>, j: J.Job) {
    forall t <- turns :: Spares(t.before, j) && Spares(t.between, j)
  }

  // No call enqueues a job under this id again; new jobs have fresh ids.
  predicate KeepsId(events: seq<S.Event>, jobId: string) {
    forall e <- events :: !Enqueues(e, jobId)
  }

  predicate TurnsKeepId(turns: seq<Turn>, jobId: string) {
    forall t <- turns :: KeepsId(t.before, jobId) && KeepsId(t.between, jobId)
  }

  // The job's row and its redemption are as they were, and no commitment is gone.
  predicate Kept(l: L.State, s: J.State, m: L.State, t: J.State, j: J.Job) {
    && (j.jobId in s.jobs ==> j.jobId in t.jobs && t.jobs[j.jobId] == s.jobs[j.jobId])
    && (j.redemptionId in l.redemptions ==> j.redemptionId in m.redemptions && m.redemptions[j.redemptionId] == l.redemptions[j.redemptionId])
    && s.commitments.Keys <= t.commitments.Keys
  }

  predicate HasJob(s: J.State, j: J.Job) {
    j.jobId in s.jobs && s.jobs[j.jobId].redemptionId == j.redemptionId
  }

  lemma KeptTrans(l: L.State, s: J.State, m: L.State, t: J.State, n: L.State, u: J.State, j: J.Job)
    requires Kept(l, s, m, t, j) && Kept(m, t, n, u, j)
    ensures Kept(l, s, n, u, j)
  {
  }

  lemma LedgerSpares(l: L.State, call: L.Op, r: string)
    requires LI.RedemptionsOk(l) && !EndsIt(call, r) && r in l.redemptions
    ensures r in L.Apply(l, call).0.redemptions && L.Apply(l, call).0.redemptions[r] == l.redemptions[r]
  {
    hide L.Key, L.Distinct, L.ProofIds, L.FirstBadItem;
    match call
    case OpAllocate(series, items) => LT.CreditAllShape(l, series, items, "");
    case OpTransfer(t, now, signed) => LT.TransferRedemptions(l, t, now, signed);
    case _ =>
  }

  lemma StoreSpares(l: L.State, s: J.State, op: J.Op, j: J.Job)
    ensures !Names(S.OnStore(op), j) ==> Kept(l, s, l, J.Apply(s, op), j)
    ensures !Enqueues(S.OnStore(op), j.jobId) && HasJob(s, j) ==> HasJob(J.Apply(s, op), j)
  {
  }

  lemma {:induction false} HappenSpares(l: L.State, s: J.State, events: seq<S.Event>, j: J.Job)
    requires LI.RedemptionsOk(l)
    ensures LI.RedemptionsOk(S.Happen(l, s, events).0)
    ensures Spares(events, j) ==> Kept(l, s, S.Happen(l, s, events).0, S.Happen(l, s, events).1, j)
    ensures KeepsId(events, j.jobId) && HasJob(s, j) ==> HasJob(S.Happen(l, s, events).1, j)
    decreases |events|
  {
    hide LI.RedemptionsOk, L.Apply, J.Apply, Names, Enqueues, HasJob;
    if events != [] {
      var e, rest := events[0], events[1..];
      assert events == [e] + rest;
      var (m, t) := S.Happen(l, s, [e]);
      HappenOne(l, s, e, j);
      assert S.Happen(l, s, events) == S.Happen(m, t, rest) by { assert [e][1..] == []; }
      HappenSpares(m, t, rest, j);
      hide S.Happen, Kept;
      if Spares(events, j) { KeptTrans(l, s, m, t, S.Happen(m, t, rest).0, S.Happen(m, t, rest).1, j); }
    }
  }

  lemma HappenOne(l: L.State, s: J.State, e: S.Event, j: J.Job)
    requires LI.RedemptionsOk(l)
    ensures var (m, t) := S.Happen(l, s, [e]);
            && LI.RedemptionsOk(m) && (!Names(e, j) ==> Kept(l, s, m, t, j)) && (!Enqueues(e, j.jobId) && HasJob(s, j) ==> HasJob(t, j))
  {
    hide L.Apply, J.Apply, LI.RedemptionsOk;
    assert [e][1..] == [];
    match e
    case OnLedger(call) =>
      LT.RedemptionsStay(l, call);
      if !Names(e, j) && j.redemptionId in l.redemptions { LedgerSpares(l, call, j.redemptionId); }
    case OnStore(op) => StoreSpares(l, s, op, j);
  }

  // ---------- One turn ----------

  // Failing one job, and releasing its redemption, touches no other job or redemption.
  lemma FailSpares(l: L.State, s: J.State, id: string, p: string, j: J.Job)
    ensures id != j.jobId ==> Kept(l, s, l, J.Fail(s, id, p, true).state, j)
    ensures HasJob(s, j) ==> HasJob(J.Fail(s, id, p, true).state, j)
  {
  }

  lemma ReleaseSpares(l: L.State, s: J.State, r: string, j: J.Job)
    requires LI.RedemptionsOk(l)
    ensures LI.RedemptionsOk(L.Release(l, r).state)
    ensures r != j.redemptionId ==> Kept(l, s, L.Release(l, r).state, s, j)
  {
  }

  // A listed job in store and the redemption it was enqueued for.
  predicate Other(k: J.Job, j: J.Job) {
    k.jobId != j.jobId && k.redemptionId != j.redemptionId
  }

  lemma TurnShape(l: L.State, s: J.State, k: J.Job, turn: Turn)
    requires LI.RedemptionsOk(l) && HasJob(s, k) && KeepsId(turn.before, k.jobId)
    ensures k.providerId.Some? ==>
      var (l1, s1) := S.Happen(l, s, turn.before);
      var failed := J.Fail(s1, k.jobId, k.providerId.value, true);
      failed.result.Ok? ==> failed.result.value.redemptionId == k.redemptionId
  {
    HappenSpares(l, s, turn.before, k);
    hide S.Happen;
  }

  // Another job's turn leaves a job alone if the calls during it do.
  lemma TurnSpares(l: L.State, s: J.State, k: J.Job, turn: Turn, j: J.Job)
    requires LI.RedemptionsOk(l) && HasJob(s, k) && KeepsId(turn.before, k.jobId)
    ensures var o := OneTurn(l, s, k, turn);
            && LI.RedemptionsOk(o.ledger)
            && (Other(k, j) && Spares(turn.before, j) && Spares(turn.between, j) ==> Kept(l, s, o.ledger, o.jobs, j))
            && (KeepsId(turn.before, j.jobId) && KeepsId(turn.between, j.jobId) && HasJob(s, j) ==> HasJob(o.jobs, j))
  {
    hide S.Happen, J.Fail, L.Release, LI.RedemptionsOk, HasJob, Kept, Spares, KeepsId;
    TurnShape(l, s, k, turn);
    HappenSpares(l, s, turn.before, j);
    if k.providerId.Some? {
      var (l1, s1) := S.Happen(l, s, turn.before);
      var failed := J.Fail(s1, k.jobId, k.providerId.value, true);
      FailSpares(l1, s1, k.jobId, k.providerId.value, j);
      var (l2, s2) := S.Happen(l1, failed.state, turn.between);
      HappenSpares(l1, failed.state, turn.between, j);
      ReleaseSpares(l2, s2, k.redemptionId, j);
      Chain(l, s, l1, s1, l1, failed.state, l2, s2, L.Release(l2, k.redemptionId).state, j);
      FailRefused(s1, k.jobId, k.providerId.value);
    } else {
      KeptSelf(l, s, j);
    }
  }

  lemma FailRefused(s: J.State, id: string, p: string)
    ensures J.Fail(s, id, p, true).result.Err? ==> J.Fail(s, id, p, true).state == s
  {
  }

  lemma KeptSelf(l: L.State, s: J.State, j: J.Job)
    ensures Kept(l, s, l, s, j)
  {
  }

  lemma Chain(l: L.State, s: J.State, l1: L.State, s1: J.State, l2: L.State, s2: J.State, l3: L.State, s3: J.State, l4: L.State, j: J.Job)
    ensures Kept(l, s, l1, s1, j) && Kept(l1, s1, l2, s2, j) ==> Kept(l, s, l2, s2, j)
    ensures Kept(l, s, l1, s1, j) && Kept(l1, s1, l2, s2, j) && Kept(l2, s2, l3, s3, j) && Kept(l3, s3, l4, s3, j) ==> Kept(l, s, l4, s3, j)
  {
  }

  // As the listing saw it: running with its lease run out, its redemption still locked.
  predicate Due(l: L.State, s: J.State, j: J.Job, now: int) {
    && j.jobId in s.jobs && s.jobs[j.jobId] == j && J.Expired(j, now) && j.providerId.Some?
    && j.commitmentId.Some? && j.commitmentId.value in s.commitments && L.IsLocked(l, j.redemptionId)
  }

  // A listed job left alone passes its turn, whatever else happens meanwhile.
  lemma DuePasses(l: L.State, s: J.State, j: J.Job, turn: Turn, now: int)
    requires LI.RedemptionsOk(l) && Due(l, s, j, now) && Spares(turn.before, j) && Spares(turn.between, j)
    ensures var o := OneTurn(l, s, j, turn);
            && o.passed && LI.RedemptionsOk(o.ledger) && ReapedNow(o.ledger, o.jobs, j)
  {
    hide S.Happen, LI.RedemptionsOk, Spares, L.End;
    HappenSpares(l, s, turn.before, j);
    var (l1, s1) := S.Happen(l, s, turn.before);
    var f := J.Fail(s1, j.jobId, j.providerId.value, true).state;
    HappenSpares(l1, f, turn.between, j);
    var (l2, s2) := S.Happen(l1, f, turn.between);
    ReleaseSpares(l2, s2, j.redemptionId, j);
    EndMarks(l2, j.redemptionId);
  }

  lemma EndMarks(l: L.State, r: string)
    ensures L.IsLocked(l, r) ==> var m := L.End(l, r, L.Refunded); r in m.redemptions && m.redemptions[r].status == L.Refunded
  {
  }

  // Requeued below its attempt limit, and refunded with its redemption at it.
  predicate ReapedNow(l: L.State, s: J.State, j: J.Job) {
    && j.jobId in s.jobs && s.jobs[j.jobId] == J.Failed(j, true)
    && j.redemptionId in l.redemptions && l.redemptions[j.redemptionId].status == if J.Retries(j, true) then L.Locked else L.Refunded
  }

  // ---------- Whole reapings ----------

  predicate Listed(s: J.State, listed: seq<J.Job>, turns: seq<Turn>) {
    && |turns| == |listed|
    && (forall k <- listed :: HasJob(s, k) && TurnsKeepId(turns, k.jobId))
    && (forall a, b :: 0 <= a < b < |listed| ==> Other(listed[a], listed[b]))
  }

  lemma RestListed(l: L.State, s: J.State, listed: seq<J.Job>, turns: seq<Turn>)
    requires LI.RedemptionsOk(l) && Listed(s, listed, turns) && listed != []
    ensures HasJob(s, listed[0]) && KeepsId(turns[0].before, listed[0].jobId)
    ensures Listed(OneTurn(l, s, listed[0], turns[0]).jobs, listed[1..], turns[1..])
  {
    hide OneTurn, HasJob, KeepsId, LI.RedemptionsOk, Other;
    assert turns[0] in turns && listed[0] in listed;
    forall k <- listed[1..] ensures HasJob(OneTurn(l, s, listed[0], turns[0]).jobs, k) && TurnsKeepId(turns[1..], k.jobId) {
      assert k in listed;
      TurnSpares(l, s, listed[0], turns[0], k);
    }
  }

  // Later turns of other jobs leave a job alone if the calls during them do.
  lemma {:induction false} ReapSpares(l: L.State, s: J.State, listed: seq<J.Job>, turns: seq<Turn>, j: J.Job)
    requires LI.RedemptionsOk(l) && Listed(s, listed, turns) && TurnsSpare(turns, j) && forall k <- listed :: Other(k, j)
    ensures Kept(l, s, Reap(l, s, listed, turns).ledger, Reap(l, s, listed, turns).jobs, j)
    decreases |listed|
  {
    hide OneTurn, Listed, Other, LI.RedemptionsOk, Spares, Kept;
    assert |turns| == |listed| by { LengthsAgree(s, listed, turns); }
    if listed == [] {
      KeptSelf(l, s, j);
    } else {
      var o := OneTurn(l, s, listed[0], turns[0]);
      assert listed[0] in listed && turns[0] in turns;
      RestListed(l, s, listed, turns);
      TurnSpares(l, s, listed[0], turns[0], j);
      if o.passed {
        ReapSpares(o.ledger, o.jobs, listed[1..], turns[1..], j);
        var r := Reap(o.ledger, o.jobs, listed[1..], turns[1..]);
        KeptTrans(l, s, o.ledger, o.jobs, r.ledger, r.jobs, j);
      }
    }
  }

  lemma LengthsAgree(s: J.State, listed: seq<J.Job>, turns: seq<Turn>)
    requires Listed(s, listed, turns)
    ensures |turns| == |listed|
  {
  }

  lemma RestOther(s: J.State, listed: seq<J.Job>, turns: seq<Turn>, i: nat)
    requires Listed(s, listed, turns) && 0 < i < |listed|
    ensures Other(listed[0], listed[i]) && listed[1..][i - 1] == listed[i]
  {
  }

  lemma FirstOther(s: J.State, listed: seq<J.Job>, turns: seq<Turn>)
    requires Listed(s, listed, turns) && listed != []
    ensures forall k <- listed[1..] :: Other(k, listed[0])
  {
    forall k <- listed[1..] ensures Other(k, listed[0]) {
      var i :| 0 <= i < |listed[1..]| && listed[1..][i] == k;
      assert listed[i + 1] == k && Other(listed[0], listed[i + 1]);
    }
  }

  lemma DueKept(l: L.State, s: J.State, m: L.State, t: J.State, j: J.Job, now: int)
    requires Kept(l, s, m, t, j)
    ensures Due(l, s, j, now) ==> Due(m, t, j, now)
    ensures ReapedNow(l, s, j) ==> ReapedNow(m, t, j)
  {
  }

  // However many other calls come between, a listed job they leave alone never stops the
  // reaping: it is reaped if the reaping gets to it, and otherwise it is as it was listed, so
  // that the next reaping lists it again.
  lemma {:induction false} ReapReaches(l: L.State, s: J.State, listed: seq<J.Job>, turns: seq<Turn>, i: nat, now: int)
    requires LI.RedemptionsOk(l) && Listed(s, listed, turns) && i < |listed|
    requires Due(l, s, listed[i], now) && TurnsSpare(turns, listed[i])
    ensures |turns| == |listed|
    ensures var r := Reap(l, s, listed, turns);
            && r.done != i
            && (i < r.done ==> ReapedNow(r.ledger, r.jobs, listed[i]))
            && (r.done < i ==> Due(r.ledger, r.jobs, listed[i], now))
    decreases |listed|
  {
    hide OneTurn, Listed, Other, LI.RedemptionsOk, Spares, Kept, Due, ReapedNow;
    LengthsAgree(s, listed, turns);
    var j, o := listed[i], OneTurn(l, s, listed[0], turns[0]);
    assert turns[0] in turns;
    RestListed(l, s, listed, turns);
    TurnSpares(l, s, listed[0], turns[0], j);
    if i == 0 {
      DuePasses(l, s, j, turns[0], now);
      FirstOther(s, listed, turns);
      ReapSpares(o.ledger, o.jobs, listed[1..], turns[1..], j);
      var r := Reap(o.ledger, o.jobs, listed[1..], turns[1..]);
      DueKept(o.ledger, o.jobs, r.ledger, r.jobs, j, now);
    } else {
      RestOther(s, listed, turns, i);
      DueKept(l, s, o.ledger, o.jobs, j, now);
      if o.passed { ReapReaches(o.ledger, o.jobs, listed[1..], turns[1..], i - 1, now); }
    }
  }

  // If the calls in between leave every listed job alone, every one is reaped.
  lemma ReapAll(l: L.State, s: J.State, listed: seq<J.Job>, turns: seq<Turn>, now: int)
    requires LI.RedemptionsOk(l) && Listed(s, listed, turns)
    requires forall j <- listed :: Due(l, s, j, now) && TurnsSpare(turns, j)
    ensures |turns| == |listed|
    ensures var r := Reap(l, s, listed, turns); r.done == |listed| && forall j <- listed :: ReapedNow(r.ledger, r.jobs, j)
  {
    hide Due, ReapedNow, TurnsSpare, Listed, Reap;
    LengthsAgree(s, listed, turns);
    var r := Reap(l, s, listed, turns);
    if r.done < |listed| { ReapReaches(l, s, listed, turns, r.done, now); }
    forall i | 0 <= i < |listed| ensures ReapedNow(r.ledger, r.jobs, listed[i]) { ReapReaches(l, s, listed, turns, i, now); }
  }

  // The turn looks at the provider alone: a job its provider has meanwhile failed and claimed
  // again is failed once more, whatever time its new lease has left.
  lemma FreshLeaseReaped(l: L.State, s: J.State, j: J.Job, c: string, later: int, leaseMs: int, now: int)
    requires Due(l, s, j, now) && j.attempts + 1 < j.maxAttempts && now < later + leaseMs
    requires var p := j.providerId.value; J.Claimable(J.Fail(s, j.jobId, p, true).state, p, c, j.jobId, later)
    ensures var p := j.providerId.value;
            var turn := Turn([S.OnStore(J.OpFail(j.jobId, p, true)), S.OnStore(J.OpClaim(p, c, j.jobId, later, leaseMs))], []);
            var again := S.Happen(l, s, turn.before).1;
            var o := OneTurn(l, s, j, turn);
            && J.RunningFor(again, j.jobId, p) && !J.Expired(again.jobs[j.jobId], now)
            && o.passed && o.jobs.jobs[j.jobId].status == J.Queued && o.jobs.jobs[j.jobId].attempts == j.attempts + 1
  {
    var p := j.providerId.value;
    var e, f := S.OnStore(J.OpFail(j.jobId, p, true)), S.OnStore(J.OpClaim(p, c, j.jobId, later, leaseMs));
    assert [e, f][1..] == [f] && [f][1..] == [];
    var t := J.Fail(s, j.jobId, p, true).state;
    assert S.Happen(l, s, [e, f]) == S.Happen(l, t, [f]) == (l, J.Claim(t, p, c, j.jobId, later, leaseMs));
  }
}
