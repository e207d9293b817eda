/** The in-memory coordinator between its awaits. */
module SplitEndings {
  // Completing a job checks it, retires its redemption and completes it in three separate steps;
  // failing it for good fails the job and releases the redemption in two. Any number of calls
  // interleave with claims, enqueues and other ledger calls, so a second step may come too late
  // and be refused.
  import opened Results
  import L = Ledger
  import LC = LedgerCalls
  import LI = LedgerInvariants
  import LT = LedgerTheorems
  import J = Jobs
  import G = Joint

  // A call between two of its steps.
  datatype Pending =
    | Checked(jobId: string, providerId: string)      // found running, receipt verified
    | HalfComplete(jobId: string, providerId: string) // redemption retired, job not yet completed
    | HalfFailed(jobId: string)                       // job refunded, redemption not yet released

  // torn: the jobs for which some call's second step was refused.
  datatype State = State(g: G.State, calls: map<int, Pending>, torn: set<string>)

  const Empty := State(G.Empty, map[], {})

  datatype Op =
    | OpPlain(op: G.Op)
    | OpRegister(commitment: J.Commitment, publicKey: string, recognised: int)
    | OpCheck(call: int, jobId: string, providerId: string)
    | OpRetire(call: int)
    | OpFinish(call: int)
    | OpFail(call: int, jobId: string, providerId: string, retryable: bool)
    | OpRelease(call: int)

  // Calls that end no redemption and no job.
  predicate Plain(op: G.Op) {
    !op.OpComplete? && !op.OpFail? && !op.OpRegisterProvider? && !G.EndsDirectly(op)
  }

  function RedemptionOf(g: G.State, id: string): string
    requires id in g.jobs.jobs
  {
    g.jobs.jobs[id].redemptionId
  }

  // ---------- Steps ----------

  function Retire(s: State, c: int, id: string, p: string): State
    requires id in s.g.jobs.jobs
  {
    var r := RedemptionOf(s.g, id);
    var step := L.Retire(s.g.ledger, r, L.ExecutionReceipt(r, true));
    if step.result.Ok? then State(s.g.(ledger := step.state), s.calls[c := HalfComplete(id, p)], s.torn)
    else s.(calls := s.calls - {c})
  }

  function Finish(s: State, c: int, id: string, p: string): State {
    var step := J.Complete(s.g.jobs, id, p);
    State(s.g.(jobs := step.state), s.calls - {c}, if step.result.Ok? then s.torn else s.torn + {id})
  }

  function Fail(s: State, c: int, id: string, p: string, retryable: bool): State {
    var step := J.Fail(s.g.jobs, id, p, retryable);
    if step.result.Err? then s
    else s.(g := s.g.(jobs := step.state), calls := if step.result.value.status == J.Refunded then s.calls[c := HalfFailed(id)] else s.calls)
  }

  function Release(s: State, c: int, id: string): State
    requires id in s.g.jobs.jobs
  {
    var step := L.Release(s.g.ledger, RedemptionOf(s.g, id));
    State(s.g.(ledger := step.state), s.calls - {c}, if step.result.Ok? then s.torn else s.torn + {id})
  }

  predicate At(s: State, c: int) {
    c in s.calls && s.calls[c].jobId in s.g.jobs.jobs
  }

  function Step(s: State, op: Op): State {
    match op
    case OpPlain(o) => if Plain(o) then s.(g := G.Apply(s.g, o).0) else s
    case OpRegister(c, key, recognised) => if 0 < recognised then s.(g := s.g.(jobs := J.RegisterProvider(s.g.jobs, c, key, recognised).state)) else s
    case OpCheck(c, id, p) => if c !in s.calls && J.RunningFor(s.g.jobs, id, p) then s.(calls := s.calls[c := Checked(id, p)]) else s
    case OpRetire(c) => if At(s, c) && s.calls[c].Checked? then Retire(s, c, s.calls[c].jobId, s.calls[c].providerId) else s
    case OpFinish(c) => if At(s, c) && s.calls[c].HalfComplete? then Finish(s, c, s.calls[c].jobId, s.calls[c].providerId) else s
    case OpFail(c, id, p, retryable) => if c !in s.calls then Fail(s, c, id, p, retryable) else s
    case OpRelease(c) => if At(s, c) && s.calls[c].HalfFailed? then Release(s, c, s.calls[c].jobId) else s
  }

  function Run(s: State, ops: seq<Op>): State
    decreases |ops|
  {
    if ops == [] then s else Run(Step(s, ops[0]), ops[1..])
  }

  // ---------- Without interruption ----------

  lemma ThreeSteps(s: State, a: Op, b: Op, c: Op)
    ensures Run(s, [a, b, c]) == Step(Step(Step(s, a), b), c) && Run(s, [a, b]) == Step(Step(s, a), b)
  {
    hide Step;
    assert [a, b, c][1..] == [b, c] && [a, b][1..] == [b] && [b, c][1..] == [c] && [b][1..] == [] && [c][1..] == [];
    assert Run(Step(Step(Step(s, a), b), c), []) == Step(Step(Step(s, a), b), c);
    assert Run(Step(Step(s, a), b), [c]) == Run(Step(Step(Step(s, a), b), c), []);
    assert Run(Step(Step(s, a), b), []) == Step(Step(s, a), b);
  }

  // The three steps of a completion with nothing in between are the atomic completion, whether
  // or not it goes through.
  lemma CompleteAtOnce(s: State, c: int, id: string, p: string)
    requires c !in s.calls
    ensures Run(s, [OpCheck(c, id, p), OpRetire(c), OpFinish(c)]) == s.(g := G.Complete(s.g, id, p).0)
  {
    ThreeSteps(s, OpCheck(c, id, p), OpRetire(c), OpFinish(c));
    hide Run, L.End, L.Retire, J.Complete;
    if J.RunningFor(s.g.jobs, id, p) {
      var a := s.(calls := s.calls[c := Checked(id, p)]);
      assert Step(s, OpCheck(c, id, p)) == a;
      var b := Retire(a, c, id, p);
      assert Step(a, OpRetire(c)) == b;
      CompleteAccepted(s.g.jobs, id, p);
      assert a.calls - {c} == s.calls && a.calls[c := HalfComplete(id, p)] - {c} == s.calls;
    }
  }

  lemma FailedRow(s: J.State, id: string, p: string, retryable: bool)
    ensures var f := J.Fail(s, id, p, retryable);
      && (f.result.Err? ==> f.state == s)
      && (f.result.Ok? ==> id in f.state.jobs && f.state.jobs[id] == f.result.value && (f.result.value.status == J.Queued || f.result.value.status == J.Refunded))
  {
  }

  // So are the two of a failure, unless the ledger refuses the release: then the job is refunded
  // all the same and torn from its redemption.
  lemma FailAtOnce(s: State, c: int, id: string, p: string, retryable: bool)
    requires c !in s.calls
    ensures var t := Run(s, [OpFail(c, id, p, retryable), OpRelease(c)]);
      && (G.Fail(s.g, id, p, retryable).1 || J.Fail(s.g.jobs, id, p, retryable).result.Err? ==> t == s.(g := G.Fail(s.g, id, p, retryable).0))
      && (!G.Fail(s.g, id, p, retryable).1 && J.Fail(s.g.jobs, id, p, retryable).result.Ok? ==>
            t == State(s.g.(jobs := J.Fail(s.g.jobs, id, p, retryable).state), s.calls, s.torn + {id}))
  {
    ThreeSteps(s, OpFail(c, id, p, retryable), OpRelease(c), OpRelease(c));
    hide Run, L.End, L.Release;
    var f := J.Fail(s.g.jobs, id, p, retryable);
    FailedRow(s.g.jobs, id, p, retryable);
    hide J.Fail;
    var a := Fail(s, c, id, p, retryable);
    assert Step(s, OpFail(c, id, p, retryable)) == a;
    if f.result.Ok? && f.result.value.status == J.Refunded {
      LC.ReleaseAccepted(s.g.ledger, f.result.value.redemptionId);
      assert Step(a, OpRelease(c)) == Release(a, c, id);
      assert a.calls - {c} == s.calls;
    }
  }

  // ---------- The invariant ----------

  ghost predicate HalfCompleteOn(s: State, id: string) {
    exists c <- s.calls :: s.calls[c].HalfComplete? && s.calls[c].jobId == id
  }

  ghost predicate HalfFailedOn(s: State, id: string) {
    exists c <- s.calls :: s.calls[c].HalfFailed? && s.calls[c].jobId == id
  }

  // The job's redemption exists with the job's holder, series and amount, whatever its status.
  predicate Describes(l: L.State, j: J.Job) {
    && j.redemptionId in l.redemptions
    && var q := l.redemptions[j.redemptionId].request;
       q.holderAgent == j.holderAgent && q.seriesId == j.seriesId && q.amount == j.amount
  }

  // How a job may stand to its redemption, given the calls half way through ending it.
  predicate Stands(r: L.Status, j: J.JobStatus, halfComplete: bool, halfFailed: bool, torn: bool) {
    match r
    case Locked => !halfComplete && !torn && if halfFailed then j == J.Refunded else j == J.Queued || j == J.Running
    case Retired =>
      if j == J.Completed then !halfComplete && !halfFailed && !torn
      else (halfComplete || torn) && (halfFailed ==> j == J.Refunded) && (halfComplete && torn ==> j == J.Refunded)
    case Refunded => j == J.Refunded && !halfComplete && !halfFailed && !torn
  }

  ghost predicate JobStands(s: State, id: string)
    requires id in s.g.jobs.jobs
  {
    var j := s.g.jobs.jobs[id];
    && Describes(s.g.ledger, j)
    && Stands(s.g.ledger.redemptions[j.redemptionId].status, j.status, HalfCompleteOn(s, id), HalfFailedOn(s, id), id in s.torn)
  }

  // At most one call is half way through each kind of ending of a job.
  ghost predicate CallsOk(s: State) {
    && (forall c <- s.calls :: s.calls[c].jobId in s.g.jobs.jobs)
    && (forall c, d :: c in s.calls && d in s.calls && s.calls[c].HalfComplete? && s.calls[d].HalfComplete? && s.calls[c].jobId == s.calls[d].jobId ==> c == d)
    && (forall c, d :: c in s.calls && d in s.calls && s.calls[c].HalfFailed? && s.calls[d].HalfFailed? && s.calls[c].jobId == s.calls[d].jobId ==> c == d)
    && (forall id <- s.torn :: id in s.g.jobs.jobs)
  }

  ghost predicate BaseOk(g: G.State) {
    LI.RedemptionsOk(g.ledger) && J.Inv(g.jobs) && G.SnapshotsOk(g)
  }

  ghost predicate JobsStand(s: State) {
    forall id <- s.g.jobs.jobs :: JobStands(s, id)
  }

  ghost predicate Inv(s: State) {
    BaseOk(s.g) && CallsOk(s) && JobsStand(s)
  }

  // ---------- Plain steps ----------

  // What a step that ends nothing may do: start queued jobs, and add a queued job for a
  // locked redemption.
  ghost predicate EndsNothing(g: G.State, h: G.State) {
    && (forall r <- g.ledger.redemptions :: r in h.ledger.redemptions && h.ledger.redemptions[r] == g.ledger.redemptions[r])
    && (forall id <- g.jobs.jobs :: id in h.jobs.jobs && SameWork(g.jobs.jobs[id], h.jobs.jobs[id])
          && (h.jobs.jobs[id] == g.jobs.jobs[id] || (g.jobs.jobs[id].status == J.Queued && h.jobs.jobs[id].status == J.Running)))
    && (forall id <- h.jobs.jobs :: id !in g.jobs.jobs ==>
          && h.jobs.jobs[id].status == J.Queued && Describes(g.ledger, h.jobs.jobs[id]) && L.IsLocked(g.ledger, h.jobs.jobs[id].redemptionId))
  }

  predicate SameWork(i: J.Job, j: J.Job) {
    i.redemptionId == j.redemptionId && i.holderAgent == j.holderAgent && i.seriesId == j.seriesId && i.amount == j.amount
  }

  lemma PlainLedger(g: G.State, o: L.Op)
    requires BaseOk(g) && !o.OpRetire? && !o.OpRelease?
    ensures var h := g.(ledger := L.Apply(g.ledger, o).0); BaseOk(h) && EndsNothing(g, h)
  {
    LT.RedemptionsStay(g.ledger, o);
    G.LedgerRedemptions(g.ledger, o);
    hide L.Apply, J.Inv, J.HasRedemption, LI.RedemptionsOk;
  }

  // A queued job for a snapshot whose redemption no other job has.
  lemma AddJob(g: G.State, q: L.LockRequest, j: J.Job)
    requires G.SnapshotsOk(g) && q in g.prechecked && !J.HasRedemption(g.jobs.jobs, q.redemptionId) && j.jobId !in g.jobs.jobs
    requires j.redemptionId == q.redemptionId && j.holderAgent == q.holderAgent && j.seriesId == q.seriesId && j.amount == q.amount && j.status == J.Queued
    ensures var h := g.(jobs := g.jobs.(jobs := g.jobs.jobs[j.jobId := j])); G.SnapshotsOk(h) && EndsNothing(g, h)
  {
    var h := g.(jobs := g.jobs.(jobs := g.jobs.jobs[j.jobId := j]));
    forall r <- h.prechecked ensures J.HasRedemption(g.jobs.jobs, r.redemptionId) ==> J.HasRedemption(h.jobs.jobs, r.redemptionId) {
      if J.HasRedemption(g.jobs.jobs, r.redemptionId) {
        var id :| id in g.jobs.jobs && g.jobs.jobs[id].redemptionId == r.redemptionId;
        assert id in h.jobs.jobs;
      }
    }
    hide J.HasRedemption;
  }

  lemma Unmoved(g: G.State)
    ensures EndsNothing(g, g)
  {
  }

  lemma SnapshotPositive(g: G.State, q: L.LockRequest)
    requires LI.RedemptionsOk(g.ledger) && G.SnapshotsOk(g) && q in g.prechecked
    ensures 0 < q.amount
  {
  }

  lemma PlainInsert(g: G.State, q: L.LockRequest, jobId: string, maxAttempts: int)
    requires BaseOk(g)
    ensures var h := G.Insert(g, q, jobId, maxAttempts).0; BaseOk(h) && EndsNothing(g, h)
  {
    var h := G.Insert(g, q, jobId, maxAttempts).0;
    var input := G.InputOf(q, jobId, maxAttempts);
    hide J.Inv, LI.RedemptionsOk, G.SnapshotsOk, EndsNothing, J.HasRedemption;
    if h == g {
      Unmoved(g);
    } else {
      SnapshotPositive(g, q);
      J.ApplyKeeps(g.jobs, J.OpEnqueue(input));
      AddJob(g, q, J.NewJob(input));
    }
  }

  lemma ClaimStarts(g: G.State, p: string, c: string, id: string, now: int, leaseMs: int)
    requires J.Claimable(g.jobs, p, c, id, now)
    ensures var h := g.(jobs := J.Claim(g.jobs, p, c, id, now, leaseMs));
            EndsNothing(g, h) && id in g.jobs.jobs && id in h.jobs.jobs && h.jobs.jobs == g.jobs.jobs[id := h.jobs.jobs[id]]
            && h.jobs.jobs[id].redemptionId == g.jobs.jobs[id].redemptionId
  {
  }

  lemma PlainClaim(g: G.State, p: string, c: string, id: string, now: int, leaseMs: int)
    requires BaseOk(g)
    ensures var h := G.Claim(g, p, c, id, now, leaseMs).0; BaseOk(h) && EndsNothing(g, h)
  {
    hide J.Inv, LI.RedemptionsOk, J.HasRedemption, G.SnapshotsOk, EndsNothing, J.Claimable, J.Claim;
    var h := G.Claim(g, p, c, id, now, leaseMs).0;
    Unmoved(g);
    if J.Claimable(g.jobs, p, c, id, now) {
      J.ClaimKeeps(g.jobs, p, c, id, now, leaseMs);
      ClaimStarts(g, p, c, id, now, leaseMs);
      G.SnapshotsKept(g, h, id);
    }
  }

  lemma PlainStore(g: G.State, s: J.State, op: J.Op)
    requires BaseOk(g) && (op.OpSetActive? || op.OpRegister?) && J.Admissible(g.jobs, op) && s == J.Apply(g.jobs, op)
    ensures BaseOk(g.(jobs := s)) && EndsNothing(g, g.(jobs := s))
  {
    J.ApplyKeeps(g.jobs, op);
    assert s.jobs == g.jobs.jobs;
    hide J.Inv, LI.RedemptionsOk;
  }

  lemma PlainPrecheck(g: G.State, id: string, digest: string)
    requires BaseOk(g)
    ensures var h := G.Precheck(g, id, digest).0; BaseOk(h) && EndsNothing(g, h)
  {
    hide J.Inv, J.HasRedemption;
  }

  lemma PlainApply(g: G.State, op: G.Op)
    requires BaseOk(g) && Plain(op)
    ensures var h := G.Apply(g, op).0; BaseOk(h) && EndsNothing(g, h)
  {
    hide BaseOk, EndsNothing, L.Apply, G.Insert, G.Claim, G.Precheck;
    match op
    case OpLedger(o) => PlainLedger(g, o);
    case OpSetActive(p, active) => PlainStore(g, G.Apply(g, op).0.jobs, J.OpSetActive(p, active));
    case OpPrecheck(id, digest) => PlainPrecheck(g, id, digest);
    case OpInsert(q, jobId, maxAttempts) => PlainInsert(g, q, jobId, maxAttempts);
    case OpClaim(p, c, id, now, leaseMs) => PlainClaim(g, p, c, id, now, leaseMs);
    case _ =>
  }

  lemma PlainKeeps(s: State, h: G.State)
    requires Inv(s) && BaseOk(h) && EndsNothing(s.g, h)
    ensures Inv(s.(g := h))
  {
    hide BaseOk;
    var t := s.(g := h);
    forall id <- h.jobs.jobs ensures JobStands(t, id) {
      assert HalfCompleteOn(t, id) == HalfCompleteOn(s, id) && HalfFailedOn(t, id) == HalfFailedOn(s, id);
      if id in s.g.jobs.jobs { assert JobStands(s, id); }
    }
  }

  // ---------- Steps of calls ----------

  // A changed set of calls leaves the other jobs as they stood.
  ghost predicate OnlyOn(s: State, t: State, id: string) {
    && (forall k :: k != id ==> (HalfCompleteOn(t, k) <==> HalfCompleteOn(s, k)) && (HalfFailedOn(t, k) <==> HalfFailedOn(s, k)) && (k in t.torn <==> k in s.torn))
  }

  lemma CallAdded(s: State, t: State, c: int, x: Pending)
    requires CallsOk(s) && t.calls == s.calls[c := x] && t.torn == s.torn && t.g.jobs.jobs.Keys == s.g.jobs.jobs.Keys && x.jobId in s.g.jobs.jobs
    requires c in s.calls ==> s.calls[c].Checked? && s.calls[c].jobId == x.jobId
    requires x.HalfComplete? ==> !HalfCompleteOn(s, x.jobId)
    requires x.HalfFailed? ==> !HalfFailedOn(s, x.jobId)
    ensures CallsOk(t) && OnlyOn(s, t, x.jobId)
    ensures HalfCompleteOn(t, x.jobId) <==> x.HalfComplete? || HalfCompleteOn(s, x.jobId)
    ensures HalfFailedOn(t, x.jobId) <==> x.HalfFailed? || HalfFailedOn(s, x.jobId)
  {
    forall d | d in s.calls && !s.calls[d].Checked? ensures d in t.calls && t.calls[d] == s.calls[d] {}
    assert t.calls[c] == x;
  }

  lemma CallRemoved(s: State, t: State, c: int)
    requires CallsOk(s) && c in s.calls && t.calls == s.calls - {c} && t.g.jobs.jobs.Keys == s.g.jobs.jobs.Keys
    requires s.torn <= t.torn <= s.torn + {s.calls[c].jobId}
    ensures CallsOk(t) && OnlyOn(s, t, s.calls[c].jobId)
    ensures var id := s.calls[c].jobId;
            && (HalfCompleteOn(t, id) <==> HalfCompleteOn(s, id) && !s.calls[c].HalfComplete?)
            && (HalfFailedOn(t, id) <==> HalfFailedOn(s, id) && !s.calls[c].HalfFailed?)
  {
    forall d | d in s.calls && d != c ensures d in t.calls && t.calls[d] == s.calls[d] {}
  }

  // Only job id, or its redemption, has changed.
  ghost predicate ChangesOne(g: G.State, h: G.State, id: string) {
    && id in g.jobs.jobs && id in h.jobs.jobs && h.jobs.jobs == g.jobs.jobs[id := h.jobs.jobs[id]]
    && SameWork(g.jobs.jobs[id], h.jobs.jobs[id])
    && var r := g.jobs.jobs[id].redemptionId;
       && r in g.ledger.redemptions && r in h.ledger.redemptions
       && h.ledger.redemptions == g.ledger.redemptions[r := h.ledger.redemptions[r]]
       && h.ledger.redemptions[r].request == g.ledger.redemptions[r].request
  }

  // If only one job's ending moves, and that job still stands, all do.
  lemma OneMoved(s: State, t: State, id: string)
    requires JobsStand(s) && J.UniqueRedemptions(s.g.jobs.jobs) && ChangesOne(s.g, t.g, id) && OnlyOn(s, t, id)
    requires JobStands(t, id)
    ensures JobsStand(t)
  {
    hide Stands;
    forall k <- t.g.jobs.jobs ensures JobStands(t, k) {
      if k != id {
        assert JobStands(s, k);
        assert s.g.jobs.jobs[k].redemptionId != s.g.jobs.jobs[id].redemptionId;
      }
    }
  }

  // A redemption that ends has a job to refuse any snapshot of it.
  lemma EndedSnapshots(g: G.State, h: G.State, id: string)
    requires G.SnapshotsOk(g) && h.prechecked == g.prechecked && h.jobs == g.jobs && ChangesOne(g, h, id)
    ensures G.SnapshotsOk(h)
  {
    assert h.jobs.jobs[id].redemptionId == g.jobs.jobs[id].redemptionId;
    forall q <- h.prechecked ensures q.redemptionId in h.ledger.redemptions && h.ledger.redemptions[q.redemptionId].request == q
      && (h.ledger.redemptions[q.redemptionId].status == L.Locked || J.HasRedemption(h.jobs.jobs, q.redemptionId))
    {
      if q.redemptionId == g.jobs.jobs[id].redemptionId { assert J.HasRedemption(h.jobs.jobs, q.redemptionId); }
    }
  }

  lemma Unique(g: G.State)
    requires BaseOk(g)
    ensures J.UniqueRedemptions(g.jobs.jobs)
  {
  }

  lemma LedgerEnd(g: G.State, id: string, outcome: L.Status)
    requires BaseOk(g) && id in g.jobs.jobs && L.IsLocked(g.ledger, g.jobs.jobs[id].redemptionId) && outcome != L.Locked
    ensures var h := g.(ledger := L.End(g.ledger, g.jobs.jobs[id].redemptionId, outcome));
            && BaseOk(h) && ChangesOne(g, h, id) && Describes(h.ledger, h.jobs.jobs[id]) == Describes(g.ledger, g.jobs.jobs[id])
            && g.jobs.jobs[id].redemptionId in h.ledger.redemptions && h.ledger.redemptions[g.jobs.jobs[id].redemptionId].status == outcome
  {
    var r := g.jobs.jobs[id].redemptionId;
    var h := g.(ledger := L.End(g.ledger, r, outcome));
    assert h.ledger.redemptions == g.ledger.redemptions[r := L.Redemption(g.ledger.redemptions[r].request, outcome)];
    assert h.ledger.acceptedIds == g.ledger.acceptedIds;
    hide L.End, J.Inv, J.HasRedemption;
    EndedSnapshots(g, h, id);
  }

  lemma SelfChanges(g: G.State, id: string)
    requires id in g.jobs.jobs && g.jobs.jobs[id].redemptionId in g.ledger.redemptions
    ensures ChangesOne(g, g, id)
  {
  }

  // The job as it was, its redemption ended, and the call moved on.
  lemma EndStands(s: State, t: State, id: string, outcome: L.Status)
    requires id in s.g.jobs.jobs && JobStands(s, id) && t.g.jobs == s.g.jobs && t.torn == s.torn
    requires L.IsLocked(s.g.ledger, RedemptionOf(s.g, id)) && Describes(t.g.ledger, s.g.jobs.jobs[id])
    requires t.g.ledger.redemptions[RedemptionOf(s.g, id)].status == outcome
    requires if outcome == L.Retired then HalfCompleteOn(t, id) && HalfFailedOn(t, id) == HalfFailedOn(s, id)
             else outcome == L.Refunded && HalfFailedOn(s, id) && !HalfFailedOn(t, id) && HalfCompleteOn(t, id) == HalfCompleteOn(s, id)
    ensures JobStands(t, id)
  {
    hide HalfCompleteOn, HalfFailedOn;
  }

  lemma LockedFree(s: State, id: string)
    requires id in s.g.jobs.jobs && JobStands(s, id) && L.IsLocked(s.g.ledger, RedemptionOf(s.g, id))
    ensures !HalfCompleteOn(s, id)
  {
    hide HalfCompleteOn, HalfFailedOn;
  }

  lemma RetireKeeps(s: State, c: int)
    requires Inv(s) && At(s, c) && s.calls[c].Checked?
    ensures Inv(Step(s, OpRetire(c)))
  {
    hide BaseOk, Stands, CallsOk, HalfCompleteOn, HalfFailedOn, OnlyOn, JobStands, ChangesOne, JobsStand, L.End, Describes;
    var id, p := s.calls[c].jobId, s.calls[c].providerId;
    var t := Retire(s, c, id, p);
    CallAt(s, c);
    if L.IsLocked(s.g.ledger, RedemptionOf(s.g, id)) {
      LedgerEnd(s.g, id, L.Retired);
      LockedFree(s, id);
      CallAdded(s, t, c, HalfComplete(id, p));
      JobDescribed(s, id);
      EndStands(s, t, id, L.Retired);
      OneMoved(s, t, id);
    } else {
      CallRemoved(s, t, c);
      UnmovedGround(s, t, id);
    }
  }

  lemma JobDescribed(s: State, id: string)
    requires id in s.g.jobs.jobs && JobStands(s, id)
    ensures Describes(s.g.ledger, s.g.jobs.jobs[id])
  {
  }

  // A refused first step changes nothing but its own call.
  lemma UnmovedGround(s: State, t: State, id: string)
    requires JobsStand(s) && t.g == s.g && OnlyOn(s, t, id) && t.torn == s.torn
    requires HalfCompleteOn(t, id) == HalfCompleteOn(s, id) && HalfFailedOn(t, id) == HalfFailedOn(s, id)
    ensures JobsStand(t)
  {
    forall k <- t.g.jobs.jobs ensures JobStands(t, k) { assert JobStands(s, k); }
  }

  lemma JobMoved(g: G.State, s: J.State, id: string)
    requires BaseOk(g) && J.Inv(s) && id in g.jobs.jobs && id in s.jobs && s.jobs == g.jobs.jobs[id := s.jobs[id]]
    requires SameWork(g.jobs.jobs[id], s.jobs[id]) && g.jobs.jobs[id].redemptionId in g.ledger.redemptions
    ensures BaseOk(g.(jobs := s)) && ChangesOne(g, g.(jobs := s), id)
  {
    hide J.Inv, LI.RedemptionsOk, J.HasRedemption, G.SnapshotsOk;
    G.SnapshotsKept(g, g.(jobs := s), id);
  }

  lemma StandsFinish(r: L.Status, j: J.JobStatus, halfFailed: bool, torn: bool)
    requires Stands(r, j, true, halfFailed, torn)
    ensures j == J.Running ==> Stands(r, J.Completed, false, halfFailed, torn)
    ensures Stands(r, j, false, halfFailed, true)
  {
  }

  lemma FinishStands(s: State, t: State, id: string)
    requires id in s.g.jobs.jobs && JobStands(s, id) && HalfCompleteOn(s, id) && ChangesOne(s.g, t.g, id) && t.g.ledger == s.g.ledger
    requires !HalfCompleteOn(t, id) && HalfFailedOn(t, id) == HalfFailedOn(s, id)
    requires if t.g.jobs.jobs[id].status == s.g.jobs.jobs[id].status then id in t.torn
             else s.g.jobs.jobs[id].status == J.Running && t.g.jobs.jobs[id].status == J.Completed && t.torn == s.torn
    ensures JobStands(t, id)
  {
    hide Stands, HalfCompleteOn, HalfFailedOn;
    var j := s.g.jobs.jobs[id];
    StandsFinish(s.g.ledger.redemptions[j.redemptionId].status, j.status, HalfFailedOn(s, id), id in s.torn);
  }

  lemma FinishMoves(g: G.State, id: string, p: string)
    requires BaseOk(g) && id in g.jobs.jobs && g.jobs.jobs[id].redemptionId in g.ledger.redemptions
    ensures var step := J.Complete(g.jobs, id, p);
            var h := g.(jobs := step.state);
            && BaseOk(h) && ChangesOne(g, h, id) && h.jobs.jobs.Keys == g.jobs.jobs.Keys
            && (if step.result.Ok? then g.jobs.jobs[id].status == J.Running && h.jobs.jobs[id].status == J.Completed else h == g)
  {
    J.CompleteKeeps(g.jobs, id, p);
    JobMoved(g, J.Complete(g.jobs, id, p).state, id);
    hide BaseOk, ChangesOne;
  }

  lemma CallAt(s: State, c: int)
    requires BaseOk(s.g) && JobsStand(s) && At(s, c)
    ensures var id := s.calls[c].jobId;
            && JobStands(s, id) && s.g.jobs.jobs[id].redemptionId in s.g.ledger.redemptions && J.UniqueRedemptions(s.g.jobs.jobs)
            && (s.calls[c].HalfComplete? ==> HalfCompleteOn(s, id)) && (s.calls[c].HalfFailed? ==> HalfFailedOn(s, id))
  {
    Unique(s.g);
    assert JobStands(s, s.calls[c].jobId);
  }

  lemma FinishKeeps(s: State, c: int)
    requires Inv(s) && At(s, c) && s.calls[c].HalfComplete?
    ensures Inv(Step(s, OpFinish(c)))
  {
    hide BaseOk, Stands, CallsOk, HalfCompleteOn, HalfFailedOn, OnlyOn, JobStands, ChangesOne, JobsStand, J.Complete;
    var id, p := s.calls[c].jobId, s.calls[c].providerId;
    var t := Finish(s, c, id, p);
    CallAt(s, c);
    FinishMoves(s.g, id, p);
    CallRemoved(s, t, c);
    FinishStands(s, t, id);
    OneMoved(s, t, id);
  }

  lemma FailMoves(g: G.State, id: string, p: string, retryable: bool)
    requires BaseOk(g) && J.Fail(g.jobs, id, p, retryable).result.Ok? && id in g.jobs.jobs && g.jobs.jobs[id].redemptionId in g.ledger.redemptions
    ensures var step := J.Fail(g.jobs, id, p, retryable);
            var h := g.(jobs := step.state);
            && BaseOk(h) && ChangesOne(g, h, id) && g.jobs.jobs[id].status == J.Running && h.jobs.jobs[id] == step.result.value
            && (step.result.value.status == J.Queued || step.result.value.status == J.Refunded)
            && h.jobs.jobs.Keys == g.jobs.jobs.Keys
  {
    J.FailKeeps(g.jobs, id, p, retryable);
    JobMoved(g, J.Fail(g.jobs, id, p, retryable).state, id);
    hide BaseOk, ChangesOne;
  }

  lemma StandsFail(r: L.Status, halfComplete: bool, halfFailed: bool, torn: bool)
    requires Stands(r, J.Running, halfComplete, halfFailed, torn)
    ensures !halfFailed && Stands(r, J.Queued, halfComplete, false, torn) && Stands(r, J.Refunded, halfComplete, true, torn)
  {
  }

  // The job with its new status, the redemption as it was.
  lemma FailStands(s: State, t: State, id: string, status: J.JobStatus)
    requires id in s.g.jobs.jobs && JobStands(s, id) && ChangesOne(s.g, t.g, id) && t.g.ledger == s.g.ledger && t.torn == s.torn
    requires s.g.jobs.jobs[id].status == J.Running && t.g.jobs.jobs[id].status == status
    requires HalfCompleteOn(t, id) == HalfCompleteOn(s, id)
    requires (status == J.Queued && HalfFailedOn(t, id) == HalfFailedOn(s, id)) || (status == J.Refunded && HalfFailedOn(t, id))
    ensures JobStands(t, id)
  {
    hide Stands, HalfCompleteOn, HalfFailedOn;
    var r := s.g.ledger.redemptions[s.g.jobs.jobs[id].redemptionId].status;
    StandsFail(r, HalfCompleteOn(s, id), HalfFailedOn(s, id), id in s.torn);
  }

  lemma NotHalfFailed(s: State, id: string)
    requires id in s.g.jobs.jobs && JobStands(s, id) && s.g.jobs.jobs[id].status == J.Running
    ensures !HalfFailedOn(s, id)
  {
    hide HalfCompleteOn, HalfFailedOn;
  }

  lemma SameCalls(s: State, t: State, id: string)
    requires CallsOk(s) && t.calls == s.calls && t.torn == s.torn && t.g.jobs.jobs.Keys == s.g.jobs.jobs.Keys
    ensures CallsOk(t) && OnlyOn(s, t, id) && HalfCompleteOn(t, id) == HalfCompleteOn(s, id) && HalfFailedOn(t, id) == HalfFailedOn(s, id)
  {
  }

  lemma FailKeeps(s: State, c: int, id: string, p: string, retryable: bool)
    requires Inv(s) && c !in s.calls
    ensures Inv(Step(s, OpFail(c, id, p, retryable)))
  {
    hide BaseOk, Stands, CallsOk, HalfCompleteOn, HalfFailedOn, OnlyOn, JobStands, ChangesOne;
    var step := J.Fail(s.g.jobs, id, p, retryable);
    if step.result.Ok? {
      FailAt(s, id, p, retryable);
      hide J.Fail, JobsStand;
      var t := Fail(s, c, id, p, retryable);
      FailMoves(s.g, id, p, retryable);
      if step.result.value.status == J.Refunded {
        NotHalfFailed(s, id);
        CallAdded(s, t, c, HalfFailed(id));
      } else {
        SameCalls(s, t, id);
      }
      FailStands(s, t, id, step.result.value.status);
      OneMoved(s, t, id);
    }
  }

  lemma FailAt(s: State, id: string, p: string, retryable: bool)
    requires BaseOk(s.g) && JobsStand(s) && J.Fail(s.g.jobs, id, p, retryable).result.Ok?
    ensures id in s.g.jobs.jobs && JobStands(s, id) && s.g.jobs.jobs[id].status == J.Running
    ensures s.g.jobs.jobs[id].redemptionId in s.g.ledger.redemptions && J.UniqueRedemptions(s.g.jobs.jobs)
  {
    Unique(s.g);
    hide HalfCompleteOn, HalfFailedOn, Stands;
    assert JobStands(s, id);
  }

  // A refused release tears the job: its redemption was retired meanwhile.
  lemma TornStands(s: State, t: State, id: string)
    requires id in s.g.jobs.jobs && JobStands(s, id) && HalfFailedOn(s, id) && t.g == s.g && id in t.torn
    requires !L.IsLocked(s.g.ledger, RedemptionOf(s.g, id)) && !HalfFailedOn(t, id) && HalfCompleteOn(t, id) == HalfCompleteOn(s, id)
    ensures JobStands(t, id)
  {
    hide HalfCompleteOn, HalfFailedOn;
  }

  lemma ReleaseKeeps(s: State, c: int)
    requires Inv(s) && At(s, c) && s.calls[c].HalfFailed?
    ensures Inv(Step(s, OpRelease(c)))
  {
    hide BaseOk, Stands, CallsOk, HalfCompleteOn, HalfFailedOn, OnlyOn, JobStands, ChangesOne, JobsStand, L.End, Describes;
    var id := s.calls[c].jobId;
    var t := Release(s, c, id);
    CallAt(s, c);
    CallRemoved(s, t, c);
    if L.IsLocked(s.g.ledger, RedemptionOf(s.g, id)) {
      LedgerEnd(s.g, id, L.Refunded);
      JobDescribed(s, id);
      EndStands(s, t, id, L.Refunded);
    } else {
      SelfChanges(s.g, id);
      TornStands(s, t, id);
    }
    OneMoved(s, t, id);
  }

  lemma CheckKeeps(s: State, c: int, id: string, p: string)
    requires Inv(s) && c !in s.calls && J.RunningFor(s.g.jobs, id, p)
    ensures Inv(Step(s, OpCheck(c, id, p)))
  {
    hide BaseOk;
    var t := s.(calls := s.calls[c := Checked(id, p)]);
    CallAdded(s, t, c, Checked(id, p));
    UnmovedGround(s, t, id);
  }

  lemma StepKeeps(s: State, op: Op)
    requires Inv(s)
    ensures Inv(Step(s, op))
  {
    hide BaseOk, CallsOk, JobsStand, EndsNothing, G.Apply, Retire, Finish, Fail, Release, J.RegisterProvider;
    match op
    case OpPlain(o) => if Plain(o) { PlainApply(s.g, o); PlainKeeps(s, G.Apply(s.g, o).0); }
    case OpRegister(c, key, recognised) =>
      if 0 < recognised {
        PlainStore(s.g, J.RegisterProvider(s.g.jobs, c, key, recognised).state, J.OpRegister(c, key, recognised));
        PlainKeeps(s, s.g.(jobs := J.RegisterProvider(s.g.jobs, c, key, recognised).state));
      }
    case OpCheck(c, id, p) => if c !in s.calls && J.RunningFor(s.g.jobs, id, p) { CheckKeeps(s, c, id, p); }
    case OpRetire(c) => if At(s, c) && s.calls[c].Checked? { RetireKeeps(s, c); }
    case OpFinish(c) => if At(s, c) && s.calls[c].HalfComplete? { FinishKeeps(s, c); }
    case OpFail(c, id, p, retryable) => if c !in s.calls { FailKeeps(s, c, id, p, retryable); }
    case OpRelease(c) => if At(s, c) && s.calls[c].HalfFailed? { ReleaseKeeps(s, c); }
  }

  lemma {:induction false} RunKeeps(s: State, ops: seq<Op>)
    requires Inv(s)
    ensures Inv(Run(s, ops))
    decreases |ops|
  {
    hide Inv, Step;
    if ops != [] {
      StepKeeps(s, ops[0]);
      RunKeeps(Step(s, ops[0]), ops[1..]);
    }
  }

  // ---------- Exactly when jobs and redemptions agree ----------

  // In every reachable state, a job agrees with its redemption exactly when no call is half way
  // through ending it and no call on it was ever refused its second step.
  lemma AgreesIff(ops: seq<Op>, id: string)
    requires id in Run(Empty, ops).g.jobs.jobs
    ensures var s := Run(Empty, ops);
            G.Agrees(s.g.ledger, s.g.jobs.jobs[id]) <==> !HalfCompleteOn(s, id) && !HalfFailedOn(s, id) && id !in s.torn
  {
    var s := Run(Empty, ops);
    RunKeeps(Empty, ops);
    hide Run, BaseOk, CallsOk;
    assert JobStands(s, id);
    hide HalfCompleteOn, HalfFailedOn, JobsStand, Stands;
    StandsAgree(s.g.ledger.redemptions[s.g.jobs.jobs[id].redemptionId].status, s.g.jobs.jobs[id].status,
                HalfCompleteOn(s, id), HalfFailedOn(s, id), id in s.torn);
  }

  lemma StandsAgree(r: L.Status, j: J.JobStatus, halfComplete: bool, halfFailed: bool, torn: bool)
    requires Stands(r, j, halfComplete, halfFailed, torn)
    ensures r == G.Expected(j) <==> !halfComplete && !halfFailed && !torn
  {
  }

  lemma Reachable(ops: seq<Op>)
    ensures Inv(Run(Empty, ops))
  {
    RunKeeps(Empty, ops);
  }

  lemma FinishAgrees(s: State, c: int)
    requires Inv(s) && At(s, c) && s.calls[c].HalfComplete?
    ensures var (id, p) := (s.calls[c].jobId, s.calls[c].providerId);
            var t := Finish(s, c, id, p);
            && id in t.g.jobs.jobs
            && (G.Agrees(t.g.ledger, t.g.jobs.jobs[id]) <==> J.RunningFor(s.g.jobs, id, p))
  {
    hide BaseOk, Stands, CallsOk, HalfCompleteOn, HalfFailedOn, OnlyOn, JobStands, ChangesOne, JobsStand, J.Complete, G.Agrees;
    var id, p := s.calls[c].jobId, s.calls[c].providerId;
    var t := Finish(s, c, id, p);
    CallAt(s, c);
    FinishMoves(s.g, id, p);
    CallRemoved(s, t, c);
    FinishStands(s, t, id);
    CompleteAccepted(s.g.jobs, id, p);
    if J.RunningFor(s.g.jobs, id, p) { NotTornRunning(s, id); FreeAgrees(t, id); } else { TornDisagrees(t, id); }
  }

  lemma CompleteAccepted(s: J.State, id: string, p: string)
    ensures J.Complete(s, id, p).result.Ok? <==> J.RunningFor(s, id, p)
  {
  }

  // A completion's last step leaves the job in agreement exactly when the job is then still
  // running for the provider that completes it.
  lemma FinishAgreesIff(ops: seq<Op>, c: int)
    requires var s := Run(Empty, ops); At(s, c) && s.calls[c].HalfComplete?
    ensures var s := Run(Empty, ops);
            var (id, p) := (s.calls[c].jobId, s.calls[c].providerId);
            var t := Step(s, OpFinish(c));
            && id in t.g.jobs.jobs
            && (G.Agrees(t.g.ledger, t.g.jobs.jobs[id]) <==> J.RunningFor(s.g.jobs, id, p))
  {
    hide Inv, Run, Finish, G.Agrees;
    Reachable(ops);
    FinishAgrees(Run(Empty, ops), c);
  }

  lemma FreeAgrees(s: State, id: string)
    requires id in s.g.jobs.jobs && JobStands(s, id) && !HalfCompleteOn(s, id) && !HalfFailedOn(s, id) && id !in s.torn
    ensures G.Agrees(s.g.ledger, s.g.jobs.jobs[id])
  {
    hide HalfCompleteOn, HalfFailedOn;
  }

  lemma TornDisagrees(s: State, id: string)
    requires id in s.g.jobs.jobs && JobStands(s, id) && id in s.torn
    ensures !G.Agrees(s.g.ledger, s.g.jobs.jobs[id])
  {
    hide HalfCompleteOn, HalfFailedOn;
  }

  lemma NotTornRunning(s: State, id: string)
    requires id in s.g.jobs.jobs && JobStands(s, id) && HalfCompleteOn(s, id) && s.g.jobs.jobs[id].status == J.Running
    ensures !HalfFailedOn(s, id) && id !in s.torn
  {
    hide HalfCompleteOn, HalfFailedOn;
  }

  // A refund's last step leaves the job in agreement exactly when its redemption is then still
  // locked.
  lemma ReleaseAgreesIff(ops: seq<Op>, c: int)
    requires var s := Run(Empty, ops); At(s, c) && s.calls[c].HalfFailed?
    ensures var s := Run(Empty, ops);
            var id := s.calls[c].jobId;
            var t := Step(s, OpRelease(c));
            && id in t.g.jobs.jobs
            && (G.Agrees(t.g.ledger, t.g.jobs.jobs[id]) <==> L.IsLocked(s.g.ledger, RedemptionOf(s.g, id)))
  {
    var s := Run(Empty, ops);
    Reachable(ops);
    StepKeeps(s, OpRelease(c));
    hide Run;
    var id := s.calls[c].jobId;
    var t := Step(s, OpRelease(c));
    hide BaseOk, CallsOk, HalfCompleteOn, HalfFailedOn;
    assert JobStands(s, id) && JobStands(t, id);
  }

  // ---------- One ending at a time ----------

  ghost predicate Busy(s: State, id: string) {
    exists c <- s.calls :: s.calls[c].jobId == id
  }

  // No call starts on a job that another call is still busy with.
  ghost predicate OneAtATime(s: State, ops: seq<Op>)
    decreases |ops|
  {
    ops != [] ==>
      && (ops[0].OpCheck? || ops[0].OpFail? ==> !Busy(s, ops[0].jobId))
      && OneAtATime(Step(s, ops[0]), ops[1..])
  }

  ghost predicate Exclusive(s: State) {
    && s.torn == {}
    && (forall c, d :: c in s.calls && d in s.calls && s.calls[c].jobId == s.calls[d].jobId ==> c == d)
    && (forall c <- s.calls :: !s.calls[c].HalfFailed? ==> J.RunningFor(s.g.jobs, s.calls[c].jobId, s.calls[c].providerId))
  }

  lemma PlainExclusive(s: State, h: G.State)
    requires Exclusive(s) && EndsNothing(s.g, h)
    ensures Exclusive(s.(g := h))
  {
  }

  // A call alone with its job finds it as it left it.
  lemma AloneLocked(s: State, c: int)
    requires Inv(s) && Exclusive(s) && At(s, c) && s.calls[c].HalfFailed?
    ensures L.IsLocked(s.g.ledger, RedemptionOf(s.g, s.calls[c].jobId))
  {
    var id := s.calls[c].jobId;
    hide BaseOk;
    assert JobStands(s, id) && HalfFailedOn(s, id) && !HalfCompleteOn(s, id);
  }

  lemma StepExclusive(s: State, op: Op)
    requires Inv(s) && Exclusive(s) && (op.OpCheck? || op.OpFail? ==> !Busy(s, op.jobId))
    ensures Exclusive(Step(s, op))
  {
    hide Inv, EndsNothing, L.Release, L.Retire;
    match op
    case OpPlain(o) => if Plain(o) { PlainEndsNothing(s, o); PlainExclusive(s, G.Apply(s.g, o).0); }
    case OpRegister(c, key, recognised) => RegisterEndsNothing(s, c, key, recognised); PlainExclusive(s, Step(s, op).g);
    case OpRelease(c) => if At(s, c) && s.calls[c].HalfFailed? { AloneLocked(s, c); ReleaseAccepted(s, c); }
    case _ =>
  }

  lemma PlainEndsNothing(s: State, o: G.Op)
    requires Inv(s) && Plain(o)
    ensures EndsNothing(s.g, G.Apply(s.g, o).0)
  {
    PlainApply(s.g, o);
  }

  lemma RegisterEndsNothing(s: State, c: J.Commitment, key: string, recognised: int)
    requires Inv(s)
    ensures EndsNothing(s.g, Step(s, OpRegister(c, key, recognised)).g)
  {
    Unmoved(s.g);
    if 0 < recognised { PlainStore(s.g, J.RegisterProvider(s.g.jobs, c, key, recognised).state, J.OpRegister(c, key, recognised)); }
  }

  lemma ReleaseAccepted(s: State, c: int)
    requires At(s, c) && s.calls[c].HalfFailed? && L.IsLocked(s.g.ledger, RedemptionOf(s.g, s.calls[c].jobId))
    ensures L.Release(s.g.ledger, RedemptionOf(s.g, s.calls[c].jobId)).result.Ok?
  {
  }

  lemma {:induction false} RunExclusive(s: State, ops: seq<Op>)
    requires Inv(s) && Exclusive(s) && OneAtATime(s, ops)
    ensures Inv(Run(s, ops)) && Exclusive(Run(s, ops))
    decreases |ops|
  {
    hide Inv, Exclusive, Step;
    if ops != [] {
      StepKeeps(s, ops[0]);
      StepExclusive(s, ops[0]);
      RunExclusive(Step(s, ops[0]), ops[1..]);
    }
  }

  // With one ending at a time on each job no second step is ever refused, and every job no
  // call is busy with agrees with its redemption.
  lemma OneAtATimeAgrees(ops: seq<Op>, id: string)
    requires OneAtATime(Empty, ops)
    ensures var s := Run(Empty, ops);
            s.torn == {} && (id in s.g.jobs.jobs && !Busy(s, id) ==> G.Agrees(s.g.ledger, s.g.jobs.jobs[id]))
  {
    RunExclusive(Empty, ops);
    var s := Run(Empty, ops);
    if id in s.g.jobs.jobs && !Busy(s, id) { AgreesIff(ops, id); }
  }

  // ---------- One ending against arbitrary calls ----------

  // Any call of the store or of the ledger, made by anyone.
  datatype Event = OnLedger(call: L.Op) | OnStore(op: J.Op)

  function Happen(l: L.State, s: J.State, events: seq<Event>): (L.State, J.State)
    decreases |events|
  {
    if events == [] then (l, s)
    else match events[0]
      case OnLedger(call) => Happen(L.Apply(l, call).0, s, events[1..])
      case OnStore(op) => Happen(l, J.Apply(s, op), events[1..])
  }

  // The store calls among them are admissible when they are made.
  ghost predicate Admissible(s: J.State, events: seq<Event>)
    decreases |events|
  {
    events != [] ==> match events[0]
      case OnLedger(_) => Admissible(s, events[1..])
      case OnStore(op) => J.Admissible(s, op) && Admissible(J.Apply(s, op), events[1..])
  }

  predicate Ended(j: J.Job) {
    j.status == J.Completed || j.status == J.Refunded
  }

  // The work of a job never changes, and an ended job not at all.
  predicate Lasts(s: J.State, t: J.State, id: string) {
    id in s.jobs ==> id in t.jobs && SameWork(s.jobs[id], t.jobs[id]) && (Ended(s.jobs[id]) ==> t.jobs[id] == s.jobs[id])
  }

  lemma StoreLasts(s: J.State, op: J.Op, id: string)
    requires J.Admissible(s, op)
    ensures Lasts(s, J.Apply(s, op), id)
  {
  }

  lemma {:induction false} HappenLasts(l: L.State, s: J.State, events: seq<Event>, id: string)
    requires LI.RedemptionsOk(l) && Admissible(s, events)
    ensures LI.RedemptionsOk(Happen(l, s, events).0) && LT.Remembers(l, Happen(l, s, events).0)
    ensures Lasts(s, Happen(l, s, events).1, id)
    decreases |events|
  {
    hide LI.RedemptionsOk, LT.Remembers, L.Apply, J.Apply, J.Admissible, Lasts;
    if events == [] {
      LT.SelfRemembers(l);
      LastsSelf(s, id);
    } else if events[0].OnLedger? {
      var m := L.Apply(l, events[0].call).0;
      LT.ApplyRemembers(l, events[0].call);
      LT.RedemptionsStay(l, events[0].call);
      HappenLasts(m, s, events[1..], id);
      LT.RemembersTrans(l, m, Happen(l, s, events).0);
    } else {
      var t := J.Apply(s, events[0].op);
      StoreLasts(s, events[0].op, id);
      HappenLasts(l, t, events[1..], id);
      LastsTrans(s, t, Happen(l, s, events).1, id);
    }
  }

  lemma LastsSelf(s: J.State, id: string)
    ensures Lasts(s, s, id)
  {
  }

  lemma LastsTrans(s: J.State, t: J.State, u: J.State, id: string)
    requires Lasts(s, t, id) && Lasts(t, u, id)
    ensures Lasts(s, u, id)
  {
  }

  // A completion checked for a running job, retired after some calls and finished after some
  // more: the job then agrees with its retired redemption exactly when at its last step it was
  // running for the provider, or already completed.
  lemma CompleteAcross(l: L.State, s: J.State, id: string, p: string, before: seq<Event>, after: seq<Event>)
    requires LI.RedemptionsOk(l) && J.RunningFor(s, id, p) && Describes(l, s.jobs[id]) && Admissible(s, before)
    requires var (l1, s1) := Happen(l, s, before);
             var r := s.jobs[id].redemptionId;
             L.IsLocked(l1, r) && Admissible(s1, after)
    ensures var (l1, s1) := Happen(l, s, before);
            var r := s.jobs[id].redemptionId;
            var retired := L.Retire(l1, r, L.ExecutionReceipt(r, true));
            var (l2, s2) := Happen(retired.state, s1, after);
            var done := J.Complete(s2, id, p);
            && retired.result.Ok? && id in s2.jobs && id in done.state.jobs
            && (done.result.Ok? <==> J.RunningFor(s2, id, p))
            && (G.Agrees(l2, done.state.jobs[id]) <==> J.RunningFor(s2, id, p) || s2.jobs[id].status == J.Completed)
  {
    var (l1, s1) := Happen(l, s, before);
    var r := s.jobs[id].redemptionId;
    HappenLasts(l, s, before, id);
    var m := L.Retire(l1, r, L.ExecutionReceipt(r, true)).state;
    LT.RedemptionsStay(l1, L.OpRetire(r, L.ExecutionReceipt(r, true)));
    RetiredIs(l1, r);
    hide Happen, L.End, LI.RedemptionsOk;
    HappenLasts(m, s1, after, id);
  }

  lemma RetiredIs(l: L.State, r: string)
    requires L.IsLocked(l, r)
    ensures var step := L.Retire(l, r, L.ExecutionReceipt(r, true));
            && step.result.Ok? && step.state == L.Apply(l, L.OpRetire(r, L.ExecutionReceipt(r, true))).0
            && r in step.state.redemptions && step.state.redemptions[r] == L.Redemption(l.redemptions[r].request, L.Retired)
  {
  }

  // A job failed for good, and its redemption released after some calls: they agree exactly
  // when the redemption was then still locked, or already refunded.
  lemma FailAcross(l: L.State, s: J.State, id: string, p: string, retryable: bool, events: seq<Event>)
    requires LI.RedemptionsOk(l) && J.RunningFor(s, id, p) && Describes(l, s.jobs[id])
    requires var failed := J.Fail(s, id, p, retryable); failed.result.Ok? && failed.result.value.status == J.Refunded && Admissible(failed.state, events)
    ensures var (l1, s1) := Happen(l, J.Fail(s, id, p, retryable).state, events);
            var r := s.jobs[id].redemptionId;
            var released := L.Release(l1, r);
            && id in s1.jobs && r in l1.redemptions && (released.result.Ok? <==> L.IsLocked(l1, r))
            && (G.Agrees(released.state, s1.jobs[id]) <==> L.IsLocked(l1, r) || l1.redemptions[r].status == L.Refunded)
  {
    var f := J.Fail(s, id, p, retryable).state;
    HappenLasts(l, f, events, id);
    hide Happen, LI.RedemptionsOk;
  }

  // ---------- Everything the atomic machine does ----------

  // The steps that do in this machine what one accepted call does in the atomic one.
  function Expand(op: G.Op): seq<Op> {
    match op
    case OpComplete(id, p) => [OpCheck(0, id, p), OpRetire(0), OpFinish(0)]
    case OpFail(id, p, retryable) => [OpFail(0, id, p, retryable), OpRelease(0)]
    case OpRegisterProvider(c, key, recognised) => [OpRegister(c, key, recognised)]
    case _ => [OpPlain(op)]
  }

  function ExpandAll(g: G.State, ops: seq<G.Op>): seq<Op>
    decreases |ops|
  {
    if ops == [] then []
    else (if G.Apply(g, ops[0]).0 == g then [] else Expand(ops[0])) + ExpandAll(G.Apply(g, ops[0]).0, ops[1..])
  }

  lemma {:induction false} RunAppend(s: State, a: seq<Op>, b: seq<Op>)
    ensures Run(s, a + b) == Run(Run(s, a), b)
    decreases |a|
  {
    hide Step;
    if a == [] {
      assert a + b == b;
    } else {
      assert (a + b)[1..] == a[1..] + b;
      RunAppend(Step(s, a[0]), a[1..], b);
    }
  }

  lemma OneStep(s: State, op: Op)
    ensures Run(s, [op]) == Step(s, op)
  {
    hide Step;
    assert [op][1..] == [] && Run(Step(s, op), []) == Step(s, op);
  }

  lemma RegisterSame(g: G.State, c: J.Commitment, key: string, recognised: int)
    ensures G.RegisterProvider(g, c, key, recognised).1 || G.RegisterProvider(g, c, key, recognised).0 == g
    ensures G.RegisterProvider(g, c, key, recognised).1 ==>
      0 < recognised && G.RegisterProvider(g, c, key, recognised).0 == g.(jobs := J.RegisterProvider(g.jobs, c, key, recognised).state)
  {
  }

  // Where the atomic machine moves, the steps in its place end where it ends, with no call left.
  lemma ExpandSteps(g: G.State, op: G.Op)
    requires G.Inv(g) && !G.EndsDirectly(op) && G.Apply(g, op).0 != g
    ensures Run(State(g, map[], {}), Expand(op)) == State(G.Apply(g, op).0, map[], {})
  {
    var s := State(g, map[], {});
    match op
    case OpComplete(id, p) => CompleteAtOnce(s, 0, id, p); hide G.Complete, Run, Step;
    case OpFail(id, p, retryable) =>
      G.EndingsAccepted(g, id, p, retryable);
      FailAtOnce(s, 0, id, p, retryable);
      hide G.Fail, Run, Step;
    case OpRegisterProvider(c, key, recognised) =>
      RegisterSame(g, c, key, recognised);
      OneStep(s, OpRegister(c, key, recognised));
      hide G.RegisterProvider, J.RegisterProvider, Run;
    case _ =>
      OneStep(s, OpPlain(op));
      hide G.Apply, Run;
  }

  lemma {:induction false} RunRealises(g: G.State, ops: seq<G.Op>)
    requires G.Inv(g) && G.OnlyJobsEnd(ops)
    ensures Run(State(g, map[], {}), ExpandAll(g, ops)) == State(G.Run(g, ops), map[], {})
    decreases |ops|
  {
    if ops != [] {
      assert ops[0] in ops;
      hide G.Apply, G.Inv, Step, Expand;
      var h := G.Apply(g, ops[0]).0;
      G.ApplyKeeps(g, ops[0]);
      RunRealises(h, ops[1..]);
      if h != g {
        ExpandSteps(g, ops[0]);
        RunAppend(State(g, map[], {}), Expand(ops[0]), ExpandAll(h, ops[1..]));
      } else {
        assert [] + ExpandAll(h, ops[1..]) == ExpandAll(h, ops[1..]);
      }
    }
  }

  // Every state the atomic machine reaches, this one reaches too, with no call left half way
  // and none refused its second step.
  lemma AtomicReached(ops: seq<G.Op>)
    requires G.OnlyJobsEnd(ops)
    ensures Run(Empty, ExpandAll(G.Empty, ops)) == State(G.Run(G.Empty, ops), map[], {})
  {
    LI.EmptyInv();
    RunRealises(G.Empty, ops);
  }
}
