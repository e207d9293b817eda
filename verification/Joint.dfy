/** The ledger and the job machine together, with atomic endings. */
module Joint {
  // A locked redemption becomes a job, and ending the job ends the redemption in the same step:
  // the atomic transactions of the PostgreSQL store. Enqueueing stays two separate steps, a read
  // of the redemption and a later insert.
  import opened Results
  import L = Ledger
  import LI = LedgerInvariants
  import LT = LedgerTheorems
  import J = Jobs

  // `prechecked` holds the redemption snapshots that some caller has read while locked.
  datatype State = State(ledger: L.State, jobs: J.State, prechecked: set<L.LockRequest>)

  const Empty := State(L.Empty, J.Empty, {})

  datatype Op =
    | OpLedger(ledgerOp: L.Op)
    | OpRegisterProvider(commitment: J.Commitment, publicKey: string, recognised: int)
    | OpSetActive(providerId: string, active: bool)
    | OpPrecheck(redemptionId: string, workloadDigest: string)
    | OpInsert(request: L.LockRequest, jobId: string, maxAttempts: int)
    | OpClaim(claimant: string, commitmentId: string, claimedId: string, now: int, leaseMs: int)
    | OpComplete(completedId: string, completer: string)
    | OpFail(failedId: string, failer: string, retryable: bool)

  function InputOf(q: L.LockRequest, jobId: string, maxAttempts: int): J.JobInput {
    J.JobInput(jobId, q.redemptionId, q.holderAgent, q.seriesId, q.amount, q.resourceClasses, q.workloadDigest, maxAttempts)
  }

  // The whole registration is one transaction, so a duplicate commitment changes nothing.
  function RegisterProvider(g: State, c: J.Commitment, publicKey: string, recognised: int): (State, bool) {
    var s := J.RegisterProvider(g.jobs, c, publicKey, recognised);
    if s.result.Err? || recognised <= 0 || c.availableUntil <= c.availableFrom then (g, false) else (g.(jobs := s.state), true)
  }

  function Precheck(g: State, id: string, digest: string): (State, bool) {
    if !L.IsLocked(g.ledger, id) || g.ledger.redemptions[id].request.workloadDigest != digest then (g, false)
    else (g.(prechecked := g.prechecked + {g.ledger.redemptions[id].request}), true)
  }

  // The insert trusts its snapshot; only the two unique ids and the row checks can refuse it.
  function Insert(g: State, q: L.LockRequest, jobId: string, maxAttempts: int): (State, bool) {
    if q !in g.prechecked || jobId in g.jobs.jobs || maxAttempts < 1 then (g, false)
    else
      var s := J.Enqueue(g.jobs, InputOf(q, jobId, maxAttempts));
      (g.(jobs := s.state), s.result.Ok?)
  }

  function Claim(g: State, p: string, c: string, id: string, now: int, leaseMs: int): (State, bool) {
    if !J.Claimable(g.jobs, p, c, id, now) then (g, false) else (g.(jobs := J.Claim(g.jobs, p, c, id, now, leaseMs)), true)
  }

  function Complete(g: State, id: string, p: string): (State, bool) {
    if !J.RunningFor(g.jobs, id, p) then (g, false)
    else
      var r := g.jobs.jobs[id].redemptionId;
      var s := L.Retire(g.ledger, r, L.ExecutionReceipt(r, true));
      if s.result.Err? then (g, false)
      else (g.(ledger := s.state, jobs := J.Complete(g.jobs, id, p).state), true)
  }

  function Fail(g: State, id: string, p: string, retryable: bool): (State, bool) {
    var f := J.Fail(g.jobs, id, p, retryable);
    if f.result.Err? then (g, false)
    else if f.result.value.status == J.Queued then (g.(jobs := f.state), true)
    else
      var s := L.Release(g.ledger, f.result.value.redemptionId);
      if s.result.Err? then (g, false) else (g.(ledger := s.state, jobs := f.state), true)
  }

  function Apply(g: State, op: Op): (State, bool) {
    match op
    case OpLedger(o) => var s := L.Apply(g.ledger, o); (g.(ledger := s.0), s.1)
    case OpRegisterProvider(c, key, recognised) => RegisterProvider(g, c, key, recognised)
    case OpSetActive(p, active) => var s := J.SetActive(g.jobs, p, active); (g.(jobs := s.state), s.result.Ok?)
    case OpPrecheck(id, digest) => Precheck(g, id, digest)
    case OpInsert(q, jobId, maxAttempts) => Insert(g, q, jobId, maxAttempts)
    case OpClaim(p, c, id, now, leaseMs) => Claim(g, p, c, id, now, leaseMs)
    case OpComplete(id, p) => Complete(g, id, p)
    case OpFail(id, p, retryable) => Fail(g, id, p, retryable)
  }

  function Run(g: State, ops: seq<Op>): State
    decreases |ops|
  {
    if ops == [] then g else Run(Apply(g, ops[0]).0, ops[1..])
  }

  lemma {:induction false} RunSnoc(g: State, ops: seq<Op>, op: Op)
    ensures Run(g, ops + [op]) == Apply(Run(g, ops), op).0
    decreases |ops|
  {
    if ops == [] {
      assert ops + [op] == [op];
      assert Run(g, [op]) == Run(Apply(g, op).0, []);
    } else {
      assert (ops + [op])[1..] == ops[1..] + [op];
      RunSnoc(Apply(g, ops[0]).0, ops[1..], op);
    }
  }

  // A lookup and an insert with nothing in between: a job is queued exactly for a redemption
  // stored as locked whose digest is the workload's, under a new job id and a limit of at least
  // one, if no job has it yet.
  lemma EnqueueAtOnce(g: State, id: string, digest: string, jobId: string, maxAttempts: int)
    requires LI.RedemptionsOk(g.ledger) && g.prechecked == {}
    ensures var (a, looked) := Precheck(g, id, digest);
      && (looked <==> id in g.ledger.redemptions && g.ledger.redemptions[id].status == L.Locked && g.ledger.redemptions[id].request.workloadDigest == digest)
      && (!looked ==> a == g)
      && (looked ==>
            var q := g.ledger.redemptions[id].request;
            var (b, queued) := Insert(a, q, jobId, maxAttempts);
            && (queued <==> jobId !in g.jobs.jobs && 1 <= maxAttempts && forall k <- g.jobs.jobs :: g.jobs.jobs[k].redemptionId != id)
            && (queued ==>
                  b.ledger == g.ledger && b.jobs == g.jobs.(jobs := g.jobs.jobs[jobId := J.Job(
                    jobId, id, q.holderAgent, q.seriesId, q.amount, q.resourceClasses, digest, J.Queued, None, None, 0, maxAttempts, None)]))
            && (!queued ==> b.jobs == g.jobs))
  {
  }

  // ---------- Agreement ----------

  function Expected(s: J.JobStatus): L.Status {
    match s
    case Completed => L.Retired
    case Refunded => L.Refunded
    case _ => L.Locked
  }

  // The job's redemption exists, has the job's holder, series and amount, and the status
  // the job's status calls for.
  predicate Agrees(l: L.State, j: J.Job) {
    && j.redemptionId in l.redemptions
    && var r := l.redemptions[j.redemptionId];
       && r.request.holderAgent == j.holderAgent
       && r.request.seriesId == j.seriesId
       && r.request.amount == j.amount
       && r.status == Expected(j.status)
  }

  ghost predicate Agreement(g: State) {
    forall id <- g.jobs.jobs :: Agrees(g.ledger, g.jobs.jobs[id])
  }

  // A snapshot taken by enqueue is still the redemption's request, and the redemption is
  // still locked unless a job for it exists.
  ghost predicate SnapshotsOk(g: State) {
    forall q <- g.prechecked ::
      && q.redemptionId in g.ledger.redemptions
      && g.ledger.redemptions[q.redemptionId].request == q
      && (g.ledger.redemptions[q.redemptionId].status == L.Locked || J.HasRedemption(g.jobs.jobs, q.redemptionId))
  }

  ghost predicate Inv(g: State) {
    LI.Inv(g.ledger) && J.Inv(g.jobs) && Agreement(g) && SnapshotsOk(g)
  }

  // What holds even when redemptions are also ended directly.
  ghost predicate BaseInv(g: State) {
    LI.Inv(g.ledger) && J.Inv(g.jobs) && forall q <- g.prechecked :: 0 < q.amount
  }

  predicate EndsDirectly(op: Op) {
    op.OpLedger? && (op.ledgerOp.OpRetire? || op.ledgerOp.OpRelease?)
  }

  // ---------- Ledger calls that end nothing ----------

  lemma LedgerRedemptions(l: L.State, op: L.Op)
    requires !op.OpRetire? && !op.OpRelease? && LI.RedemptionsOk(l)
    ensures forall id <- l.redemptions :: id in L.Apply(l, op).0.redemptions && L.Apply(l, op).0.redemptions[id] == l.redemptions[id]
  {
    if op.OpAllocate? { LT.CreditAllShape(l, op.series, op.items, ""); }
  }

  lemma LedgerKeeps(g: State, op: L.Op)
    requires Inv(g) && !op.OpRetire? && !op.OpRelease?
    ensures Inv(Apply(g, OpLedger(op)).0)
  {
    hide LI.Inv, J.Inv, J.HasRedemption, L.Apply;
    LI.ApplyKeeps(g.ledger, op);
    assert LI.RedemptionsOk(g.ledger) by { InvRedemptions(g.ledger); }
    LedgerRedemptions(g.ledger, op);
    forall id <- g.jobs.jobs ensures Agrees(L.Apply(g.ledger, op).0, g.jobs.jobs[id]) { assert Agrees(g.ledger, g.jobs.jobs[id]); }
  }

  lemma InvRedemptions(l: L.State)
    requires LI.Inv(l)
    ensures LI.RedemptionsOk(l)
  {
  }

  // ---------- Job steps that end nothing ----------

  lemma InsertKeeps(g: State, q: L.LockRequest, jobId: string, maxAttempts: int)
    requires Inv(g)
    ensures Inv(Insert(g, q, jobId, maxAttempts).0)
  {
    var h := Insert(g, q, jobId, maxAttempts).0;
    if h != g {
      InvRedemptions(g.ledger);
      J.ApplyKeeps(g.jobs, J.OpEnqueue(InputOf(q, jobId, maxAttempts)));
      hide LI.Inv, J.Inv;
      assert Agreement(h);
      forall r <- h.prechecked ensures J.HasRedemption(g.jobs.jobs, r.redemptionId) ==> J.HasRedemption(h.jobs.jobs, r.redemptionId) {
        if J.HasRedemption(g.jobs.jobs, r.redemptionId) {
          var id :| id in g.jobs.jobs && g.jobs.jobs[id].redemptionId == r.redemptionId;
          assert id in h.jobs.jobs;
        }
      }
    }
  }

  // A step that updates one job, keeping its redemption, keeps the snapshots.
  lemma SameRedemptions(jobs: map<string, J.Job>, id: string, j: J.Job, r: string)
    requires id in jobs && jobs[id].redemptionId == j.redemptionId
    ensures J.HasRedemption(jobs, r) ==> J.HasRedemption(jobs[id := j], r)
  {
    if J.HasRedemption(jobs, r) {
      var k :| k in jobs && jobs[k].redemptionId == r;
      assert k in jobs[id := j] && jobs[id := j][k].redemptionId == r;
    }
  }

  lemma SnapshotsKept(g: State, h: State, id: string)
    requires SnapshotsOk(g) && h.prechecked == g.prechecked && h.ledger == g.ledger
    requires id in g.jobs.jobs && id in h.jobs.jobs && h.jobs.jobs == g.jobs.jobs[id := h.jobs.jobs[id]]
    requires h.jobs.jobs[id].redemptionId == g.jobs.jobs[id].redemptionId
    ensures SnapshotsOk(h)
  {
    forall q <- g.prechecked { SameRedemptions(g.jobs.jobs, id, h.jobs.jobs[id], q.redemptionId); }
  }

  lemma ClaimKeeps(g: State, p: string, c: string, id: string, now: int, leaseMs: int)
    requires Inv(g)
    ensures Inv(Claim(g, p, c, id, now, leaseMs).0)
  {
    var h := Claim(g, p, c, id, now, leaseMs).0;
    if J.Claimable(g.jobs, p, c, id, now) {
      J.ClaimKeeps(g.jobs, p, c, id, now, leaseMs);
      hide LI.Inv, J.Inv, J.HasRedemption;
      assert Agrees(g.ledger, g.jobs.jobs[id]);
      SnapshotsKept(g, h, id);
    }
  }

  // ---------- Endings ----------

  // The states before and after ending one job together with its redemption.
  ghost predicate EndsJob(g: State, h: State, id: string, outcome: L.Status) {
    && outcome != L.Locked && id in g.jobs.jobs && id in h.jobs.jobs
    && var j, k := g.jobs.jobs[id], h.jobs.jobs[id];
       && L.IsLocked(g.ledger, j.redemptionId)
       && h.ledger == L.End(g.ledger, j.redemptionId, outcome)
       && h.prechecked == g.prechecked
       && h.jobs.jobs == g.jobs.jobs[id := k]
       && k.redemptionId == j.redemptionId && k.holderAgent == j.holderAgent && k.seriesId == j.seriesId && k.amount == j.amount
       && Expected(k.status) == outcome
  }

  // No other job is affected, as no other job has this redemption.
  lemma EndingAgrees(g: State, h: State, id: string, outcome: L.Status)
    requires Agreement(g) && J.UniqueRedemptions(g.jobs.jobs) && EndsJob(g, h, id, outcome)
    ensures Agreement(h)
  {
    var r := g.jobs.jobs[id].redemptionId;
    assert Agrees(g.ledger, g.jobs.jobs[id]);
    assert h.ledger.redemptions == g.ledger.redemptions[r := L.Redemption(g.ledger.redemptions[r].request, outcome)];
    hide L.End;
    forall k <- h.jobs.jobs ensures Agrees(h.ledger, h.jobs.jobs[k]) {
      if k != id { assert Agrees(g.ledger, g.jobs.jobs[k]); }
    }
  }

  // A snapshot of the ended redemption now has a job to refuse it.
  lemma EndingSnapshots(g: State, h: State, id: string, outcome: L.Status)
    requires SnapshotsOk(g) && EndsJob(g, h, id, outcome)
    ensures SnapshotsOk(h)
  {
    var r := g.jobs.jobs[id].redemptionId;
    assert h.ledger.redemptions == g.ledger.redemptions[r := L.Redemption(g.ledger.redemptions[r].request, outcome)];
    assert h.jobs.jobs[id].redemptionId == r;
    hide L.End;
    forall q <- g.prechecked { SameRedemptions(g.jobs.jobs, id, h.jobs.jobs[id], q.redemptionId); }
  }

  lemma EndingKeeps(g: State, h: State, id: string, outcome: L.Status)
    requires Inv(g) && EndsJob(g, h, id, outcome)
    ensures LI.Inv(h.ledger) && Agreement(h) && SnapshotsOk(h)
  {
    InvUnique(g.jobs);
    hide LI.Inv, J.Inv;
    LI.EndKeeps(g.ledger, g.jobs.jobs[id].redemptionId, outcome);
    EndingAgrees(g, h, id, outcome);
    EndingSnapshots(g, h, id, outcome);
  }

  lemma InvUnique(s: J.State)
    requires J.Inv(s)
    ensures J.UniqueRedemptions(s.jobs)
  {
  }

  lemma CompleteEnds(g: State, id: string, p: string)
    requires Complete(g, id, p).1
    ensures EndsJob(g, Complete(g, id, p).0, id, L.Retired)
  {
  }

  lemma CompleteKeeps(g: State, id: string, p: string)
    requires Inv(g)
    ensures Inv(Complete(g, id, p).0)
  {
    var h := Complete(g, id, p).0;
    if Complete(g, id, p).1 {
      hide LI.Inv, J.Inv, Agreement, SnapshotsOk, EndsJob, L.Retire, J.Complete;
      CompleteEnds(g, id, p);
      J.CompleteKeeps(g.jobs, id, p);
      EndingKeeps(g, h, id, L.Retired);
    }
  }

  lemma FailEnds(g: State, id: string, p: string, retryable: bool)
    requires Fail(g, id, p, retryable).1 && !J.Retries(g.jobs.jobs[id], retryable)
    ensures EndsJob(g, Fail(g, id, p, retryable).0, id, L.Refunded)
  {
  }

  lemma RequeueKeeps(g: State, id: string, p: string, retryable: bool)
    requires Agreement(g) && SnapshotsOk(g)
    requires Fail(g, id, p, retryable).1 && J.Retries(g.jobs.jobs[id], retryable)
    ensures var h := Fail(g, id, p, retryable).0; h.ledger == g.ledger && Agreement(h) && SnapshotsOk(h)
  {
    hide L.Release, J.HasRedemption;
    assert Agrees(g.ledger, g.jobs.jobs[id]);
    SnapshotsKept(g, Fail(g, id, p, retryable).0, id);
  }

  lemma FailKeeps(g: State, id: string, p: string, retryable: bool)
    requires Inv(g)
    ensures Inv(Fail(g, id, p, retryable).0)
  {
    hide LI.Inv, J.Inv, EndsJob, L.Release;
    if Fail(g, id, p, retryable).1 {
      var h := Fail(g, id, p, retryable).0;
      J.FailKeeps(g.jobs, id, p, retryable);
      if J.Retries(g.jobs.jobs[id], retryable) {
        RequeueKeeps(g, id, p, retryable);
      } else {
        hide Agreement, SnapshotsOk;
        FailEnds(g, id, p, retryable);
        EndingKeeps(g, h, id, L.Refunded);
      }
    }
  }

  // ---------- Whole runs ----------

  lemma RegisterKeeps(g: State, c: J.Commitment, key: string, recognised: int)
    requires Inv(g)
    ensures Inv(RegisterProvider(g, c, key, recognised).0)
  {
    if 0 < recognised { J.ApplyKeeps(g.jobs, J.OpRegister(c, key, recognised)); }
    hide LI.Inv, J.Inv, J.HasRedemption, Agrees;
  }

  lemma SetActiveKeeps(g: State, p: string, active: bool)
    requires Inv(g)
    ensures Inv(Apply(g, OpSetActive(p, active)).0)
  {
    J.ApplyKeeps(g.jobs, J.OpSetActive(p, active));
    hide LI.Inv, J.Inv, J.HasRedemption, Agrees;
  }

  lemma SnapshotAdded(g: State, id: string)
    requires SnapshotsOk(g) && LI.RedemptionsOk(g.ledger) && L.IsLocked(g.ledger, id)
    ensures SnapshotsOk(g.(prechecked := g.prechecked + {g.ledger.redemptions[id].request}))
  {
    hide J.HasRedemption;
  }

  lemma SameAgreement(g: State, h: State)
    requires Agreement(g) && h.ledger == g.ledger && h.jobs == g.jobs
    ensures Agreement(h)
  {
    hide Agrees;
  }

  lemma PrecheckKeeps(g: State, id: string, digest: string)
    requires Inv(g)
    ensures Inv(Precheck(g, id, digest).0)
  {
    InvRedemptions(g.ledger);
    hide LI.Inv, J.Inv, Agreement, SnapshotsOk, LI.RedemptionsOk;
    SameAgreement(g, Precheck(g, id, digest).0);
    if L.IsLocked(g.ledger, id) { SnapshotAdded(g, id); }
  }

  lemma ApplyKeeps(g: State, op: Op)
    requires Inv(g) && !EndsDirectly(op)
    ensures Inv(Apply(g, op).0)
  {
    hide Inv, RegisterProvider, Precheck, Insert, Claim, Complete, Fail, L.Apply, J.SetActive;
    match op
    case OpLedger(o) => LedgerKeeps(g, o);
    case OpRegisterProvider(c, key, recognised) => RegisterKeeps(g, c, key, recognised);
    case OpSetActive(p, active) => SetActiveKeeps(g, p, active);
    case OpPrecheck(id, digest) => PrecheckKeeps(g, id, digest);
    case OpInsert(q, jobId, maxAttempts) => InsertKeeps(g, q, jobId, maxAttempts);
    case OpClaim(p, c, id, now, leaseMs) => ClaimKeeps(g, p, c, id, now, leaseMs);
    case OpComplete(id, p) => CompleteKeeps(g, id, p);
    case OpFail(id, p, retryable) => FailKeeps(g, id, p, retryable);
  }

  lemma InsertBase(g: State, q: L.LockRequest, jobId: string, maxAttempts: int)
    requires BaseInv(g)
    ensures BaseInv(Insert(g, q, jobId, maxAttempts).0)
  {
    hide LI.Inv, J.Inv, J.HasRedemption;
    if Insert(g, q, jobId, maxAttempts).0 != g {
      J.ApplyKeeps(g.jobs, J.OpEnqueue(InputOf(q, jobId, maxAttempts)));
    }
  }

  lemma BaseKeeps(g: State, op: Op)
    requires BaseInv(g)
    ensures BaseInv(Apply(g, op).0)
  {
    hide LI.Inv, J.Inv, L.Apply;
    match op
    case OpLedger(o) => LI.ApplyKeeps(g.ledger, o);
    case OpRegisterProvider(c, key, recognised) => if 0 < recognised { J.ApplyKeeps(g.jobs, J.OpRegister(c, key, recognised)); }
    case OpSetActive(p, active) => J.ApplyKeeps(g.jobs, J.OpSetActive(p, active));
    case OpPrecheck(id, digest) => InvRedemptions(g.ledger);
    case OpInsert(q, jobId, maxAttempts) => InsertBase(g, q, jobId, maxAttempts);
    case OpClaim(p, c, id, now, leaseMs) => if J.Claimable(g.jobs, p, c, id, now) { J.ClaimKeeps(g.jobs, p, c, id, now, leaseMs); }
    case OpComplete(id, p) =>
      J.CompleteKeeps(g.jobs, id, p);
      if J.RunningFor(g.jobs, id, p) { LI.RetireKeeps(g.ledger, g.jobs.jobs[id].redemptionId, L.ExecutionReceipt(g.jobs.jobs[id].redemptionId, true)); }
    case OpFail(id, p, retryable) =>
      J.FailKeeps(g.jobs, id, p, retryable);
      if J.RunningFor(g.jobs, id, p) { LI.ReleaseKeeps(g.ledger, g.jobs.jobs[id].redemptionId); }
  }

  ghost predicate OnlyJobsEnd(ops: seq<Op>) {
    forall op <- ops :: !EndsDirectly(op)
  }

  // When redemptions end only through jobs, every job and its redemption agree in every
  // reachable state, even though enqueue reads and inserts in separate steps.
  lemma {:induction false} RunKeeps(g: State, ops: seq<Op>)
    requires Inv(g) && OnlyJobsEnd(ops)
    ensures Inv(Run(g, ops))
    decreases |ops|
  {
    if ops != [] {
      ApplyKeeps(g, ops[0]);
      RunKeeps(Apply(g, ops[0]).0, ops[1..]);
    }
  }

  lemma Reachable(ops: seq<Op>)
    requires OnlyJobsEnd(ops)
    ensures Inv(Run(Empty, ops))
  {
    LI.EmptyInv();
    RunKeeps(Empty, ops);
  }

  // Each running or completed job is on a commitment of its provider and of a class it lists.
  ghost predicate Matches(g: State) {
    forall id <- g.jobs.jobs :: J.Matched(g.jobs, id)
  }

  lemma JobStepMatches(g: State, h: State, op: J.Op)
    requires Matches(g) && (h.jobs == g.jobs || h.jobs == J.Apply(g.jobs, op))
    ensures Matches(h)
  {
    hide J.Apply;
    J.StepMatches(g.jobs, op);
  }

  lemma StepMatches(g: State, op: Op)
    requires Matches(g)
    ensures Matches(Apply(g, op).0)
  {
    hide Matches, L.Apply, L.Retire, L.Release, J.HasRedemption;
    var h := Apply(g, op).0;
    match op
    case OpLedger(_) => JobStepMatches(g, h, J.OpSetActive("", true));
    case OpRegisterProvider(c, key, recognised) => JobStepMatches(g, h, J.OpRegister(c, key, recognised));
    case OpSetActive(p, active) => JobStepMatches(g, h, J.OpSetActive(p, active));
    case OpPrecheck(_, _) => JobStepMatches(g, h, J.OpSetActive("", true));
    case OpInsert(q, jobId, maxAttempts) => JobStepMatches(g, h, J.OpEnqueue(InputOf(q, jobId, maxAttempts)));
    case OpClaim(p, c, id, now, leaseMs) => JobStepMatches(g, h, J.OpClaim(p, c, id, now, leaseMs));
    case OpComplete(id, p) => JobStepMatches(g, h, J.OpComplete(id, p));
    case OpFail(id, p, retryable) => JobStepMatches(g, h, J.OpFail(id, p, retryable));
  }

  lemma {:induction false} RunMatches(g: State, ops: seq<Op>)
    requires Matches(g)
    ensures Matches(Run(g, ops))
    decreases |ops|
  {
    hide Matches, Apply;
    if ops != [] {
      StepMatches(g, ops[0]);
      RunMatches(Apply(g, ops[0]).0, ops[1..]);
    }
  }

  // The ledger never refuses the end of a running job, so every running job can end.
  lemma EndingsAccepted(g: State, id: string, p: string, retryable: bool)
    requires Inv(g)
    ensures Complete(g, id, p).1 <==> J.RunningFor(g.jobs, id, p)
    ensures Fail(g, id, p, retryable).1 <==> J.RunningFor(g.jobs, id, p)
  {
    if J.RunningFor(g.jobs, id, p) {
      assert J.JobOk(g.jobs, id);
      assert Agrees(g.ledger, g.jobs.jobs[id]);
      hide Inv, LI.Inv, J.Inv, L.End;
    }
  }

  lemma InvLedger(g: State)
    requires Inv(g)
    ensures LI.Inv(g.ledger)
  {
  }

  // Without atomic endings the agreement can be lost: just after a job fails between the ledger
  // step and the store step of its completion, its redemption is retired although the job is
  // queued or refunded, the completion is refused unless the job is claimed again, and the
  // refund is refused too. The ledger alone still keeps its own invariant. SplitEndings says
  // exactly when split endings agree.
  lemma FailBetweenStepsDisagrees(g: State, id: string, p: string, retryable: bool)
    requires Inv(g) && J.RunningFor(g.jobs, id, p)
    ensures var r := g.jobs.jobs[id].redemptionId;
            var retired := L.Retire(g.ledger, r, L.ExecutionReceipt(r, true));
            var failed := J.Fail(g.jobs, id, p, retryable);
            && retired.result.Ok? && failed.result.Ok?
            && LI.Inv(retired.state)
            && !Agreement(g.(ledger := retired.state, jobs := failed.state))
            && J.Complete(failed.state, id, p).result.Err?
            && L.Release(retired.state, r).result.Err?
  {
    hide LI.Inv, J.Inv, Inv;
    EndingsAccepted(g, id, p, retryable);
    var r := g.jobs.jobs[id].redemptionId;
    InvLedger(g);
    LI.EndKeeps(g.ledger, r, L.Retired);
    var failed := J.Fail(g.jobs, id, p, retryable);
    assert id in failed.state.jobs && !Agrees(L.End(g.ledger, r, L.Retired), failed.state.jobs[id]);
  }
}
