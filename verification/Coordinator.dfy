/**
 The compute coordinator over the in-memory registry and store: guards first, then the
 two stores in the coordinator's order. Each method is proved against the joint machine for a
 call that runs without interruption. Signatures and digests arrive as their outcomes.
*/
module Coordinator {
  import opened Results
  import L = Ledger
  import J = Jobs
  import G = Joint
  import Registry
  import JobStore

  datatype Receipt = Receipt(
    jobId: string, redemptionId: string, providerId: string, holderAgent: string,
    resourceClass: string, meteredQuantity: int, resultDigest: string, verified: bool,
    verifiesUnder: set<string>)

  datatype Error = NotLocked | WrongWorkload | NotRunning | BadReceipt | Store(jobError: J.Error) | Ledger(ledgerError: L.Error)

  // The receipt is signed by the job's provider and describes this job and this result.
  predicate ReceiptOk(s: J.State, jobId: string, providerId: string, r: Receipt, resultDigest: string) {
    && jobId in s.jobs && providerId in s.providers
    && var j := s.jobs[jobId];
       && j.commitmentId.Some? && j.commitmentId.value in s.commitments
       && var c := s.commitments[j.commitmentId.value].commitment;
          && c.providerId == providerId && c.resourceClass == r.resourceClass
          && s.providers[providerId].publicKey in r.verifiesUnder
          && r.jobId == jobId && r.redemptionId == j.redemptionId && r.providerId == providerId
          && r.holderAgent == j.holderAgent && r.resourceClass in j.resourceClasses
          && r.meteredQuantity == j.amount && r.verified && r.resultDigest == resultDigest
  }

  // What failing one running job with a retry allowed does to the store's jobs.
  lemma FailedJob(g: G.State, id: string, p: string)
    requires G.Inv(g) && J.RunningFor(g.jobs, id, p)
    ensures var h := G.Fail(g, id, p, true);
            && J.Fail(g.jobs, id, p, true).result == Ok(J.Failed(g.jobs.jobs[id], true))
            && h.1 && G.Inv(h.0) && h.0.jobs.jobs == g.jobs.jobs[id := J.Failed(g.jobs.jobs[id], true)] && h.0.prechecked == g.prechecked
  {
    hide G.Inv, G.Agreement, G.SnapshotsOk, L.Release, J.AddRemaining;
    G.EndingsAccepted(g, id, p, true);
    G.FailKeeps(g, id, p, true);
  }

  lemma IsRunning(s: J.State, id: string, p: string)
    requires id in s.jobs && s.jobs[id].status == J.Running && s.jobs[id].providerId == Some(p)
    ensures J.RunningFor(s, id, p)
  {
  }

  lemma RunningHasProvider(g: G.State, id: string)
    requires G.Inv(g) && id in g.jobs.jobs && g.jobs.jobs[id].status == J.Running
    ensures g.jobs.jobs[id].providerId.Some?
  {
    assert J.JobOk(g.jobs, id);
  }

  // The first i expired jobs have failed and been collected; nothing else has changed.
  ghost predicate Reaped(snapshot: map<string, J.Job>, expired: seq<string>, i: nat, jobs: map<string, J.Job>, outcomes: seq<J.Job>) {
    && i <= |expired| && jobs.Keys == snapshot.Keys && |outcomes| == i
    && (forall k :: 0 <= k < |expired| ==> expired[k] in snapshot)
    && (forall k :: 0 <= k < i ==> outcomes[k] == J.Failed(snapshot[expired[k]], true))
    && (forall id <- snapshot :: jobs[id] == if id in expired[..i] then J.Failed(snapshot[id], true) else snapshot[id])
  }

  lemma NextUntouched(snapshot: map<string, J.Job>, expired: seq<string>, i: nat, jobs: map<string, J.Job>, outcomes: seq<J.Job>)
    requires Reaped(snapshot, expired, i, jobs, outcomes) && i < |expired| && forall k, m :: 0 <= k < m < |expired| ==> expired[k] != expired[m]
    ensures expired[i] in jobs && expired[i] in snapshot && jobs[expired[i]] == snapshot[expired[i]]
  {
  }

  lemma ReapOne(snapshot: map<string, J.Job>, expired: seq<string>, i: nat, jobs: map<string, J.Job>, outcomes: seq<J.Job>)
    requires Reaped(snapshot, expired, i, jobs, outcomes) && i < |expired| && forall k, m :: 0 <= k < m < |expired| ==> expired[k] != expired[m]
    ensures expired[i] in jobs
    ensures var failed := J.Failed(jobs[expired[i]], true);
            Reaped(snapshot, expired, i + 1, jobs[expired[i] := failed], outcomes + [failed])
  {
    hide J.Failed;
    NextUntouched(snapshot, expired, i, jobs, outcomes);
    assert expired[..i + 1] == expired[..i] + [expired[i]];
  }

  lemma ReapedNone(snapshot: map<string, J.Job>, expired: seq<string>)
    requires forall id <- expired :: id in snapshot
    ensures Reaped(snapshot, expired, 0, snapshot, [])
  {
  }

  lemma ReapedKeys(snapshot: map<string, J.Job>, expired: seq<string>, jobs: map<string, J.Job>, outcomes: seq<J.Job>)
    requires Reaped(snapshot, expired, |expired|, jobs, outcomes)
    ensures jobs.Keys == snapshot.Keys
  {
  }

  lemma ReapedAll(snapshot: map<string, J.Job>, expired: seq<string>, jobs: map<string, J.Job>, outcomes: seq<J.Job>, id: string)
    requires Reaped(snapshot, expired, |expired|, jobs, outcomes) && id in snapshot
    ensures id in jobs && jobs[id] == if id in expired then J.Failed(snapshot[id], true) else snapshot[id]
    ensures id in expired ==> J.Failed(snapshot[id], true) in outcomes
  {
    hide J.Failed;
    assert expired[..|expired|] == expired;
    if id in expired {
      var k :| 0 <= k < |expired| && expired[k] == id;
      assert outcomes[k] == J.Failed(snapshot[id], true);
    }
  }

  class ComputeCoordinator {
    const registry: Registry.SettlementRegistry
    const store: JobStore.InMemoryComputeJobStore
    const leaseMs: int
    const maxAttempts: int

    constructor (registry: Registry.SettlementRegistry, store: JobStore.InMemoryComputeJobStore, leaseMs: int, maxAttempts: int)
      ensures this.registry == registry && this.store == store && this.leaseMs == leaseMs && this.maxAttempts == maxAttempts
    {
      this.registry, this.store, this.leaseMs, this.maxAttempts := registry, store, leaseMs, maxAttempts;
    }

    ghost function Both(): G.State
      reads registry, store
    {
      G.State(registry.Model(), store.Model(), {})
    }

    method Enqueue(redemptionId: string, workloadDigest: string, freshJobId: string) returns (r: Result<J.Job, Error>)
      requires store.Valid()
      modifies store
      ensures store.Valid() && registry.Model() == old(registry.Model())
      ensures var l := registry.Model();
              if !L.IsLocked(l, redemptionId) then r == Err(NotLocked) && store.Model() == old(store.Model())
              else if l.redemptions[redemptionId].request.workloadDigest != workloadDigest then r == Err(WrongWorkload) && store.Model() == old(store.Model())
              else
                var s := J.Enqueue(old(store.Model()), G.InputOf(l.redemptions[redemptionId].request, freshJobId, maxAttempts));
                store.Model() == s.state && r == if s.result.Ok? then Ok(s.result.value) else Err(Store(s.result.error))
      ensures r.Ok? <==>
        && redemptionId in registry.redemptions && registry.redemptions[redemptionId].status == L.Locked
        && registry.redemptions[redemptionId].request.workloadDigest == workloadDigest
        && forall id <- old(store.jobs) :: old(store.jobs)[id].redemptionId != registry.redemptions[redemptionId].request.redemptionId
      ensures r.Ok? ==>
        var q := registry.redemptions[redemptionId].request;
        && r.value == J.Job(freshJobId, q.redemptionId, q.holderAgent, q.seriesId, q.amount, q.resourceClasses, q.workloadDigest,
                            J.Queued, None, None, 0, maxAttempts, None)
        && store.jobs == old(store.jobs)[freshJobId := r.value]
    {
      var redemption := registry.Redemption(redemptionId);
      if redemption.None? || redemption.value.status != L.Locked { return Err(NotLocked); }
      var request := redemption.value.request;
      if workloadDigest != request.workloadDigest { return Err(WrongWorkload); }
      var input := J.JobInput(freshJobId, request.redemptionId, request.holderAgent, request.seriesId, request.amount,
                              request.resourceClasses, request.workloadDigest, maxAttempts);
      var queued := store.Enqueue(input);
      r := if queued.Ok? then Ok(queued.value) else Err(Store(queued.error));
    }

    method Claim(providerId: string, now: int) returns (r: Option<J.Job>)
      requires store.Valid()
      modifies store
      ensures store.Valid() && registry.Model() == old(registry.Model())
      ensures match JobStore.Pick(old(store.Model()), store.commitmentOrder, store.jobOrder, providerId, now)
              case None => r == None && Both() == old(Both())
              case Some(p) => Both() == G.Claim(old(Both()), providerId, p.0, p.1, now, leaseMs).0 && r == Some(store.Model().jobs[p.1])
    {
      r := store.Claim(providerId, now, leaseMs);
    }

    // An uninterrupted completion with a good receipt is the atomic one.
    method Complete(providerId: string, jobId: string, receipt: Receipt, resultDigest: string) returns (r: Result<J.Job, Error>)
      requires store.Valid()
      modifies registry, store
      ensures store.Valid()
      ensures J.RunningFor(old(store.Model()), jobId, providerId) && ReceiptOk(old(store.Model()), jobId, providerId, receipt, resultDigest)
              ==> Both() == G.Complete(old(Both()), jobId, providerId).0 && r.Ok? == G.Complete(old(Both()), jobId, providerId).1
      ensures !(J.RunningFor(old(store.Model()), jobId, providerId) && ReceiptOk(old(store.Model()), jobId, providerId, receipt, resultDigest))
              ==> r.Err? && Both() == old(Both())
      ensures r == Err(NotRunning) <==> !(jobId in old(store.jobs) && old(store.jobs)[jobId].status == J.Running && old(store.jobs)[jobId].providerId == Some(providerId))
      ensures r.Ok? <==>
        && jobId in old(store.jobs) && old(store.jobs)[jobId].status == J.Running && old(store.jobs)[jobId].providerId == Some(providerId)
        && var job := old(store.jobs)[jobId];
           && providerId in old(store.providers) && old(store.providers)[providerId].publicKey in receipt.verifiesUnder
           && job.commitmentId.Some? && job.commitmentId.value in old(store.commitments)
           && var c := old(store.commitments)[job.commitmentId.value].commitment;
              && c.providerId == providerId && receipt.resourceClass == c.resourceClass && receipt.resourceClass in job.resourceClasses
              && receipt.jobId == jobId && receipt.redemptionId == job.redemptionId && receipt.providerId == providerId
              && receipt.holderAgent == job.holderAgent && receipt.meteredQuantity == job.amount
              && receipt.verified && receipt.resultDigest == resultDigest
              && job.redemptionId in old(registry.redemptions) && old(registry.redemptions)[job.redemptionId].status == L.Locked
      ensures r.Ok? ==>
        && r.value == old(store.jobs)[jobId].(status := J.Completed, leaseExpiresAt := None) && store.jobs == old(store.jobs)[jobId := r.value]
        && store.commitments == old(store.commitments) && r.value.redemptionId in registry.redemptions
        && registry.redemptions[r.value.redemptionId].status == L.Retired
      ensures r.Err? ==> Both() == old(Both())
    {
      var job := store.Job(jobId);
      if job.None? || job.value.status != J.Running || job.value.providerId != Some(providerId) { return Err(NotRunning); }
      if !ReceiptOk(J.State(store.providers, store.commitments, store.jobs), jobId, providerId, receipt, resultDigest) { return Err(BadReceipt); }
      var retirement := registry.Retire(job.value.redemptionId, L.ExecutionReceipt(receipt.redemptionId, receipt.verified));
      if retirement.Err? { return Err(Ledger(retirement.error)); }
      var completed := store.Complete(jobId, providerId);
      return Ok(completed.value);
    }

    // The store fails the job first; only a refund then reaches the ledger.
    method Fail(providerId: string, jobId: string, retryable: bool) returns (r: Result<J.Job, Error>)
      requires store.Valid()
      modifies registry, store
      ensures store.Valid()
      ensures var f := J.Fail(old(store.Model()), jobId, providerId, retryable);
              && store.Model() == f.state
              && if f.result.Err? then r == Err(Store(f.result.error)) && registry.Model() == old(registry.Model())
                 else if f.result.value.status == J.Queued then r == Ok(f.result.value) && registry.Model() == old(registry.Model())
                 else
                   var s := L.Release(old(registry.Model()), f.result.value.redemptionId);
                   registry.Model() == s.state && r == if s.result.Ok? then Ok(f.result.value) else Err(Ledger(s.result.error))
      ensures G.Fail(old(Both()), jobId, providerId, retryable).1 ==> r.Ok? && Both() == G.Fail(old(Both()), jobId, providerId, retryable).0
    {
      var failed := store.Fail(jobId, providerId, retryable);
      if failed.Err? { return Err(Store(failed.error)); }
      if failed.value.status == J.Refunded {
        var release := registry.ReleaseRedemption(failed.value.redemptionId);
        if release.Err? { return Err(Ledger(release.error)); }
      }
      return Ok(failed.value);
    }

    // Every running job whose lease has run out is failed once, with a retry allowed: it is
    // requeued below its attempt limit and refunded at it. No other job changes.
    method ReapExpired(now: int) returns (r: Result<seq<J.Job>, Error>)
      requires store.Valid()
      modifies registry, store
      ensures store.Valid()
      ensures G.Inv(old(Both())) ==> G.Inv(Both()) && r.Ok?
      ensures G.Inv(old(Both())) ==> store.jobs.Keys == old(store.jobs).Keys
      ensures G.Inv(old(Both())) ==> forall id <- old(store.jobs) :: J.Expired(old(store.jobs)[id], now) ==> J.Failed(old(store.jobs)[id], true) in r.value
      ensures G.Inv(old(Both())) ==>
                forall id <- old(store.jobs) :: id in store.jobs &&
                  store.jobs[id] == if J.Expired(old(store.jobs)[id], now) then J.Failed(old(store.jobs)[id], true) else old(store.jobs)[id]
    {
      hide G.Inv, G.Fail, J.Fail, L.Release, J.Failed, J.RunningFor, Reaped;
      var expired := store.ExpiredRunning(now);
      var snapshot := store.jobs;
      ghost var sound := G.Inv(Both());
      var outcomes := [];
      assert Reaped(snapshot, expired, 0, store.jobs, outcomes) by { ReapedNone(snapshot, expired); }
      for i := 0 to |expired|
        invariant store.Valid()
        invariant sound ==> G.Inv(Both()) && Reaped(snapshot, expired, i, store.jobs, outcomes)
      {
        var id := expired[i];
        assert id in expired;
        if sound {
          NextUntouched(snapshot, expired, i, store.jobs, outcomes);
          ReapOne(snapshot, expired, i, store.jobs, outcomes);
          RunningHasProvider(Both(), id);
          IsRunning(store.Model(), id, store.jobs[id].providerId.value);
          FailedJob(Both(), id, store.jobs[id].providerId.value);
        }
        if snapshot[id].providerId.None? { return Err(NotRunning); }
        var outcome := Fail(snapshot[id].providerId.value, id, true);
        if outcome.Err? { return Err(outcome.error); }
        outcomes := outcomes + [outcome.value];
      }
      if sound {
        ReapedKeys(snapshot, expired, store.jobs, outcomes);
        forall id | id in snapshot
          ensures id in store.jobs && store.jobs[id] == if id in expired then J.Failed(snapshot[id], true) else snapshot[id]
          ensures id in expired ==> J.Failed(snapshot[id], true) in outcomes
        {
          ReapedAll(snapshot, expired, store.jobs, outcomes, id);
        }
      }
      return Ok(outcomes);
    }
  }
}
