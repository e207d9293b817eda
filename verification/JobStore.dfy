/**
 The in-memory job store: maps mutated in place, with the insertion order that decides
 which commitment and which job a claim finds first.
*/
module JobStore {
  import opened Results
  import J = Jobs

  // The first element that satisfies a test, as Array.prototype.find over insertion order.
  function Find(order: seq<string>, test: string -> bool): (found: Option<string>)
    ensures found.Some? ==> exists i :: 0 <= i < |order| && order[i] == found.value && test(order[i]) && forall k :: 0 <= k < i ==> !test(order[k])
    ensures found.None? ==> forall i :: 0 <= i < |order| ==> !test(order[i])
  {
    if order == [] then None
    else if test(order[0]) then Some(order[0])
    else
      var rest := Find(order[1..], test);
      assert rest.Some? ==> exists i :: 0 < i < |order| && order[i] == rest.value && test(order[i]) && forall k :: 0 <= k < i ==> !test(order[k]) by {
        if rest.Some? {
          var i :| 0 <= i < |order[1..]| && order[1..][i] == rest.value && test(order[1..][i]) && forall k :: 0 <= k < i ==> !test(order[1..][k]);
          assert order[i + 1] == rest.value && forall k :: 0 <= k < i + 1 ==> !test(order[k]) by {
            forall k | 0 <= k < i + 1 ensures !test(order[k]) { if 0 < k { assert order[1..][k - 1] == order[k]; } }
          }
        }
      }
      rest
  }

  // The commitment a claim by this provider looks at: its first open one with capacity left.
  function OpenCommitment(s: J.State, order: seq<string>, providerId: string, now: int): Option<string> {
    Find(order, c => c in s.commitments && J.Open(s.commitments[c], providerId, now) && 0 < s.commitments[c].remaining)
  }

  // The first queued job that fits the commitment found.
  function FittingJob(s: J.State, order: seq<string>, commitmentId: string): Option<string> {
    Find(order, j => commitmentId in s.commitments && j in s.jobs && J.Fits(s.jobs[j], s.commitments[commitmentId]))
  }

  // The pair of commitment and job that the in-memory policy picks.
  function Pick(s: J.State, commitmentOrder: seq<string>, jobOrder: seq<string>, providerId: string, now: int): Option<(string, string)> {
    if providerId !in s.providers || !s.providers[providerId].active then None
    else match OpenCommitment(s, commitmentOrder, providerId, now)
      case None => None
      case Some(c) => match FittingJob(s, jobOrder, c)
        case None => None
        case Some(j) => Some((c, j))
  }

  // Whatever the policy picks, the shared machine allows.
  lemma PickClaimable(s: J.State, commitmentOrder: seq<string>, jobOrder: seq<string>, providerId: string, now: int)
    ensures var p := Pick(s, commitmentOrder, jobOrder, providerId, now);
            p.Some? ==> J.Claimable(s, providerId, p.value.0, p.value.1, now) && providerId in s.providers && s.providers[providerId].active
  {
  }

  // What a claim picks: the provider's first commitment that is open now with capacity left, and
  // the first queued job of its class that it has room for.
  lemma PickIs(s: J.State, commitmentOrder: seq<string>, jobOrder: seq<string>, providerId: string, now: int) returns (a: nat, b: nat)
    requires Pick(s, commitmentOrder, jobOrder, providerId, now).Some?
    ensures providerId in s.providers && s.providers[providerId].active && a < |commitmentOrder| && b < |jobOrder|
    ensures Pick(s, commitmentOrder, jobOrder, providerId, now) == Some((commitmentOrder[a], jobOrder[b]))
    ensures commitmentOrder[a] in s.commitments && jobOrder[b] in s.jobs
    ensures var (cap, job) := (s.commitments[commitmentOrder[a]], s.jobs[jobOrder[b]]);
      && cap.commitment.providerId == providerId && cap.commitment.availableFrom <= now < cap.commitment.availableUntil && 0 < cap.remaining
      && job.status == J.Queued && cap.commitment.resourceClass in job.resourceClasses && job.amount <= cap.remaining
    ensures forall k :: 0 <= k < a && commitmentOrder[k] in s.commitments ==>
      var cap := s.commitments[commitmentOrder[k]];
      !(cap.commitment.providerId == providerId && cap.commitment.availableFrom <= now < cap.commitment.availableUntil && 0 < cap.remaining)
    ensures var cap := s.commitments[commitmentOrder[a]];
      forall k :: 0 <= k < b && jobOrder[k] in s.jobs ==>
        var job := s.jobs[jobOrder[k]];
        !(job.status == J.Queued && cap.commitment.resourceClass in job.resourceClasses && job.amount <= cap.remaining)
  {
    var c := OpenCommitment(s, commitmentOrder, providerId, now).value;
    var j := FittingJob(s, jobOrder, c).value;
    a :| 0 <= a < |commitmentOrder| && commitmentOrder[a] == c
      && forall k :: 0 <= k < a && commitmentOrder[k] in s.commitments ==> !(J.Open(s.commitments[commitmentOrder[k]], providerId, now) && 0 < s.commitments[commitmentOrder[k]].remaining);
    b :| 0 <= b < |jobOrder| && jobOrder[b] == j && forall k :: 0 <= k < b && jobOrder[k] in s.jobs ==> !J.Fits(s.jobs[jobOrder[k]], s.commitments[c]);
  }

  // When an active provider's claim finds nothing, the first of its commitments that is open now
  // with capacity left, if there is one, has no room for any queued job of its class.
  lemma PickNone(s: J.State, commitmentOrder: seq<string>, jobOrder: seq<string>, providerId: string, now: int, a: nat, j: string)
    requires Pick(s, commitmentOrder, jobOrder, providerId, now) == None && (set id <- jobOrder) == s.jobs.Keys
    requires providerId in s.providers && s.providers[providerId].active
    requires a < |commitmentOrder| && commitmentOrder[a] in s.commitments && j in s.jobs
    requires var cap := s.commitments[commitmentOrder[a]];
      cap.commitment.providerId == providerId && cap.commitment.availableFrom <= now < cap.commitment.availableUntil && 0 < cap.remaining
    requires forall k :: 0 <= k < a && commitmentOrder[k] in s.commitments ==>
      var cap := s.commitments[commitmentOrder[k]];
      !(cap.commitment.providerId == providerId && cap.commitment.availableFrom <= now < cap.commitment.availableUntil && 0 < cap.remaining)
    ensures var (cap, job) := (s.commitments[commitmentOrder[a]], s.jobs[j]);
      !(job.status == J.Queued && cap.commitment.resourceClass in job.resourceClasses && job.amount <= cap.remaining)
  {
    FirstOpenFound(s, commitmentOrder, providerId, now, a);
    assert j in set id <- jobOrder;
    hide Find;
    assert FittingJob(s, jobOrder, commitmentOrder[a]).None?;
  }

  predicate IsFirstOpen(s: J.State, order: seq<string>, providerId: string, now: int, a: int) {
    && 0 <= a < |order| && order[a] in s.commitments && J.Open(s.commitments[order[a]], providerId, now) && 0 < s.commitments[order[a]].remaining
    && forall k :: 0 <= k < a && order[k] in s.commitments ==> !(J.Open(s.commitments[order[k]], providerId, now) && 0 < s.commitments[order[k]].remaining)
  }

  lemma FirstOpenFound(s: J.State, order: seq<string>, providerId: string, now: int, a: int)
    requires IsFirstOpen(s, order, providerId, now, a)
    ensures OpenCommitment(s, order, providerId, now) == Some(order[a])
  {
    var f := OpenCommitment(s, order, providerId, now);
    hide Find;
    assert f.Some?;
    var i :| 0 <= i < |order| && order[i] == f.value && order[i] in s.commitments
      && J.Open(s.commitments[order[i]], providerId, now) && 0 < s.commitments[order[i]].remaining
      && forall k :: 0 <= k < i && order[k] in s.commitments ==> !(J.Open(s.commitments[order[k]], providerId, now) && 0 < s.commitments[order[k]].remaining);
    assert !(i < a) && !(a < i);
  }

  class InMemoryComputeJobStore {
    var providers: map<string, J.Provider>
    var commitments: map<string, J.Capacity>
    var jobs: map<string, J.Job>
    var commitmentOrder: seq<string>
    var jobOrder: seq<string>

    ghost function Model(): J.State
      reads this
    {
      J.State(providers, commitments, jobs)
    }

    // The orders list exactly the keys of their maps, each once.
    ghost predicate Valid()
      reads this
    {
      && (set c <- commitmentOrder) == commitments.Keys
      && (set j <- jobOrder) == jobs.Keys
      && (forall i, k :: 0 <= i < k < |jobOrder| ==> jobOrder[i] != jobOrder[k])
    }

    constructor ()
      ensures Valid() && Model() == J.Empty && commitmentOrder == [] && jobOrder == []
    {
      providers, commitments, jobs, commitmentOrder, jobOrder := map[], map[], map[], [], [];
    }

    method RegisterProvider(c: J.Commitment, publicKey: string, recognised: int) returns (r: Result<(), J.Error>)
      requires Valid()
      modifies this
      ensures Valid() && J.Step(Model(), r) == J.RegisterProvider(old(Model()), c, publicKey, recognised)
      ensures commitmentOrder == if r.Ok? then old(commitmentOrder) + [c.commitmentId] else old(commitmentOrder)
      ensures jobOrder == old(jobOrder) && jobs == old(jobs)
      ensures r == Err(J.KeyReplaced) <==> c.providerId in old(providers) && old(providers)[c.providerId].publicKey != publicKey
      ensures r.Ok? <==> (c.providerId in old(providers) ==> old(providers)[c.providerId].publicKey == publicKey) && c.commitmentId !in old(commitments)
      ensures r.Err? ==> (r.error == J.KeyReplaced || r.error == J.CommitmentExists) && commitments == old(commitments)
      ensures r == Err(J.KeyReplaced) ==> providers == old(providers)
      ensures r != Err(J.KeyReplaced) ==>
        providers == old(providers)[c.providerId := J.Provider(publicKey, c.providerId in old(providers) ==> old(providers)[c.providerId].active)]
      ensures r.Ok? ==> commitments == old(commitments)[c.commitmentId := J.Capacity(c, recognised, recognised)]
    {
      var known := c.providerId in providers;
      if known && providers[c.providerId].publicKey != publicKey { return Err(J.KeyReplaced); }
      providers := providers[c.providerId := J.Provider(publicKey, !known || providers[c.providerId].active)];
      if c.commitmentId in commitments { return Err(J.CommitmentExists); }
      commitments := commitments[c.commitmentId := J.Capacity(c, recognised, recognised)];
      commitmentOrder := commitmentOrder + [c.commitmentId];
      return Ok(());
    }

    method SetActive(providerId: string, active: bool) returns (r: Result<(), J.Error>)
      requires Valid()
      modifies this`providers
      ensures Valid() && J.Step(Model(), r) == J.SetActive(old(Model()), providerId, active)
      ensures providerId !in old(providers) ==> r == Err(J.ProviderNotFound) && providers == old(providers)
      ensures providerId in old(providers) ==> r.Ok? && providers == old(providers)[providerId := J.Provider(old(providers)[providerId].publicKey, active)]
    {
      if providerId !in providers { return Err(J.ProviderNotFound); }
      providers := providers[providerId := providers[providerId].(active := active)];
      return Ok(());
    }

    method Enqueue(input: J.JobInput) returns (r: Result<J.Job, J.Error>)
      requires Valid()
      modifies this
      ensures Valid() && J.Step(Model(), r) == J.Enqueue(old(Model()), input)
      ensures jobOrder == if r.Ok? && input.jobId !in old(jobs) then old(jobOrder) + [input.jobId] else old(jobOrder)
      ensures commitmentOrder == old(commitmentOrder) && providers == old(providers) && commitments == old(commitments)
      ensures r == Err(J.AlreadyQueued) <==> exists id <- old(jobs) :: old(jobs)[id].redemptionId == input.redemptionId
      ensures r.Err? ==> r.error == J.AlreadyQueued && jobs == old(jobs)
      ensures r.Ok? ==> jobs == old(jobs)[input.jobId := r.value] && r.value == J.Job(
        input.jobId, input.redemptionId, input.holderAgent, input.seriesId, input.amount, input.resourceClasses, input.workloadDigest,
        J.Queued, None, None, 0, input.maxAttempts, None)
    {
      if J.HasRedemption(jobs, input.redemptionId) { return Err(J.AlreadyQueued); }
      if input.jobId !in jobs { jobOrder := jobOrder + [input.jobId]; }
      jobs := jobs[input.jobId := J.NewJob(input)];
      return Ok(J.NewJob(input));
    }

    method Job(jobId: string) returns (r: Option<J.Job>)
      ensures r.Some? <==> jobId in Model().jobs
      ensures r.Some? ==> r.value == Model().jobs[jobId]
    {
      r := if jobId in jobs then Some(jobs[jobId]) else None;
    }

    method Claim(providerId: string, now: int, leaseMs: int) returns (r: Option<J.Job>)
      requires Valid()
      modifies this`commitments, this`jobs
      ensures Valid()
      ensures match Pick(old(Model()), commitmentOrder, jobOrder, providerId, now)
              case None => r == None && Model() == old(Model())
              case Some(p) =>
                && J.Claimable(old(Model()), providerId, p.0, p.1, now)
                && Model() == J.Claim(old(Model()), providerId, p.0, p.1, now, leaseMs)
                && r == Some(Model().jobs[p.1])
      ensures r.None? ==> Model() == old(Model())
      ensures r.Some? ==>
        && providerId in providers && providers[providerId].active
        && r.value.commitmentId.Some? && r.value.commitmentId.value in old(commitments)
        && var c := r.value.commitmentId.value;
           var cap := old(commitments)[c];
           && cap.commitment.providerId == providerId && cap.commitment.availableFrom <= now < cap.commitment.availableUntil
           && cap.commitment.resourceClass in r.value.resourceClasses && r.value.amount <= cap.remaining
           && commitments == old(commitments)[c := J.Capacity(cap.commitment, cap.recognised, cap.remaining - r.value.amount)]
      ensures r.Some? ==>
        exists id :: id in old(jobs) && old(jobs)[id].status == J.Queued && jobs == old(jobs)[id := r.value]
          && r.value == old(jobs)[id].(status := J.Running, providerId := Some(providerId), commitmentId := r.value.commitmentId,
                                       attempts := old(jobs)[id].attempts + 1, leaseExpiresAt := Some(now + leaseMs))
    {
      hide Find, J.Claim, J.Claimable, J.Fits, J.Open, OpenCommitment, FittingJob;
      if providerId !in providers || !providers[providerId].active { return None; }
      PickClaimable(Model(), commitmentOrder, jobOrder, providerId, now);
      var state := J.State(providers, commitments, jobs);
      var entry := OpenCommitment(state, commitmentOrder, providerId, now);
      if entry.None? { return None; }
      var found := FittingJob(state, jobOrder, entry.value);
      if found.None? { return None; }
      ghost var a, b := PickIs(Model(), commitmentOrder, jobOrder, providerId, now);
      var job := Assign(providerId, entry.value, found.value, now, leaseMs);
      return Some(job);
    }

    // Reserve the job's amount and hand the job out under a lease.
    method Assign(providerId: string, commitmentId: string, jobId: string, now: int, leaseMs: int) returns (job: J.Job)
      requires Valid() && J.Claimable(Model(), providerId, commitmentId, jobId, now)
      modifies this`commitments, this`jobs
      ensures Valid() && Model() == J.Claim(old(Model()), providerId, commitmentId, jobId, now, leaseMs)
      ensures jobId in jobs && job == jobs[jobId]
      ensures jobs == old(jobs)[jobId := job]
      ensures job == old(jobs)[jobId].(status := J.Running, providerId := Some(providerId), commitmentId := Some(commitmentId),
                                       attempts := old(jobs)[jobId].attempts + 1, leaseExpiresAt := Some(now + leaseMs))
      ensures var cap := old(commitments)[commitmentId];
              commitments == old(commitments)[commitmentId := J.Capacity(cap.commitment, cap.recognised, cap.remaining - job.amount)]
    {
      var c := commitments[commitmentId];
      job := jobs[jobId];
      commitments := commitments[commitmentId := c.(remaining := c.remaining - job.amount)];
      job := job.(status := J.Running, providerId := Some(providerId), commitmentId := Some(commitmentId));
      job := job.(attempts := job.attempts + 1);
      job := job.(leaseExpiresAt := Some(now + leaseMs));
      jobs := jobs[jobId := job];
    }

    method Complete(jobId: string, providerId: string) returns (r: Result<J.Job, J.Error>)
      requires Valid()
      modifies this`jobs
      ensures Valid() && J.Step(Model(), r) == J.Complete(old(Model()), jobId, providerId)
      ensures r.Ok? <==> jobId in old(jobs) && old(jobs)[jobId].status == J.Running && old(jobs)[jobId].providerId == Some(providerId)
      ensures r.Err? ==> r.error == J.NotRunning && jobs == old(jobs)
      ensures r.Ok? ==> r.value == old(jobs)[jobId].(status := J.Completed, leaseExpiresAt := None) && jobs == old(jobs)[jobId := r.value]
    {
      if jobId !in jobs || jobs[jobId].status != J.Running || jobs[jobId].providerId != Some(providerId) { return Err(J.NotRunning); }
      jobs := jobs[jobId := jobs[jobId].(status := J.Completed, leaseExpiresAt := None)];
      return Ok(jobs[jobId]);
    }

    method Fail(jobId: string, providerId: string, retryable: bool) returns (r: Result<J.Job, J.Error>)
      requires Valid()
      modifies this`jobs, this`commitments
      ensures Valid() && J.Step(Model(), r) == J.Fail(old(Model()), jobId, providerId, retryable)
      ensures r == Err(J.NotRunning) <==> !(jobId in old(jobs) && old(jobs)[jobId].status == J.Running && old(jobs)[jobId].providerId == Some(providerId))
      ensures r == Err(J.CommitmentMissing) <==>
        && jobId in old(jobs) && old(jobs)[jobId].status == J.Running && old(jobs)[jobId].providerId == Some(providerId)
        && (old(jobs)[jobId].commitmentId.None? || old(jobs)[jobId].commitmentId.value !in old(commitments))
      ensures r.Err? ==> Model() == old(Model())
      ensures r.Ok? ==>
        && jobId in old(jobs) && old(jobs)[jobId].status == J.Running && old(jobs)[jobId].providerId == Some(providerId)
        && var job := old(jobs)[jobId];
           var again := retryable && job.attempts < job.maxAttempts;
           && r.value == job.(status := if again then J.Queued else J.Refunded, providerId := None, commitmentId := None, leaseExpiresAt := None)
           && jobs == old(jobs)[jobId := r.value] && job.commitmentId.Some? && job.commitmentId.value in old(commitments)
           && var cap := old(commitments)[job.commitmentId.value];
              commitments == old(commitments)[job.commitmentId.value := J.Capacity(cap.commitment, cap.recognised, cap.remaining + job.amount)]
    {
      if jobId !in jobs || jobs[jobId].status != J.Running || jobs[jobId].providerId != Some(providerId) { return Err(J.NotRunning); }
      var job := jobs[jobId];
      if job.commitmentId == None || job.commitmentId.value !in commitments { return Err(J.CommitmentMissing); }
      var c := commitments[job.commitmentId.value];
      commitments := commitments[job.commitmentId.value := c.(remaining := c.remaining + job.amount)];
      var retry := retryable && job.attempts < job.maxAttempts;
      job := job.(status := if retry then J.Queued else J.Refunded);
      job := job.(providerId := None, commitmentId := None, leaseExpiresAt := None);
      jobs := jobs[jobId := job];
      return Ok(job);
    }

    // The ids of the running jobs whose lease has run out, in insertion order.
    method ExpiredRunning(now: int) returns (expired: seq<string>)
      requires Valid()
      ensures forall id :: id in expired <==> id in jobs && jobs[id].status == J.Running && jobs[id].leaseExpiresAt.Some? && jobs[id].leaseExpiresAt.value <= now
      ensures forall id :: id in expired <==> id in jobs && J.Expired(jobs[id], now)
      ensures forall i, k :: 0 <= i < k < |expired| ==> expired[i] != expired[k]
    {
      expired := [];
      for i := 0 to |jobOrder|
        invariant forall k, m :: 0 <= k < m < |expired| ==> expired[k] != expired[m]
        invariant forall id :: id in expired <==> id in jobOrder[..i] && id in jobs && J.Expired(jobs[id], now)
      {
        if jobOrder[i] in jobs && J.Expired(jobs[jobOrder[i]], now) { expired := expired + [jobOrder[i]]; }
      }
      assert jobOrder[..|jobOrder|] == jobOrder;
      forall id <- jobs ensures id in jobOrder { assert id in set j <- jobOrder; }
    }
  }
}
