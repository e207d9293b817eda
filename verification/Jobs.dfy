/** The leased job machine as a value: providers, capacity commitments and jobs. */
module Jobs {
  // One function per store operation. Both stores take the same steps; they differ in which
  // claimable pair of job and commitment a claim picks, so the pick is an argument here.
  import opened Results
  import opened Sums

  datatype JobStatus = Queued | Running | Completed | Refunded

  datatype Job = Job(
    jobId: string, redemptionId: string, holderAgent: string, seriesId: string, amount: int,
    resourceClasses: seq<string>, workloadDigest: string, status: JobStatus,
    providerId: Option<string>, commitmentId: Option<string>,
    attempts: int, maxAttempts: int, leaseExpiresAt: Option<int>)

  datatype JobInput = JobInput(
    jobId: string, redemptionId: string, holderAgent: string, seriesId: string, amount: int,
    resourceClasses: seq<string>, workloadDigest: string, maxAttempts: int)

  datatype Commitment = Commitment(
    commitmentId: string, providerId: string, resourceClass: string, availableFrom: int, availableUntil: int)

  datatype Capacity = Capacity(commitment: Commitment, recognised: int, remaining: int)

  datatype Provider = Provider(publicKey: string, active: bool)

  datatype State = State(
    providers: map<string, Provider>, commitments: map<string, Capacity>, jobs: map<string, Job>)

  datatype Error = KeyReplaced | CommitmentExists | ProviderNotFound | AlreadyQueued | NotRunning | CommitmentMissing

  datatype Step<+T> = Step(state: State, result: Result<T, Error>)

  const Empty := State(map[], map[], map[])

  // ---------- Operations ----------

  // The provider record is written before the commitment is found to exist already.
  function RegisterProvider(s: State, c: Commitment, publicKey: string, recognised: int): Step<()> {
    var known := c.providerId in s.providers;
    if known && s.providers[c.providerId].publicKey != publicKey then Step(s, Err(KeyReplaced))
    else
      var active := !known || s.providers[c.providerId].active;
      var t := s.(providers := s.providers[c.providerId := Provider(publicKey, active)]);
      if c.commitmentId in s.commitments then Step(t, Err(CommitmentExists))
      else Step(t.(commitments := s.commitments[c.commitmentId := Capacity(c, recognised, recognised)]), Ok(()))
  }

  function SetActive(s: State, providerId: string, active: bool): Step<()> {
    if providerId !in s.providers then Step(s, Err(ProviderNotFound))
    else Step(s.(providers := s.providers[providerId := s.providers[providerId].(active := active)]), Ok(()))
  }

  function NewJob(i: JobInput): Job {
    Job(i.jobId, i.redemptionId, i.holderAgent, i.seriesId, i.amount, i.resourceClasses, i.workloadDigest,
        Queued, None, None, 0, i.maxAttempts, None)
  }

  predicate HasRedemption(jobs: map<string, Job>, redemptionId: string) {
    exists id <- jobs :: jobs[id].redemptionId == redemptionId
  }

  function Enqueue(s: State, i: JobInput): Step<Job> {
    if HasRedemption(s.jobs, i.redemptionId) then Step(s, Err(AlreadyQueued))
    else Step(s.(jobs := s.jobs[i.jobId := NewJob(i)]), Ok(NewJob(i)))
  }

  predicate Open(c: Capacity, providerId: string, now: int) {
    c.commitment.providerId == providerId && c.commitment.availableFrom <= now < c.commitment.availableUntil
  }

  predicate Fits(j: Job, c: Capacity) {
    j.status == Queued && c.commitment.resourceClass in j.resourceClasses && j.amount <= c.remaining
  }

  // A claim may give this queued job to this provider under this commitment. Whether the
  // provider is active is each store's own test: one of them makes it on an unlocked read.
  predicate Claimable(s: State, providerId: string, commitmentId: string, jobId: string, now: int) {
    && commitmentId in s.commitments && Open(s.commitments[commitmentId], providerId, now)
    && jobId in s.jobs && Fits(s.jobs[jobId], s.commitments[commitmentId])
  }

  function Claimed(j: Job, providerId: string, commitmentId: string, lease: int): Job {
    j.(status := Running, providerId := Some(providerId), commitmentId := Some(commitmentId),
       attempts := j.attempts + 1, leaseExpiresAt := Some(lease))
  }

  function AddRemaining(s: State, commitmentId: string, amount: int): State
    requires commitmentId in s.commitments
  {
    var c := s.commitments[commitmentId];
    s.(commitments := s.commitments[commitmentId := c.(remaining := c.remaining + amount)])
  }

  function Claim(s: State, providerId: string, commitmentId: string, jobId: string, now: int, leaseMs: int): State
    requires Claimable(s, providerId, commitmentId, jobId, now)
  {
    var j := s.jobs[jobId];
    AddRemaining(s, commitmentId, -j.amount).(jobs := s.jobs[jobId := Claimed(j, providerId, commitmentId, now + leaseMs)])
  }

  predicate RunningFor(s: State, jobId: string, providerId: string) {
    jobId in s.jobs && s.jobs[jobId].status == Running && s.jobs[jobId].providerId == Some(providerId)
  }

  function Complete(s: State, jobId: string, providerId: string): Step<Job> {
    if !RunningFor(s, jobId, providerId) then Step(s, Err(NotRunning))
    else
      var j := s.jobs[jobId].(status := Completed, leaseExpiresAt := None);
      Step(s.(jobs := s.jobs[jobId := j]), Ok(j))
  }

  predicate Retries(j: Job, retryable: bool) {
    retryable && j.attempts < j.maxAttempts
  }

  function Failed(j: Job, retryable: bool): Job {
    j.(status := if Retries(j, retryable) then Queued else Refunded,
       providerId := None, commitmentId := None, leaseExpiresAt := None)
  }

  function Fail(s: State, jobId: string, providerId: string, retryable: bool): Step<Job> {
    if !RunningFor(s, jobId, providerId) then Step(s, Err(NotRunning))
    else
      var j := s.jobs[jobId];
      if j.commitmentId == None || j.commitmentId.value !in s.commitments then Step(s, Err(CommitmentMissing))
      else
        var f := Failed(j, retryable);
        Step(AddRemaining(s, j.commitmentId.value, j.amount).(jobs := s.jobs[jobId := f]), Ok(f))
  }

  predicate Expired(j: Job, now: int) {
    j.status == Running && j.leaseExpiresAt.Some? && j.leaseExpiresAt.value <= now
  }

  // ---------- Runs ----------

  datatype Op =
    | OpRegister(commitment: Commitment, publicKey: string, recognised: int)
    | OpSetActive(providerId: string, active: bool)
    | OpEnqueue(input: JobInput)
    | OpClaim(claimant: string, commitmentId: string, jobId: string, now: int, leaseMs: int)
    | OpComplete(completedId: string, completer: string)
    | OpFail(failedId: string, failer: string, retryable: bool)

  function Apply(s: State, op: Op): State {
    match op
    case OpRegister(c, key, recognised) => RegisterProvider(s, c, key, recognised).state
    case OpSetActive(p, active) => SetActive(s, p, active).state
    case OpEnqueue(i) => Enqueue(s, i).state
    case OpClaim(p, c, j, now, leaseMs) => if Claimable(s, p, c, j, now) then Claim(s, p, c, j, now, leaseMs) else s
    case OpComplete(j, p) => Complete(s, j, p).state
    case OpFail(j, p, retryable) => Fail(s, j, p, retryable).state
  }

  function Run(s: State, ops: seq<Op>): State
    decreases |ops|
  {
    if ops == [] then s else Run(Apply(s, ops[0]), ops[1..])
  }

  // ---------- The invariant ----------

  // The amounts of the jobs that carry a commitment: running on it, or completed on it.
  function Carried(jobs: map<string, Job>, commitmentId: string): map<string, int> {
    map id | id in jobs && jobs[id].commitmentId == Some(commitmentId) :: jobs[id].amount
  }

  ghost predicate CapacityOk(s: State) {
    forall c <- s.commitments :: 0 <= s.commitments[c].remaining && s.commitments[c].recognised == s.commitments[c].remaining + Sum(Carried(s.jobs, c))
  }

  predicate AttemptsOk(j: Job) {
    match j.status
    case Queued => 0 <= j.attempts < j.maxAttempts
    case _ => 1 <= j.attempts <= j.maxAttempts
  }

  predicate CarriesOk(s: State, j: Job) {
    match j.status
    case Running => j.commitmentId.Some? && j.commitmentId.value in s.commitments && j.providerId == Some(s.commitments[j.commitmentId.value].commitment.providerId) && j.leaseExpiresAt.Some?
    case Completed => j.commitmentId.Some? && j.commitmentId.value in s.commitments
    case _ => j.commitmentId == None && j.providerId == None
  }

  predicate JobOk(s: State, id: string)
    requires id in s.jobs
  {
    var j := s.jobs[id];
    j.jobId == id && 0 < j.amount && AttemptsOk(j) && CarriesOk(s, j)
  }

  predicate UniqueRedemptions(jobs: map<string, Job>) {
    forall a <- jobs, b <- jobs :: jobs[a].redemptionId == jobs[b].redemptionId ==> a == b
  }

  ghost predicate Inv(s: State) {
    && CapacityOk(s)
    && (forall id <- s.jobs :: JobOk(s, id))
    && UniqueRedemptions(s.jobs)
  }

  // ---------- Capacity under job updates ----------

  lemma CarriedUpdate(jobs: map<string, Job>, id: string, j: Job, c: string)
    ensures Sum(Carried(jobs[id := j], c)) ==
            Sum(Carried(jobs, c)) - At(Carried(jobs, c), id) + When(j.commitmentId == Some(c), j.amount)
  {
    var before, after := Carried(jobs, c), Carried(jobs[id := j], c);
    if j.commitmentId == Some(c) {
      assert after == before[id := j.amount];
      SumUpdate(before, id, j.amount);
    } else if id in before {
      assert after == before - {id};
      SumRemove(before, id);
    } else {
      assert after == before;
    }
  }

  lemma ClaimCapacity(s: State, p: string, c: string, id: string, now: int, leaseMs: int)
    requires Inv(s) && Claimable(s, p, c, id, now)
    ensures CapacityOk(Claim(s, p, c, id, now, leaseMs))
  {
    var t := Claim(s, p, c, id, now, leaseMs);
    assert JobOk(s, id);
    forall k <- t.commitments ensures 0 <= t.commitments[k].remaining && t.commitments[k].recognised == t.commitments[k].remaining + Sum(Carried(t.jobs, k)) {
      CarriedUpdate(s.jobs, id, t.jobs[id], k);
    }
  }

  // A job giving its commitment back, or keeping it, by its new record.
  lemma FailCapacity(s: State, id: string, p: string, retryable: bool)
    requires Inv(s)
    ensures CapacityOk(Fail(s, id, p, retryable).state)
  {
    if RunningFor(s, id, p) {
      assert JobOk(s, id);
      var t := Fail(s, id, p, retryable).state;
      forall k <- t.commitments ensures 0 <= t.commitments[k].remaining && t.commitments[k].recognised == t.commitments[k].remaining + Sum(Carried(t.jobs, k)) {
        CarriedUpdate(s.jobs, id, t.jobs[id], k);
      }
    }
  }

  lemma CompleteCapacity(s: State, id: string, p: string)
    requires Inv(s)
    ensures CapacityOk(Complete(s, id, p).state)
  {
    if RunningFor(s, id, p) {
      var t := Complete(s, id, p).state;
      forall k <- t.commitments ensures t.commitments[k].recognised == t.commitments[k].remaining + Sum(Carried(t.jobs, k)) {
        CarriedUpdate(s.jobs, id, t.jobs[id], k);
      }
    }
  }

  lemma RegisterCapacity(s: State, c: Commitment, key: string, recognised: int)
    requires Inv(s) && 0 <= recognised
    ensures CapacityOk(RegisterProvider(s, c, key, recognised).state)
  {
    if c.commitmentId !in s.commitments {
      forall id <- s.jobs ensures s.jobs[id].commitmentId != Some(c.commitmentId) { assert JobOk(s, id); }
      assert Carried(s.jobs, c.commitmentId) == map[];
    }
  }

  // A store given a job id already in use overwrites that job. Capacity survives exactly
  // when the overwritten job, if any, carries no commitment.
  lemma EnqueueCapacity(s: State, i: JobInput)
    requires Inv(s) && !HasRedemption(s.jobs, i.redemptionId)
    ensures CapacityOk(Enqueue(s, i).state) <==> i.jobId in s.jobs ==> s.jobs[i.jobId].commitmentId == None
  {
    var t := Enqueue(s, i).state;
    forall k <- s.commitments { CarriedUpdate(s.jobs, i.jobId, NewJob(i), k); }
    if i.jobId in s.jobs && s.jobs[i.jobId].commitmentId.Some? {
      assert JobOk(s, i.jobId);
      var k := s.jobs[i.jobId].commitmentId.value;
      assert t.commitments[k].recognised != t.commitments[k].remaining + Sum(Carried(t.jobs, k));
    }
  }

  // A queued job starts below its limit exactly when the limit is at least one.
  lemma EnqueueAttempts(s: State, i: JobInput)
    requires !HasRedemption(s.jobs, i.redemptionId)
    ensures AttemptsOk(Enqueue(s, i).state.jobs[i.jobId]) <==> 1 <= i.maxAttempts
  {
  }

  // ---------- Every operation keeps the invariant ----------

  // What callers of the stores supply: fresh job ids, positive amounts and limits,
  // non-negative recognised capacity.
  ghost predicate Admissible(s: State, op: Op) {
    match op
    case OpEnqueue(i) => i.jobId !in s.jobs && 0 < i.amount && 1 <= i.maxAttempts
    case OpRegister(_, _, recognised) => 0 <= recognised
    case _ => true
  }

  ghost predicate AdmissibleRun(s: State, ops: seq<Op>)
    decreases |ops|
  {
    ops != [] ==> Admissible(s, ops[0]) && AdmissibleRun(Apply(s, ops[0]), ops[1..])
  }

  ghost predicate JobsOk(s: State) {
    (forall id <- s.jobs :: JobOk(s, id)) && UniqueRedemptions(s.jobs)
  }

  // Writing one well-formed job under its own id, with its redemption kept or new.
  lemma SetJob(s: State, t: State, id: string, j: Job)
    requires JobsOk(s) && t.jobs == s.jobs[id := j] && JobOk(t, id)
    requires forall c <- s.commitments :: c in t.commitments && t.commitments[c].commitment == s.commitments[c].commitment
    requires if id in s.jobs then j.redemptionId == s.jobs[id].redemptionId else !HasRedemption(s.jobs, j.redemptionId)
    ensures JobsOk(t)
  {
    forall k <- t.jobs ensures JobOk(t, k) {
      if k != id { assert JobOk(s, k); }
    }
  }

  lemma ApplyJobs(s: State, op: Op)
    requires Inv(s) && Admissible(s, op)
    ensures JobsOk(Apply(s, op))
  {
    hide CapacityOk, HasRedemption;
    var t := Apply(s, op);
    match op
    case OpRegister(c, key, recognised) => forall id <- t.jobs ensures JobOk(t, id) { assert JobOk(s, id); }
    case OpSetActive(p, active) => forall id <- t.jobs ensures JobOk(t, id) { assert JobOk(s, id); }
    case OpEnqueue(i) => if t != s { SetJob(s, t, i.jobId, NewJob(i)); }
    case OpClaim(p, c, id, now, leaseMs) =>
      if Claimable(s, p, c, id, now) { assert JobOk(s, id); SetJob(s, t, id, t.jobs[id]); }
    case OpComplete(id, p) =>
      if RunningFor(s, id, p) { assert JobOk(s, id); SetJob(s, t, id, t.jobs[id]); }
    case OpFail(id, p, retryable) =>
      if RunningFor(s, id, p) { assert JobOk(s, id); SetJob(s, t, id, t.jobs[id]); }
  }

  lemma ApplyKeeps(s: State, op: Op)
    requires Inv(s) && Admissible(s, op)
    ensures Inv(Apply(s, op))
  {
    ApplyJobs(s, op);
    hide Claim, Fail, Complete, RegisterProvider, JobOk, UniqueRedemptions;
    match op
    case OpRegister(c, key, recognised) => RegisterCapacity(s, c, key, recognised);
    case OpSetActive(p, active) =>
    case OpEnqueue(i) => if !HasRedemption(s.jobs, i.redemptionId) { EnqueueCapacity(s, i); }
    case OpClaim(p, c, j, now, leaseMs) => if Claimable(s, p, c, j, now) { ClaimCapacity(s, p, c, j, now, leaseMs); }
    case OpComplete(j, p) => CompleteCapacity(s, j, p);
    case OpFail(j, p, retryable) => FailCapacity(s, j, p, retryable);
  }

  lemma ClaimKeeps(s: State, p: string, c: string, id: string, now: int, leaseMs: int)
    requires Inv(s) && Claimable(s, p, c, id, now)
    ensures Inv(Claim(s, p, c, id, now, leaseMs))
  {
    hide Inv;
    ApplyKeeps(s, OpClaim(p, c, id, now, leaseMs));
  }

  lemma CompleteKeeps(s: State, id: string, p: string)
    requires Inv(s)
    ensures Inv(Complete(s, id, p).state)
  {
    hide Inv;
    ApplyKeeps(s, OpComplete(id, p));
  }

  lemma FailKeeps(s: State, id: string, p: string, retryable: bool)
    requires Inv(s)
    ensures Inv(Fail(s, id, p, retryable).state)
  {
    hide Inv;
    ApplyKeeps(s, OpFail(id, p, retryable));
  }

  // Through every order of registering, claiming, completing, failing, retrying and reaping.
  lemma {:induction false} RunKeeps(s: State, ops: seq<Op>)
    requires Inv(s) && AdmissibleRun(s, ops)
    ensures Inv(Run(s, ops))
    decreases |ops|
  {
    if ops != [] {
      ApplyKeeps(s, ops[0]);
      RunKeeps(Apply(s, ops[0]), ops[1..]);
    }
  }

  // A running or completed job is on one of its provider's commitments, of a class it lists.
  predicate Matched(s: State, id: string)
    requires id in s.jobs
  {
    var j := s.jobs[id];
    (j.status == Running || j.status == Completed) ==>
      && j.commitmentId.Some? && j.commitmentId.value in s.commitments
      && var c := s.commitments[j.commitmentId.value].commitment;
         c.resourceClass in j.resourceClasses && j.providerId == Some(c.providerId)
  }

  lemma StepMatches(s: State, op: Op)
    requires forall id <- s.jobs :: Matched(s, id)
    ensures forall id <- Apply(s, op).jobs :: Matched(Apply(s, op), id)
  {
    hide HasRedemption;
    var t := Apply(s, op);
    forall id <- t.jobs ensures Matched(t, id) { if id in s.jobs { assert Matched(s, id); } }
  }

  // In every run, with any inputs, each running or completed job has been given a commitment
  // whose class it lists, held by the provider it runs for.
  lemma {:induction false} RunMatches(s: State, ops: seq<Op>, id: string)
    requires (forall k <- s.jobs :: Matched(s, k)) && id in Run(s, ops).jobs
    ensures var t := Run(s, ops);
      t.jobs[id].status == Running || t.jobs[id].status == Completed ==>
        && t.jobs[id].commitmentId.Some? && t.jobs[id].commitmentId.value in t.commitments
        && t.commitments[t.jobs[id].commitmentId.value].commitment.resourceClass in t.jobs[id].resourceClasses
        && t.jobs[id].providerId == Some(t.commitments[t.jobs[id].commitmentId.value].commitment.providerId)
    decreases |ops|
  {
    if ops == [] {
      assert Matched(s, id);
    } else {
      StepMatches(s, ops[0]);
      hide Apply, Matched;
      RunMatches(Apply(s, ops[0]), ops[1..], id);
    }
  }

  // Remaining capacity lies between zero and the recognised capacity.
  lemma RemainingInRange(s: State, c: string)
    requires Inv(s) && c in s.commitments
    ensures 0 <= s.commitments[c].remaining <= s.commitments[c].recognised
  {
    forall id <- Carried(s.jobs, c) ensures 0 <= Carried(s.jobs, c)[id] { assert JobOk(s, id); }
    SumBounds(Carried(s.jobs, c));
  }

  // ---------- Progress ----------

  // How many more changes of status a job can see.
  function Measure(j: Job): int {
    match j.status
    case Queued => 2 * (j.maxAttempts - j.attempts)
    case Running => 2 * (j.maxAttempts - j.attempts) + 1
    case _ => 0
  }

  predicate Moves(s: State, op: Op, id: string) {
    id in s.jobs && id in Apply(s, op).jobs && Apply(s, op).jobs[id] != s.jobs[id]
  }

  lemma MeasureFalls(s: State, op: Op, id: string)
    requires Inv(s) && Admissible(s, op) && id in s.jobs
    ensures id in Apply(s, op).jobs && 0 <= Measure(s.jobs[id])
    ensures Moves(s, op, id) ==> 0 <= Measure(Apply(s, op).jobs[id]) < Measure(s.jobs[id])
  {
    assert JobOk(s, id);
    ApplyJobs(s, op);
    assert JobOk(Apply(s, op), id);
  }

  function MoveCount(s: State, ops: seq<Op>, id: string): nat
    decreases |ops|
  {
    if ops == [] then 0 else (if Moves(s, ops[0], id) then 1 else 0) + MoveCount(Apply(s, ops[0]), ops[1..], id)
  }

  // A job is claimed, requeued, completed or refunded at most Measure more times; for a
  // newly queued job that is twice its attempt limit.
  lemma {:induction false} BoundedMoves(s: State, ops: seq<Op>, id: string)
    requires Inv(s) && AdmissibleRun(s, ops) && id in s.jobs
    ensures MoveCount(s, ops, id) <= Measure(s.jobs[id])
    ensures s.jobs[id].status == Queued && s.jobs[id].attempts == 0 ==> MoveCount(s, ops, id) <= 2 * s.jobs[id].maxAttempts
    decreases |ops|
  {
    assert JobOk(s, id);
    if ops != [] {
      MeasureFalls(s, ops[0], id);
      ApplyKeeps(s, ops[0]);
      BoundedMoves(Apply(s, ops[0]), ops[1..], id);
    }
  }
}
