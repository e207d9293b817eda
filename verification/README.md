# Verified model of the settlement registry, compute jobs, epochs, canonical text and rate windows

Agents hold balances of a series of entitlements. Proofs of language use are rewarded at the
close of an epoch by allocating a budget that recognised compute capacity backs. Balances move
by signed, sequenced requests; a holder locks an amount for a compute job; the job ends with the
amount retired or refunded. This project models that system in Dafny and proves what it keeps
over every run, every interleaving and every input.

`dafny verify dfyconfig.toml` checks everything. Times are integers of milliseconds; signature
checks, digests, fresh identifiers and clock readings are arguments of the operations that use
them.

## Structure

| files | subject |
|---|---|
| `Results`, `Sums`, `Sorting`, `Json` | outcomes; sums over maps; stable sorting and permutations; JSON strings and numbers as UTF-16 units |
| `Ledger`, `LedgerInvariants`, `LedgerTheorems`, `LedgerCalls`, `Registry` | the in-memory settlement registry: what each call does, what every run keeps, what follows, which calls are accepted, and the class that updates its fields |
| `Jobs`, `JobStore`, `Joint`, `Coordinator`, `SplitEndings`, `Reaping` | the leased job scheduler, the in-memory store, ledger and jobs as one machine, the coordinator that drives both, that coordinator between its awaits, and reaping among other calls |
| `Postgres`, `PostgresRefinement`, `PostgresSerial`, `PostgresTheorems`, `PostgresProgress` | registry and job store as interleaved transactions with row locks, their refinement to the joint machine, and which calls go through |
| `Allocation`, `ProRata` | recognised capacity, epoch budget, largest-remainder shares |
| `Proofs`, `ProofStore`, `Epochs`, `EpochTheorems`, `EpochController` | issuing proofs, storing them, and closing epochs with closes interleaved and stopped anywhere |
| `ComputePool` | executions that reserve, await, then retire or restore |
| `Canonical`, `CanonicalTheorems`, `CanonicalTies` | canonical text of records, a parser for it, what the text guarantees, and which records have one text |
| `RateWindows`, `PilotSession`, `PostgresPilotSession`, `ComputeServer` | sliding and anchored rate windows over whole histories |

The main results:

- **The ledger.** Over any calls in any order, with any identifiers, whichever of them throw, the
  issued totals are the balances plus the retirements, series by series for NUL-free agent ids
  and over all series for any; every lock is the sum of the still-locked redemptions of its
  account and never above the balance (`LedgerInvariants.Reachable`), although `retire` checks no
  balance. No request is accepted twice, sender sequences have no gaps, and a redemption ends at
  most once.
- **Jobs.** Capacity is conserved through every claim, failure and completion, attempts stay
  within their limit although `claim` never looks at it, and a job changes status at most twice
  its limit of times. Jobs and redemptions agree in every reachable state when endings are
  atomic. With the in-memory coordinator's split endings a job agrees exactly when no call is
  half way through ending it and none was ever refused its second step
  (`SplitEndings.AgreesIff`); one ending at a time on each job is enough. A running or completed
  job is always on a commitment of its provider and of a class it lists. Whatever calls come
  between its steps, a reaping reaps or leaves as it found it every expired job those calls leave
  alone, and never stops at one (`Reaping.ReapReaches`).
- **Transactions.** Any interleaving of the transactions gives the tables of a serial run of
  the simple registry and job machine in commit order, with every call in it accepted
  (`PostgresSerial.CommitOrderIsSerial`): the unlocked prechecks may be stale, and do no harm.
  And back: on quiet tables a call commits exactly when the registry and job machine accept it,
  the key on record verifies its signature, its texts have no NUL, and a claiming provider is
  active (`PostgresProgress.AloneCommitsIff`).
- **Allocation.** The shares that sorting, bumping and sorting back produce are the unique fair
  ones: exact sum, within quota, monotone in weight, closest possible to the exact shares.
- **Epochs.** A proof is issued at most once in any run of closes, also when two closes read the
  same list or one stops between allocating and marking, and no close issues more than the
  nominal capacity of its commitments allows.
- **Canonical text.** It parses back to its value; its strings have the shortest form that UTF-8
  carries and JSON reads back (`Json.EscapeShortest`); its keys ascend by the collation, ties in
  the order of the entries (`CanonicalTheorems.ObjectWritten`). A record has one text, whatever
  order its fields are written in, exactly when no two keys of one object in it tie, array
  indices apart: those have a fixed place among the entries of an object.
- **Rate windows.** The sliding window never exceeds its maximum in any span. The anchored one
  lets at most 2·max − 1 into a span, max if the window is one millisecond, and reaches that; a
  session in the PostgreSQL store reaches only max when it expires within one window
  (`PostgresPilotSession.TurnsBounded`, `PostgresPilotSession.MostTurnsReached`).

## Where the code falls short of its intention

- The report selects accounts by the end of their key. With NUL-free agent ids every series is
  reported conserved exactly when no account that holds a balance belongs to a series with a NUL
  (`LedgerTheorems.ReportsValidIff`). Runs whose registrations and allocations use NUL-free
  identifiers keep that, whatever their other calls name (`LedgerTheorems.ReportsValid`); one
  accepted allocation to a series with a NUL breaks it (`LedgerTheorems.NulSeriesBreaksReport`),
  and so does crediting an agent whose id has a NUL (`LedgerTheorems.NulAgentBreaksReport`).
- `localeCompare` may call two different strings equal. The text of a record depends on the order
  its fields were written in exactly when two keys of one object in it tie, neither of them an
  array index (`CanonicalTies.OneTextFor`), and shares depend on the order of the proofs exactly when a proof
  that got the odd unit ties one that did not (`ProRata.OrderIgnoredHereIff`).
- The in-memory coordinator retires and completes, or fails and releases, in separate awaits. A
  completion ends in agreement exactly when its job is still running for its provider at the last
  step, a refund exactly when its redemption is still locked (`SplitEndings.FinishAgreesIff`,
  `SplitEndings.ReleaseAgreesIff`).
- `docs/milestone-6.md:12` and `docs/milestone-7.md:13` speak of turns per rolling minute. The
  in-memory manager keeps that promise; the PostgreSQL store anchors its window and keeps it
  exactly when the limit is one turn, the window one millisecond, or a session's life no longer
  than the window (`PostgresPilotSession.RollingIff`).
- Without an atomic close, an in-memory close that stopped after allocating blocks every later
  close that lists one of its proofs (`EpochTheorems.StoppedCloseBlocks`); the PostgreSQL listing
  leaves such proofs out and goes on (`EpochTheorems.TablesCloseProceeds`).
- The epoch table takes one row per series, and none without a language profile, although a
  close may be called without one. A close on the tables returns exactly when its recipients are
  registered, its series has no NUL, its total weight is a safe integer, it has a profile, and
  its series and epoch id are new there (`EpochTheorems.TablesCloseReturnsIff`). A second close
  of a series, and a close without a profile, allocates and marks, and then throws
  (`EpochTheorems.UnrecordedCloseThrows`).
- A close for the empty profile rewards every unconsumed proof of the in-memory store, but on
  tables only those whose profile is empty (`ProofStore.ListingsAgreeIff`).
- A reaping fails a listed job that its own provider has meanwhile failed and claimed again,
  whatever time the new lease has left (`Reaping.FreshLeaseReaped`).
- Registering a commitment id again in the compute pool starts from full capacity and forgets what
  is in use (`ComputePool.BalancedByIdIff`, `ComputePool.ReRegistrationForgets`).
- A job id given twice overwrites the in-memory job; capacity survives exactly when the
  overwritten job carries no commitment (`Jobs.EnqueueCapacity`).

## Assumptions

- A collation is any rank of strings as real numbers, so ties are possible. `Array.prototype.sort`
  is the stable sorted permutation.
- `Object.entries` lists array indices first, in ascending order, and then the other keys as they
  were inserted, as section 10.1.11.1 of ECMA-262 has it.
- Number columns hold every number, and text and JSON columns every text without a NUL.
- Where identity matters the hash has no collisions (`Proofs.CollisionFree`).
- Clocks do not run backwards where a rate window is concerned.
- Tables are a map of rows; a unique index is a row of its own; a transaction holds the lock of
  every row it selects for update, inserts or updates until it ends; an abort leaves no trace.

## Model

| member | source | states |
|---|---|---|
| Ledger.KeySplits | src/registry.js:36 | an account key gives back its agent and its series if and only if the agent id has no NUL |
| Ledger.KeyInjective | src/registry.js:36-42 | NUL-free agents never share an account: equal keys mean equal agent and series |
| LedgerInvariants.ApplyKeeps | src/registry.js:24-145 | every call, accepted or not, with any identifiers, keeps total conservation, conservation by series for NUL-free agents, locks equal to still-locked redemptions, 0 ≤ locked ≤ balance, request counts and single endings; a call that throws changes nothing but zero accounts |
| LedgerInvariants.Reachable | src/registry.js:24-145 | every state reached by any sequence of calls satisfies the whole invariant |
| LedgerInvariants.LockCovered | src/registry.js:110-128 | a locked redemption's amount is covered by its account's lock, so retiring or releasing never goes negative without any check |
| LedgerTheorems.SummaryExact | src/registry.js:101-108 | the reported circulation is the true one plus foreign balances, and the report says conserved if and only if those add to zero |
| LedgerTheorems.ReportsValidIff | src/registry.js:101-108 | with NUL-free agents every series is reported conserved if and only if no account with a balance belongs to a series with a NUL |
| LedgerTheorems.SummaryValid | src/registry.js:101-108 | under that condition the report of any series is conserved and its totals are ordered |
| LedgerTheorems.ReportsValid | src/registry.js:24-134 | in every run whose registrations and allocations use NUL-free identifiers every report is conserved, whatever other calls name |
| LedgerTheorems.NulSeriesBreaksReport | src/registry.js:46-108 | one accepted allocation with a positive item to a series with a NUL makes some report say not conserved |
| LedgerTheorems.NulAgentBreaksReport | src/registry.js:101-108 | crediting an agent whose id has a NUL, in any state, makes another series' report wrong before or after |
| LedgerTheorems.SafeTotals | src/registry.js:46-134 | a safe issued total keeps every balance, lock, circulation and retired total of the series a safe integer |
| LedgerTheorems.SequencesGapless | src/registry.js:136-145 | the sender sequences accepted for an account in any run count up from its sequence with no gap and no repeat |
| LedgerTheorems.RunRemembers | src/registry.js:46-145 | agents, accepted ids, nonces, proofs and ended redemptions are never forgotten or changed |
| LedgerTheorems.AcceptedOnce | src/registry.js:136-145 | an accepted request used a new id and nonce, and no later request carrying either is accepted, whatever happens between |
| LedgerTheorems.EndsOnce | src/registry.js:110-134 | after a redemption is retired or refunded no later retire or release is accepted, its status stays, and the journal records one ending |
| LedgerTheorems.AllocateIssues | src/registry.js:46-59 | an accepted allocation raises exactly its series' issued total by exactly its amounts and consumes exactly its new, distinct proofs |
| LedgerTheorems.AllocatePays | src/registry.js:53-57 | an accepted allocation pays every account exactly its own items and moves no lock or sequence |
| LedgerTheorems.TransferPays | src/registry.js:67-71 | an accepted transfer moves its amount and advances the sender alone; every other account stays, and a transfer to oneself moves nothing |
| LedgerTheorems.LockThenEnd | src/registry.js:88-134 | releasing undoes a lock but for the sequence, retiring takes exactly the locked amount, and no other account changes |
| LedgerCalls.AllocateAccepted | src/registry.js:46-52 | an allocation is accepted if and only if its proofs are distinct and unconsumed, its recipients registered and its amounts safe and not negative; a repeated or consumed proof is the first thing refused |
| LedgerCalls.AllocateOutcome | src/registry.js:46-59 | a refusal changes nothing and names the first bad item's fault; an accepted allocation leaves agents, requests, redemptions and retired totals alone and writes one journal entry |
| LedgerCalls.TransferAccepted | src/registry.js:61-66 | a transfer is accepted if and only if amount, sender, signature, id, nonce, expiry, sequence, recipient and spendable balance are all right; otherwise the first of them that is wrong, in that order, is the error, and no account reads differently |
| LedgerCalls.TransferOutcome | src/registry.js:67-81 | every field of the receipt, and every field of the ledger but the accounts |
| LedgerCalls.LockAccepted | src/registry.js:83-87 | the same for a lock, which has no recipient |
| LedgerCalls.LockOutcome | src/registry.js:88-94 | the whole ledger after an accepted lock |
| LedgerCalls.RetireAccepted | src/registry.js:110-113 | a retirement is accepted if and only if the redemption is stored as locked and the receipt is verified and of that redemption; which error comes back otherwise, and nothing changes |
| LedgerCalls.ReleaseAccepted | src/registry.js:124-126 | a release is accepted if and only if the redemption is stored as locked; otherwise nothing changes |
| LedgerCalls.EndingOutcome | src/registry.js:114-134 | the whole ledger after an accepted retirement and after an accepted release |
| Registry.SettlementRegistry.RegisterAgent | src/registry.js:24-29 | adds the agent, or refuses the empty id and changes nothing |
| Registry.SettlementRegistry.Balance | src/registry.js:38-44 | returns the account, creating a zero one if absent |
| Registry.SettlementRegistry.Allocate | src/registry.js:46-59 | checks every item before crediting any; the fields end as the ledger's allocation |
| Registry.SettlementRegistry.Transfer | src/registry.js:61-81 | the checks in order, then debit, credit and sequence; also when sender and recipient are one account |
| Registry.SettlementRegistry.LockRedemption | src/registry.js:83-94 | the checks in order, then lock, sequence, request and stored redemption |
| Registry.SettlementRegistry.Retire | src/registry.js:110-122 | accepted if and only if the redemption is stored as locked and the receipt is verified and of that redemption; then lock and balance fall and the retired total rises, and otherwise nothing changes |
| Registry.SettlementRegistry.ReleaseRedemption | src/registry.js:124-134 | ends a locked redemption by giving its lock back |
| Registry.SettlementRegistry.LedgerSummary | src/registry.js:101-108 | the loop over accounts gives the sums of the selected balances and locks |
| Jobs.RunKeeps | src/compute-job-store.js:23-67 | any order of register, suspend, enqueue, claim, complete and fail keeps recognised = remaining + carried for each commitment, attempts within limits, and one job per redemption |
| Jobs.RemainingInRange | src/compute-job-store.js:45-67 | 0 ≤ remaining ≤ recognised for every commitment |
| Jobs.EnqueueCapacity | src/compute-job-store.js:38-43 | reusing a job id keeps capacity conserved if and only if the overwritten job carries no commitment |
| Jobs.RunMatches | src/compute-job-store.js:45-54 | in every run, with any inputs, a running or completed job is on a commitment of its own provider whose resource class it lists |
| Jobs.MeasureFalls | src/compute-job-store.js:45-67 | each claim, requeue, completion and refund strictly lowers 2·(max − attempts), plus one while running, zero when ended |
| Jobs.BoundedMoves | src/compute-job-store.js:45-67 | a new job sees at most 2·max_attempts changes of status in any run |
| JobStore.PickIs | src/compute-job-store.js:45-51 | a claim picks the active provider's first commitment that is open now with capacity left, and the first queued job that lists its class and fits what is left |
| JobStore.PickNone | src/compute-job-store.js:45-51 | when it finds nothing, the first such commitment of an active provider, if there is one, has no room for any queued job of its class |
| JobStore.InMemoryComputeJobStore.RegisterProvider | src/compute-job-store.js:23-30 | keeps a provider's key and status; the provider is written even when the commitment id is refused |
| JobStore.InMemoryComputeJobStore.Enqueue | src/compute-job-store.js:38-43 | refuses a redemption already queued; otherwise stores a new queued job |
| JobStore.InMemoryComputeJobStore.Claim | src/compute-job-store.js:45-54 | hands out a queued job, running under a lease, on an open commitment of the active provider whose class it lists and whose remaining capacity falls by its amount; or changes nothing |
| JobStore.InMemoryComputeJobStore.Complete | src/compute-job-store.js:55-59 | completes a job running for the provider, or changes nothing |
| JobStore.InMemoryComputeJobStore.Fail | src/compute-job-store.js:60-67 | gives the capacity back and requeues or refunds by the attempt limit |
| JobStore.InMemoryComputeJobStore.ExpiredRunning | src/compute-job-store.js:68 | lists exactly the running jobs whose lease has run out, each once |
| Joint.ApplyKeeps | src/compute-coordinator.js:20-43 | each step, with enqueue's read and insert apart and endings atomic, keeps every job in agreement with its redemption on status, amount, holder and series |
| Joint.Reachable | src/compute-job-store.js:93-149 | the agreement holds in every reachable state when redemptions end only through jobs |
| Joint.EnqueueAtOnce | src/compute-coordinator.js:20-25 | a lookup and an insert with nothing in between queue a job if and only if the redemption is locked, its digest is the workload's, the job id is new, the limit at least one and no job has the redemption |
| Joint.EndingsAccepted | src/compute-job-store.js:120-149 | completing or failing a job goes through if and only if it is running for that provider: the ledger never refuses |
| Joint.BaseKeeps | src/compute-coordinator.js:20-43 | ledger and job invariants each survive every step, also with redemptions ended directly |
| Joint.FailBetweenStepsDisagrees | src/compute-coordinator.js:37-41 | right after a failure between the two steps of a completion the redemption is retired under a queued or refunded job, and the completion and the refund are refused at that moment, while the ledger keeps its invariant |
| SplitEndings.StepKeeps | src/compute-coordinator.js:20-43 | every step of interleaved split completions and failures keeps each job in one of the listed standings to its redemption |
| SplitEndings.AgreesIff | src/compute-coordinator.js:31-43 | in every reachable state a job agrees with its redemption if and only if no call is half way through ending it and no call on it was ever refused its second step |
| SplitEndings.FinishAgreesIff | src/compute-coordinator.js:37 | a completion's last step leaves agreement if and only if the job is then running for the completing provider |
| SplitEndings.ReleaseAgreesIff | src/compute-coordinator.js:40-41 | a refund's last step leaves agreement if and only if the redemption is then locked |
| SplitEndings.OneAtATimeAgrees | src/compute-coordinator.js:31-43 | with one ending at a time on each job no second step is refused and every job no call is busy with agrees |
| SplitEndings.CompleteAcross | src/compute-coordinator.js:31-38 | against any store and ledger calls before and after its retirement, a completed call's job agrees if and only if it was running for the provider at the last step, or already completed |
| SplitEndings.FailAcross | src/compute-coordinator.js:39-43 | against any store and ledger calls in between, a job failed for good agrees after the release if and only if its redemption was still locked, or already refunded |
| SplitEndings.CompleteAtOnce | src/compute-coordinator.js:31-38 | the steps of a completion with nothing in between are the atomic completion, whether or not it goes through |
| SplitEndings.FailAtOnce | src/compute-coordinator.js:39-43 | so are those of a failure, unless the ledger refuses the release: then the job is refunded all the same and torn from its redemption |
| SplitEndings.AtomicReached | src/compute-coordinator.js:20-43 | every state the atomic machine reaches, the split one reaches too, with no call left half way and none refused its second step |
| Coordinator.ComputeCoordinator.Enqueue | src/compute-coordinator.js:20-25 | queues a job for a locked redemption with the matching workload digest, or changes nothing |
| Coordinator.ComputeCoordinator.Complete | src/compute-coordinator.js:31-38 | goes through if and only if the job is running for the provider, the provider's stored key verifies the receipt, every field of the receipt is that of job, commitment and result, and the redemption is locked; then the redemption is retired and the job completed, and otherwise nothing changes |
| Coordinator.ComputeCoordinator.Fail | src/compute-coordinator.js:39-43 | fails the job, and refunds the redemption exactly when it is not requeued |
| Coordinator.ComputeCoordinator.ReapExpired | src/compute-coordinator.js:44 | from a sound state every expired job, and no other, is failed as retryable, none is refused, and the state stays sound |
| Reaping.ReapReaches | src/compute-coordinator.js:39-44 | with any calls of store and ledger between its steps, a reaping never stops at a listed job those calls leave alone: such a job is reaped if its turn comes, and otherwise is as it was listed, expired and with its redemption locked |
| Reaping.ReapAll | src/compute-coordinator.js:39-44 | if the calls in between leave every listed job alone, every one is requeued, or refunded with its redemption |
| Reaping.FreshLeaseReaped | src/compute-coordinator.js:39-44 | a listed job that its provider failed and claimed again before its turn is failed once more although its new lease runs on |
| Postgres.ExecStable | src/postgres-registry.js:79-285 | a statement runs alike on any database that agrees on the rows it locks and has every row and agent key of the first: stale reads rely only on what never goes away |
| Postgres.NextKeeps | src/postgres-registry.js:79-285 | at every step of every interleaving, replaying each open transaction on the rows committed now gives its own writes and locks |
| Postgres.Serializable | src/postgres-registry.js:79-285 | the committed rows are those of the committed transactions run alone, one after another, in commit order |
| PostgresRefinement.AllocateRefines | src/postgres-registry.js:79-105 | a committed allocation is an accepted registry allocation of the same items |
| PostgresRefinement.RetireRefines | src/postgres-registry.js:207-239 | a committed retirement is an accepted registry retirement |
| PostgresRefinement.ReleaseRefines | src/postgres-registry.js:241-258 | a committed release is an accepted registry release |
| PostgresRefinement.ClaimRefines | src/compute-job-store.js:100-114 | a committed claim is an allowed claim of the job machine: it gave a queued job to an open commitment of the claimant, of a class the job lists, whose row falls by its amount |
| PostgresRefinement.CompleteRefines | src/compute-job-store.js:120-136 | a committed completion retires the redemption and completes the job in one step |
| PostgresRefinement.FailRefines | src/compute-job-store.js:137-149 | a committed failure is the joint failure: requeue alone, or refund with release |
| PostgresRefinement.CallRefines | src/postgres-registry.js:53-285 | each committed transaction of any kind is the corresponding accepted call |
| PostgresSerial.CommitOrderIsSerial | src/postgres-registry.js:53-285 | whatever the interleaving, the tables agree with the serial run of registry and job calls in commit order, every one of them accepted |
| PostgresTheorems.Conservation | src/postgres-registry.js:193-205 | summed proof rows are the issued total, summed retirement rows the retired total, and account rows make up the difference |
| PostgresTheorems.TablesConserve | src/postgres-registry.js:193-205 | in every reachable database the proof rows of any series add up to its account balances plus its retirement rows |
| PostgresTheorems.SumsMove | src/postgres-registry.js:193-205 | what commits between two moments adds to the proof and retirement sums exactly what its accepted calls issue and retire |
| PostgresTheorems.ReportInOrder | src/postgres-registry.js:193-205 | read as issues, accounts, retirements, the report says conserved if and only if nothing was issued in the series between the first two queries and nothing retired between the last two |
| PostgresTheorems.ReportAccountsFirst | src/postgres-registry.js:193-205 | with the accounts read first it says conserved if and only if the issues and the retirements committed until their own queries are equal |
| PostgresTheorems.JobRowsAgree | src/compute-job-store.js:120-149 | job rows and redemption rows agree in every reachable database when redemptions end only through jobs |
| PostgresTheorems.JobRowsBounded | src/compute-job-store.js:100-149 | attempts and capacities in the tables stay within bounds and account for the jobs that carry them |
| PostgresTheorems.JobRowsMatched | src/compute-job-store.js:100-136 | in every reachable database a running or completed job row names a commitment row of its own provider, of a class the job lists |
| PostgresTheorems.SettleNeverRefused | src/postgres-registry.js:214-219 | the check constraint on accounts never refuses the end of a locked redemption |
| PostgresProgress.GoesIffAccepted | src/postgres-registry.js:53-285 | in every reachable database a call's statements all succeed, nobody else running, if and only if the registry and job machine accept it after the calls committed so far, its texts have no NUL and the key on record verifies its signature |
| PostgresProgress.AloneCommitsIff | src/postgres-registry.js:53-285 | on quiet tables a call's transaction commits if and only if, in addition, a claim's provider is active |
| PostgresProgress.LookupIff | src/compute-coordinator.js:20-24 | the lookup before an insert succeeds if and only if the row is locked and has the workload's digest, and changes no row |
| PostgresProgress.KeyStays | src/postgres-registry.js:53-61 | in every reachable database an agent is on record if and only if a registration of it has committed, and always with the key of the first |
| Allocation.RecognisedCapacity | src/allocation.js:9-17 | succeeds exactly on terms in range, with the three floors as its value |
| Allocation.RecognisedBounds | src/allocation.js:9-17 | recognised capacity is at most the exact product and less than three units below it |
| Allocation.RecognisedMonotone | src/allocation.js:9-17 | recognised capacity rises with each term |
| Allocation.TotalBounds | src/allocation.js:19-22 | summed recognised capacity is at most the summed nominal amounts and at most the summed exact products |
| Allocation.EpochBudget | src/allocation.js:19-23 | budget·units ≤ total recognised < (budget + 1)·units, succeeding exactly on valid input |
| ProRata.AllocateProRata | src/allocation.js:25-40 | answers in input order with fair shares exactly for a safe non-negative budget and valid weights, a bad budget being refused first |
| ProRata.DistributedFair | src/allocation.js:31-39 | sorting by remainder, bumping a prefix and sorting back by index ends in the fair shares, rows in input order |
| ProRata.LeftOverInRange | src/allocation.js:35-37 | the units left over are fewer than the rows, so the bump loop stays in bounds |
| ProRata.WithinQuota | src/allocation.js:31-37 | every share is the floor or the ceiling of the exact one: a zero remainder is never bumped |
| ProRata.LargerWeightNotLess | src/allocation.js:31-39 | a strictly larger weight never gets less |
| ProRata.SharesWithinBudget | src/allocation.js:31-39 | every share lies between zero and the budget, so it is a safe integer |
| ProRata.Optimal | src/allocation.js:31-39 | no other whole-number allocation of the budget has a smaller sum of distances from the exact shares |
| ProRata.FairSharesUnique | src/allocation.js:31-39 | at most one allocation is fair, ties included |
| ProRata.OrderIndependent | src/allocation.js:36-39 | for ids the collation tells apart, permuting the proofs only permutes the shares |
| ProRata.OrderIgnoredHereIff | src/allocation.js:36-39 | for given proofs and budget, order is irrelevant if and only if no proof that got one more ties one that did not |
| ProRata.OrderIgnoredIff | src/allocation.js:36-39 | order never matters for distinct ids if and only if the collation ties no two ids |
| ProRata.TieGoesToEarlier | src/allocation.js:36 | of two tied proofs the earlier gets the odd unit |
| ProRata.OddUnits | src/allocation.js:36-37 | odd units go to larger remainders first, then to ids that collate lower, then to earlier proofs |
| Proofs.IssuedIff | src/proof-controller.js:19-41 | a proof is issued exactly for a trusted origin not known to be below the minimum level of H0 to H3, and trusted, qualifying, unexpired attestations of the same interaction, recipient and digest, of which one names a known reward |
| Proofs.IssueError | src/proof-controller.js:19-36 | which refusal comes first, and among the attestations which one is at fault |
| Proofs.IssuedWeight | src/proof-controller.js:4-50 | the proof's weight is 1 to 4 for the four rewards in their order, the highest attested, and some validator attested its reward; it names the origin's interaction and recipient and the first attestation's profile |
| Proofs.IdentityMeans | src/proof-controller.js:41-46 | the identity record carries interaction, recipient, profile and reward state under the names they are signed with |
| Proofs.SameIdIff | src/proof-controller.js:41-46 | two proofs share an id if and only if they agree on interaction, recipient, profile and reward state |
| Proofs.Utf16Injective | src/canonical.js:4-6 | different strings have different UTF-16 text |
| ProofStore.AddKeeps | src/proof-store.js:5-11 | adding keeps ids and subjects unique and changes no stored proof |
| ProofStore.ConsumeKeeps | src/proof-store.js:18-24 | marking changes only the epoch of unmarked proofs, once, in both stores; a successful in-memory marking equals the update on tables |
| ProofStore.UnconsumedIs | src/proof-store.js:13-17 | the listing holds exactly the unconsumed proofs whose profile is the given one, or all of them for none or an empty one, each once in insertion order |
| ProofStore.ListingsAgreeIff | src/proof-store.js:59-68 | the two stores list the same proofs if and only if none of them has been issued and, for the empty profile, no unconsumed proof has another one |
| ProofStore.InMemoryProofStore.Add | src/proof-store.js:5-11 | refuses a known id, then a known interaction of the agent under the profile |
| ProofStore.InMemoryProofStore.Unconsumed | src/proof-store.js:13-17 | lists exactly the unconsumed proofs of that very profile, or all of them for none or an empty one |
| ProofStore.InMemoryProofStore.Consume | src/proof-store.js:18-24 | checks every id before marking any |
| Epochs.StepKeeps | src/epoch-controller.js:13-22 | every step of interleaved additions, ledger calls and split closes keeps epochs disjoint, the replay set exact, marks behind allocations, and issuance the sum of totals |
| Epochs.Reachable | src/epoch-controller.js:13-22 | the invariant holds in every run, wherever closes stop |
| Epochs.PlanItems | src/epoch-controller.js:18-20 | a plan's items carry exactly its proofs and add up to its budget |
| EpochTheorems.IssuedOnce | src/epoch-controller.js:13-22 | over any run a proof id occurs at most once in all accepted allocations |
| EpochTheorems.IssuedByEpochs | src/epoch-controller.js:16-20 | a series has issued exactly its allocations' totals, each close's total being its budget, which recognised capacity backs |
| EpochTheorems.WithinNominal | src/epoch-controller.js:16-20 | for every committed close of any run, issued·units is at most its commitments' summed nominal capacity and at most their exact products |
| EpochTheorems.OneWeightPerSubject | src/epoch-controller.js:14-18 | over all closes of a run each interaction, agent and profile counts once, with the highest attested weight |
| EpochTheorems.CommittedGrows | src/epoch-controller.js:20 | what was committed stays committed |
| EpochTheorems.LedgerAcceptsIff | src/epoch-controller.js:18-20 | the ledger accepts a plan if and only if all recipients are registered and no proof was allocated; otherwise it does not change |
| EpochTheorems.StoppedCloseBlocks | src/proof-store.js:13-17 | after a close stopped between allocating and marking, every in-memory close listing one of its proofs is refused |
| EpochTheorems.TablesCloseProceeds | src/proof-store.js:59-68 | the tables refuse the allocation of a close that listed from them only for a series with a NUL or an unregistered recipient |
| EpochTheorems.TablesCloseReturnsIff | src/epoch-controller.js:20-31 | the rest of a close on the tables returns if and only if its series has no NUL, its recipients are registered, its total weight is safe, it has a language profile, and its series and epoch id are not recorded yet |
| EpochTheorems.SmallSignable | src/epoch-controller.js:22-29 | a close of at most a quarter of 2^53 − 1 proofs always has a total weight its report can be signed with |
| EpochTheorems.UnrecordedCloseThrows | src/proof-store.js:84-90 | a close that is refused only at its record (no language profile, a recorded series, a used epoch id, an unsafe weight) allocates and marks all its proofs, then throws and records nothing |
| EpochTheorems.TablesCloseRecords | src/proof-store.js:84-90 | a close that returns has allocated, marked and written its epoch id under its series, and no other record |
| EpochTheorems.RecordedOnce | src/proof-store.js:84-90 | in every run a recorded series has an allocation by a close and keeps its one record |
| EpochTheorems.CloseAtOnce | src/epoch-controller.js:13-31 | the steps of a close with nothing in between allocate, mark exactly the listed proofs and leave nothing pending, or change nothing but what the ledger's refusal leaves |
| EpochTheorems.OtherSteps | src/proof-controller.js:19-60 | attesting stores the proof that is issued with its attestations, unless its id is known or its interaction already has one |
| EpochController.EpochController.PlanClose | src/epoch-controller.js:14-18 | succeeds exactly with proofs to reward and commitments that back a positive safe budget; the plan shares it fairly over exactly the unconsumed proofs of the profile |
| EpochController.EpochController.Reward | src/epoch-controller.js:20-21 | allocates and marks a plan, or changes nothing: the issued total rises by its budget and exactly its proofs are consumed and marked |
| EpochController.EpochController.Close | src/epoch-controller.js:13-33 | allocates and marks exactly when it can plan and the ledger accepts: exactly the unconsumed proofs of the profile are paid and marked and the whole budget is issued, and otherwise nothing changes; returns exactly when the total weight can then be signed |
| ComputePool.StepKeeps | src/compute-pool.js:77-125 | every step of interleaved registrations, executions and ledger calls keeps each entry's books and one winner per redemption |
| ComputePool.CapacityAccounted | src/compute-pool.js:97-125 | at every await point of any run recognised = remaining + in flight + retired for each entry, none negative |
| ComputePool.RetiredOnce | src/compute-pool.js:97-125 | of all calls on one redemption at most one retires it, charged exactly what the ledger retired |
| ComputePool.BalancedByIdIff | src/compute-pool.js:77-91 | a commitment id's books balance if and only if no call holds an earlier registration of it |
| ComputePool.ReRegistrationForgets | src/compute-pool.js:77-91 | registering an id again while a call holds its entry always unbalances them |
| ComputePool.RegisteredOnceBalanced | src/compute-pool.js:77-91 | with one registration of an id nothing is held under an earlier one |
| ComputePool.FirstFitIs | src/compute-pool.js:102-108 | the search finds the first fitting entry in registration order, or there is none |
| ComputePool.BeginIs | src/compute-pool.js:99-109 | a call goes on with the first entry of a class the redemption lists that is available now with enough left, for a locked redemption and the right workload, and fails otherwise |
| ComputePool.ExecuteAtOnce | src/compute-pool.js:97-125 | without interruption, a locked redemption answered with a receipt of all its particulars is retired, and the first fitting entry is down by its amount |
| ComputePool.OtherSteps | src/compute-pool.js:77-91 | a valid registration adds a fresh entry and makes it the one its id names |
| ComputePool.ComputePool.RegisterProvider | src/compute-pool.js:77-91 | registers exactly valid, available commitments with recognised capacity, and says which check refused |
| ComputePool.ComputePool.Start | src/compute-pool.js:97-98 | reads the redemption as the ledger has it now |
| ComputePool.ComputePool.Reserve | src/compute-pool.js:99-109 | the checks on the redemption as read, then the reservation on the first fitting entry |
| ComputePool.ComputePool.Answer | src/compute-pool.js:110-119 | goes on to retire if and only if the entry's key verifies the receipt and every field of it is that of redemption, entry and result; anything else gives the capacity back |
| ComputePool.ComputePool.Finish | src/compute-pool.js:119-124 | returns after a retirement, and gives the capacity back after a refusal |
| Json.StringReads | src/canonical.js:4-6 | every string, lone surrogates included, reads back from its escaped form whatever follows |
| Json.NumberReads | src/canonical.js:7-10 | every integer reads back from its decimal form |
| Json.EscapeShortest | src/canonical.js:4-6 | the text of a string is the shortest that UTF-8 can carry and JSON reads back as that string; any other as short differs only in upper-case hexadecimal letters |
| Json.PrintedWords | src/canonical.js:4-17 | the words, brackets, separators and digits as JavaScript prints them |
| Json.PrintedEscapes | src/canonical.js:4-6 | the escapes as JavaScript prints them |
| Canonical.TextExists | src/canonical.js:3-19 | canonicalize throws exactly on unsafe numbers, undefined outside an object field, and unsupported values |
| Canonical.TextReads | src/canonical.js:3-19 | the text of any value reads as its meaning inside any surrounding text |
| Canonical.RoundTrip | src/canonical.js:3-19 | the canonical text parses back to the value, objects as maps without undefined fields |
| CanonicalTheorems.SameTextSameMeaning | src/canonical.js:3-19 | different data never share a text |
| CanonicalTheorems.ObjectWritten | src/canonical.js:12-17 | an object is written as its defined fields, each once, keys ascending by the collation and tied keys in the order of the entries |
| CanonicalTheorems.SameMeaningSameText | src/canonical.js:12-16 | if no two defined keys of one object in a value tie, array indices apart, insertion order and undefined fields leave no trace in its text at any depth |
| CanonicalTies.TieGivesOther | src/canonical.js:12-16 | a tie of two keys that are no array indices, anywhere inside a value, lets the same data be written with another text |
| CanonicalTies.OneTextFor | src/canonical.js:12-16 | the same data always have this value's text if and only if no two defined keys of one object in it tie, array indices apart |
| CanonicalTies.OneTextIff | src/canonical.js:12-16 | equal data always have equal texts if and only if the collation ties no two keys, array indices apart |
| CanonicalTheorems.TextPaired | src/crypto.js:32-34 | the text has no lone surrogate, so its UTF-8 bytes lose nothing |
| CanonicalTheorems.SignatureName | src/canonical.js:21-24 | the field that signing leaves out is the one called signature |
| CanonicalTheorems.SignedRecordUnsigned | src/crypto.js:32-48 | verifying looks at the very record that was signed, also when it was signed before |
| CanonicalTheorems.SignatureCovers | src/canonical.js:21-24 | records with the same signed text agree on every field but the signature; and records that agree have the same signed text when the unsigned record has no ties, array indices apart |
| RateWindows.SlidingAccept | src/pilot-session.js:41-45 | accepting while fewer than max are recent keeps every half-open span within max |
| RateWindows.TakeKeeps | src/postgres-pilot-session.js:41-49 | every request keeps at most max accepted per anchored window and 2·max − 1 in any span of its length |
| RateWindows.RefusedIff | src/postgres-pilot-session.js:41-45 | a turn is refused if and only if its window is still open and has accepted max turns |
| RateWindows.AnchoredBoundReached | src/compute-server.js:29-32 | of a bare anchored window, with nothing expiring: for every limit no requests get more than 2·max − 1 into one span, max for a window of one tick, and some get that many |
| RateWindows.RollingIff | src/compute-server.js:29-32 | a bare anchored window keeps every rolling window within max if and only if max is one or the window is one tick |
| PilotSession.SlidingBound | src/pilot-session.js:35-48 | no session gets more than max turns in any half-open span of one window, over its whole history |
| PilotSession.AcceptedIff | src/pilot-session.js:35-48 | pruning loses nothing: a turn is accepted exactly when the session is live and its whole history has fewer than max turns in the window ending now |
| PilotSession.PurgesInvisible | src/pilot-session.js:58-69 | leaving out every purge of a run changes no later acceptance and no status |
| PilotSession.WithdrawnStaysOut | src/pilot-session.js:50-56 | a withdrawn session is never authorised again, whatever else happens, until its token is issued anew |
| PilotSession.IssuedUntil | src/pilot-session.js:20-33 | a session is authorised only before the time it was issued plus its life, and keeps its id and notice |
| PilotSession.PurgedGone | src/pilot-session.js:58-69 | after a purge exactly the sessions that had not expired by the cutoff are left, as they were |
| PilotSession.PilotSessionManager.AuthoriseTurn | src/pilot-session.js:35-48 | the checks in order, pruning also when the turn is then refused |
| PilotSession.PilotSessionManager.Purge | src/pilot-session.js:58-69 | deletes exactly the sessions expired at the cutoff and counts them; a future cutoff is refused |
| PilotSession.PilotSessionManager.IssueSession | src/pilot-session.js:20-33 | a consented session with an empty list of turns, or a refusal |
| PilotSession.PilotSessionManager.WithdrawConsent | src/pilot-session.js:50-56 | removes a known session |
| PostgresPilotSession.RowTakes | src/postgres-pilot-session.js:41-49 | the rate columns of a live row move exactly as an anchored window |
| PostgresPilotSession.AnchoredBound | src/postgres-pilot-session.js:32-56 | over a session's whole history at most max turns per window and 2·max − 1 in any half-open span |
| PostgresPilotSession.TurnsBounded | src/postgres-pilot-session.js:15-56 | no session of any run gets more turns in a half-open span than max, if sessions expire within one window or the window is one tick, and than 2·max − 1 otherwise |
| PostgresPilotSession.MostTurnsReached | src/postgres-pilot-session.js:15-56 | for every policy some run gives one session exactly that many turns in one span |
| PostgresPilotSession.RollingIff | src/postgres-pilot-session.js:15-56 | every session of every run stays within max in every rolling window if and only if max is one, the window is one tick, or sessions expire within one window |
| PostgresPilotSession.PurgesInvisible | src/postgres-pilot-session.js:69-77 | with fresh tokens, leaving out every purge of a run changes no authorisation and no status |
| PostgresPilotSession.WithdrawnStaysOut | src/postgres-pilot-session.js:58-67 | a withdrawn session is never authorised again, purged or not, until its token is issued anew |
| PostgresPilotSession.IssuedUntil | src/postgres-pilot-session.js:15-30 | a session is authorised only before the time it was issued plus its life, and keeps its id and notice |
| PostgresPilotSession.PurgedGone | src/postgres-pilot-session.js:69-77 | after a purge exactly the rows neither expired nor withdrawn by the cutoff are left, as they were |
| PostgresPilotSession.PostgresPilotSessionStore.IssueSession | src/postgres-pilot-session.js:15-30 | a consented session with no window yet, or a refusal |
| PostgresPilotSession.PostgresPilotSessionStore.WithdrawConsent | src/postgres-pilot-session.js:58-67 | ends an active session and keeps its row |
| PostgresPilotSession.PostgresPilotSessionStore.Purge | src/postgres-pilot-session.js:69-77 | deletes exactly the rows expired or withdrawn by the cutoff and counts them |
| PostgresPilotSession.PostgresPilotSessionStore.AuthoriseTurn | src/postgres-pilot-session.js:32-56 | the checks in order, then the columns |
| ComputeServer.BucketTakes | src/compute-server.js:29-32 | a bucket that goes on counting refused requests accepts exactly what an anchored window accepts |
| ComputeServer.AnchoredBound | src/compute-server.js:29-32 | for each key at most max allowed per window and 2·max − 1 in any half-open span |
| ComputeServer.BoundReached | src/compute-server.js:29-32 | for every limit some requests of one key get the most an anchored window allows into one span |
| ComputeServer.FixedWindowLimiter.Take | src/compute-server.js:29-32 | counts and answers, and whoever waits as long as the answer says, and no shorter by a second, finds the window over |

## Left out

- Manifests, assurance levels, provider tokens, alerts, suspension reasons, operations reports, appeals, sandbox grants, servers other than the limiter, and every remote client: no state the proofs depend on.
- Ed25519, SHA-256, key import: outcomes of the checks are arguments; the hash is a function.
- Registry id, protocol version, ISO dates, failure details, workloads and results: constants or payloads that no branch reads.
- The audit and transfer-record tables: written and never read by the modelled code; their unique keys repeat the request id. Of the epoch table only its two unique keys and its required profile are modelled.
- SQL text, drivers, deadlocks and connection errors: any of them is an abort, which may happen at any point.
- Foreign keys between tables, and reads of a provider's `active` column without a lock: a claim may commit just after a suspension; `Jobs.Claimable` therefore does not test it.
- PostgreSQL's `SKIP LOCKED ORDER BY` choice among claimable jobs: a claim names any allowed pair; the in-memory policy is modelled exactly.
- The order of accounts in a report, and account records as objects shared between maps: accounts are values in a map.
- Allocation.EpochBudget: exact above 2^53, where the number returned is rounded; such a budget is refused by the allocation either way.
- Jobs.RunKeeps: for fresh job ids, positive amounts and limits of at least one, as the coordinator supplies them; `Jobs.EnqueueCapacity` and `Jobs.EnqueueAttempts` say exactly what other inputs break.
- Jobs.MeasureFalls: for the same inputs as `Jobs.RunKeeps`.
- Jobs.BoundedMoves: for the same inputs as `Jobs.RunKeeps`.
- Coordinator.ComputeCoordinator.ReapExpired: the loop without interruption; `Reaping` says what any calls between its steps leave reaped and unreaped.
- Amounts, sequences and weights that are not integers, and the number −0: integers only; other numbers are `Unsupported` in canonical text.
- Array holes, `toJSON`, dates, prototypes and getters in canonical values: plain data only.
- An empty agent id, which the PostgreSQL registry takes and the in-memory one refuses: refused in both.
- Trimming of notice versions, client ids' uniqueness and token randomness: a token names its digest, and issuing a session starts a new history.
- Validity of `LocalComputeProvider` workloads and of the Welsh validator: heuristics and library calls.
