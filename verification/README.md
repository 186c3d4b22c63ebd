# Verified model of a WebGuard instance

A WebGuard instance checks web sites, ports, DNS records, certificates and domain registrations for a Core service. It works either from lists it polls (the older way) or from jobs it claims on a lease. This project models how one instance runs those checks and proves, for every input and every interleaving:

- **Leases** (`LeaseTiming`, `LeaseProtocol`, `LeaseCases`, `LeaseScripts`). Many workers, Core and one clock step independently. No job ever has two uncancelled job contexts if and only if Core waits long enough after an expiry before it reissues: longer than twice the lateness of a worker's timers, or exactly that long when steps due at one instant go before a reissue. With punctual workers this is the written contract. A completion of a checked job is only started while Core still records an unexpired lease for the very same attempt, whatever the timing. A check is completed rather than released exactly if it had its slot, its run was not canceled when it stopped, and its lease was neither lost nor over.
- **One claimed job** (`ClaimedJobs`, `Handlings`, `Idempotency`). Whatever the environment does, a claim is settled exactly once, by one attempt to complete or to release it; only a job with a blank ID is not. Its completion and its callbacks are all sent under its own key, its completion and its release name its ID and attempt, and it is stated exactly which claims are completed, which are released, and which take a slot. The whole handling, each transition, outcome, event, request and post of it and their order, is given in terms of the job and the answers it gets (`Handlings.HandlingIs`).
- **Runs** (`WorkerPool`, `LeaseRun`, `LegacyRun`, `Visits`, `LeaseRecords`, `Limits`, `Telemetry`). Producers, unbuffered channels, workers and the shared limiter are one step system used for both ways of working. Gauges, slots and transition counters are exact in every reachable state from the first job taken in, every job dispatched is handled exactly once, and every run ends. Whatever arrives of it at a Core that takes one key for one result, lost, repeated or out of order, there is at most one record for each claim that reports, and a claim with a key of its own has its record exactly if something of its result arrived.
- **The process** (`ExecutionController`, `InstanceProcess`). Threads with program counters and explicit locks: runs exclude each other, no channel is closed twice, and in every reachable state it is stated exactly when no run will ever be active again, so a drain is final. Put on top of the pools: in the life of a process no job is ever being checked twice at once, and a drained process does no work again.
- **The interval gates** (`ResponseCadence`), **the HTTP retry loop** (`HttpCheck`), **domain lookup** (`DomainLookup`) and **DNS checks** (`DnsRecords`, `DnsChecks`). Which values of each record type are accepted and when two of them say the same is stated without the normaliser, and the verdict of a check in those terms.

Code that changes things step by step is modelled by methods and classes with the same branches, proved against a function; the theorems are lemmas about that function. Goroutines are modelled as step systems: a state, the steps enabled in it, and `After`, the state a sequence of steps leads to. A statement about `After(start, steps)` for all `steps` is a statement about every interleaving.

What the environment decides (clocks, answers of Core, resolvers and servers, cancellations, random bytes) is an input. Where a handling is scripted ahead, as in `ClaimedJobs.World`, the input holds all those answers, and the theorems range over all of them.

## Assumptions of the lease protocol model

- There is one clock, shared by the workers and Core.
- A worker's step that has fallen due is taken at most `lateness` later; the written contract itself is the case `lateness == 0`, `grace == 0`, `workersFirst`.
- What Core keeps of what is sent is in `ClaimedJobs.Records`: the first result that arrives under a key.
- Core obeys its written contract: a new attempt for each reissue, no reissue of an unexpired lease, and extensions that never shorten one. A completion or release of an attempt that no longer holds the lease changes nothing.

## Where the code and its documents differ

The model follows the code.

- `JOB_LEASE_PROTOCOL.md:26` gives website and keyword monitors a 15-minute default interval, which is Core's; for an interval that is missing or under a minute the instance uses five minutes (`response_cadence.go:11`, `ResponseCadence.ResponseCheckInterval`).
- `JOB_LEASE_PROTOCOL.md:38-39` uses the shared limiter for every claimed job; a job under maintenance takes no slot (`job_leases.go:116`). `ClaimedJobs.SlotTakenIff` says exactly which claims take one, and `MaintenanceTakesNoSlot` has one that does not.
- `internal/domain/monitor/types.go:264` promises exactly one result field; maintenance of a certificate check has none, and a domain check whose lookup gave a result has two. `ClaimedJobs.OneResultFieldIff` says exactly when there is one; the theorems about handlings hold for any combination.
- `JOB_LEASE_PROTOCOL.md:41-42` releases what is canceled before execution. Once a check runs, its run's cancellation is looked at once, when the check has stopped and before the renewal is (`job_leases.go:143`); `LeaseCases.CanceledRunCanComplete` has a run canceled just after that look and completed all the same, and `LeaseCases.CompletedIff` says exactly what decides. `World.parentCanceled` is what the look sees, and `ClaimedJobs.CompletedIffReports` says exactly which claims are completed.
- `isUUIDv4` accepts more than UUIDs: extra dashes in even number pass. `Idempotency.WellFormedIff` says exactly when an accepted string is well formed.
- MX and SOA values do not always normalise to a fixed point: a host field that ends in two dots keeps one of them, and loses it the second time. `DnsRecords.MXRoundTrip` and `SOARoundTrip` state exactly when they do, `TwoDotsAreNotStable` and `TwoDotsAreNotStableInSOA` have values for which they do not.
- `WaitForIdle` says only that its channel was closed. When the current channel is closed and nobody is inside the state lock, no run will ever be active again if and only if the drain flag is up (`ExecutionController.IdleIsFinalIffDraining`; `QuietForGoodIffStopped` has the condition for every reachable state). So the answer to a wait called behind a finished `BeginDrain` is final (`DrainIsFinal`), one to an earlier wait is if by then the flag is up and the current channel closed, and one without a drain is not: `WaitWithoutDrainIsNotFinal` has the execution.

## Model

| member | source | states |
|---|---|---|
| `LeaseTiming.RenewalLoop` | internal/adapters/runner/job_leases.go:198-244 | the renewal loop with its local variables ends as the recursion `Renew` over the rounds says: same loss, last look at the clock, last deadline and number of requests |
| `LeaseTiming.RoundSurvivesIff` | internal/adapters/runner/job_leases.go:208-236 | a round of the loop keeps the lease exactly if half of what is left is positive, the request takes neither longer than that nor longer than five seconds, and Core answers a deadline behind its end; then that deadline is held |
| `LeaseTiming.LeaseSurvivesIff` | internal/adapters/runner/job_leases.go:198-236 | the loop keeps the lease over any list of rounds exactly if it survives each of them, and then it has asked once a round and holds the last deadline answered |
| `LeaseTiming.LossIsNoticedInTime` | internal/adapters/runner/job_leases.go:199-236 | waiting half of what is left and asking for at most the other half, the loop's last look at the clock is never later than the deadline held plus two latenesses |
| `LeaseTiming.LatenessBoundIsTight` | internal/adapters/runner/job_leases.go:208-225 | that bound is reached |
| `LeaseTiming.CeilLog2IsLeast` | internal/adapters/runner/job_leases.go:208 | the logarithm used in the bounds is the least k with n <= 2^k |
| `LeaseTiming.FixedDeadlineTerminates` | internal/adapters/runner/job_leases.go:198-244 | against a Core that keeps returning the same deadline the lease is lost after at most log2 of the remaining time extend requests, however slow they are |
| `LeaseTiming.FixedDeadlineIsExact` | internal/adapters/runner/job_leases.go:198-244 | against an instant such Core it is exactly that many |
| `LeaseProtocol.StepKeepsConsistent` | internal/adapters/runner/job_leases.go:105-165 | every step of workers, Core or clock keeps: each issued attempt is in one place, and a deadline a worker holds is no later than Core's for that attempt, or has passed |
| `LeaseProtocol.AlwaysConsistent` | internal/adapters/runner/job_leases.go:192-252 | so this holds in every reachable state |
| `LeaseProtocol.CompletionIsUnderTheLease` | internal/adapters/runner/job_leases.go:141-156 | a completion of a checked job only starts before the local deadline, which is no later than Core's unexpired record for the very same attempt |
| `LeaseProtocol.StepKeepsTimely` | internal/adapters/runner/job_leases.go:198-236 | every step keeps the schedule of each renewal loop within its latenesses |
| `LeaseProtocol.AlwaysTimely` | internal/adapters/runner/job_leases.go:198-236 | so this holds in every reachable state |
| `LeaseProtocol.LiveIsTimely` | internal/adapters/runner/job_leases.go:192-252 | an uncancelled job context is never more than two latenesses past the local deadline |
| `LeaseProtocol.StepKeepsHeld` | JOB_LEASE_PROTOCOL.md:29-34 | under a safe timing every step keeps: each run with a context still holds Core's lease for its attempt |
| `LeaseProtocol.AlwaysHeld` | JOB_LEASE_PROTOCOL.md:29-34 | so this holds in every reachable state |
| `LeaseProtocol.OverlapHappens` | internal/adapters/runner/job_leases.go:213-225 | every unsafe timing has an execution in which one job has two uncancelled contexts |
| `LeaseProtocol.ExclusionIffSafe` | JOB_LEASE_PROTOCOL.md:3-6 | no reachable state has two uncancelled contexts for one job, if and only if the timing is safe |
| `LeaseCases.ClockGoesOn` | internal/adapters/runner/job_leases.go:192-252 | in every reachable state a unit of time can pass, or a due step of an active run can be taken; so exclusion does not hold by the clock standing still |
| `LeaseCases.CompletedIff` | internal/adapters/runner/job_leases.go:141-156 | over every execution: a check ends in a completion exactly if it had its slot, its run was not canceled when it stopped, and at the join its lease is neither lost nor over |
| `LeaseCases.CanceledRunCanComplete` | internal/adapters/runner/job_leases.go:141-156 | an execution in which a run is canceled after its check stopped, and is completed |
| `LeaseCases.ProtocolRenewsAsTheLoop` | internal/adapters/runner/job_leases.go:198-244 | round by round, what the renewal steps of the protocol do to a run is what a turn of the loop of LeaseTiming does |
| `LeaseCases.LoopIsAnExecution` | internal/adapters/runner/job_leases.go:198-244 | for any punctual rounds and a Core that never shortens a lease, the protocol has an execution in which a run renews as the loop does: same loss, same instant, same last deadline |
| `LeaseCases.WakeAsksFor` | internal/adapters/runner/job_leases.go:208-223 | in the protocol a request may take as long as was waited before it and no longer than five seconds; without time to wait the lease is lost |
| `LeaseCases.ReceiveKeepsIff` | internal/adapters/runner/job_leases.go:224-236 | in the protocol the end of a request keeps the lease exactly if Core answered a deadline that has not passed, which is then the one held |
| `LeaseCases.RunSurvivesIff` | internal/adapters/runner/job_leases.go:198-236 | rounds played in the protocol leave a run its lease exactly if it survives each of them |
| `LeaseScripts.ExecutionHasWorld` | internal/adapters/runner/job_leases.go:128-154 | every execution in which a run joins decides the slot, the cancellation and the loss its handling sees |
| `LeaseScripts.RunDoesItsScript` | internal/adapters/runner/job_leases.go:128-165 | in every such execution the run goes on to a completion exactly if the script of its handling completes the job, and to a release exactly if the script releases it |
| `ClaimedJobs.MonitoringService.RunClaimedJob` | internal/adapters/runner/job_leases.go:91-165 | the handling of a job adds exactly its script to what was done: counters, gauges, slots and requests, in order |
| `ClaimedJobs.MonitoringService.ExecuteClaimedJob` | internal/adapters/runner/job_leases.go:116-161 | past the start: maintenance, a denied slot, or the check and its end |
| `ClaimedJobs.MonitoringService.CloseClaimedJob` | internal/adapters/runner/job_leases.go:143-161 | a canceled or lost job is released with the reason of the loss first, any other is reported |
| `ClaimedJobs.MonitoringService.CompleteClaimedJob` | internal/adapters/runner/job_leases.go:271-292 | a completion re-checks the key, stamps the payloads, writes to the old endpoints if asked to, and attempts one request, which is sent if it can be built |
| `ClaimedJobs.MonitoringService.ReleaseClaimedJob` | internal/adapters/runner/job_leases.go:306-321 | a release attempts one request, which is sent if it can be built, unless the ID is blank |
| `ClaimedJobs.MonitoringService.PublishExecution` | internal/adapters/runner/executor_registry.go:241-277 | one key for all payloads of an execution, the given one if it is a version 4 UUID, else a generated one |
| `ClaimedJobs.CoreClient.PostCallbackJSON` | internal/adapters/coreapi/client.go:352-392 | the attempt loop sends the same request, under the same key, once or twice, exactly as the two replies and the context allow, and succeeds exactly if the last one was accepted |
| `ClaimedJobs.SetExecutionIdempotencyKey` | internal/adapters/runner/job_leases.go:294-304 | every payload present carries the key |
| `ClaimedJobs.KeysHeld` | internal/adapters/runner/job_leases.go:286-289 | the payload objects handed to the client each hold the key they were stamped with; what is sent of it is the header |
| `ClaimedJobs.ValidIffWellFormed` | internal/adapters/runner/job_leases.go:167-190 | a job has no reason to be invalid exactly if it has all a job needs |
| `ClaimedJobs.LetThroughIff` | internal/adapters/runner/job_leases.go:91-110 | the guards let a job through exactly if it is supported, well formed and unexpired |
| `ClaimedJobs.TurnedAwayAs` | internal/adapters/runner/job_leases.go:93-110 | a job turned away is invalid exactly if it is supported and not well formed, and released otherwise; which phase it is counted under |
| `ClaimedJobs.LetThroughIsValid` | internal/adapters/runner/job_leases.go:92-190 | a job let through is valid, unexpired, and has a version 4 UUID as its key |
| `ClaimedJobs.SettledExactlyOnce` | internal/adapters/runner/job_leases.go:91-165 | a claim ends with exactly one completion attempt or release attempt, and with none only if its ID is blank |
| `ClaimedJobs.EverythingCarriesTheClaim` | internal/adapters/runner/job_leases.go:271-321 | completions, callbacks and retries are sent under the claim's key, which their payload objects hold; completions and releases name its ID and attempt; and results are sent only for jobs neither turned away, canceled nor lost |
| `ClaimedJobs.OneResultFieldIff` | internal/adapters/runner/executor_registry.go:176-239 | exactly when a job's result has one field |
| `ClaimedJobs.CompletedIffReports` | internal/adapters/runner/job_leases.go:91-165 | a claim is completed exactly if it passed its guards and is under maintenance, or got its slot and was neither canceled nor lost |
| `ClaimedJobs.ReleasedIffNotReports` | internal/adapters/runner/job_leases.go:91-165 | and it is released exactly if it has an ID and is not completed |
| `ClaimedJobs.SlotTakenIff` | internal/adapters/runner/job_leases.go:116-141 | a claim takes a slot exactly if it passed its guards, is not under maintenance, and its wait for one was not canceled |
| `ClaimedJobs.MaintenanceTakesNoSlot` | internal/adapters/runner/job_leases.go:116-126 | a job under maintenance that is let through and takes no slot |
| `ClaimedJobs.GeneratorIsNeverAsked` | internal/adapters/runner/executor_registry.go:246-257 | what is done does not depend on the fallback key, and the second key check never fails |
| `Handlings.SupportsIff` | internal/adapters/runner/executor_registry.go:129-174 | the kinds of check each phase has an executor for, by name |
| `Handlings.SupportedIff` | internal/adapters/runner/job_leases.go:92-95 | and so which jobs are supported |
| `Handlings.HandlingDoes` | internal/adapters/runner/job_leases.go:91-165 | exactly which effects a handling has beside its posts, in terms of the job and of what the environment answers: a completion accepted counts running to completed, the event and the status of the check (or maintenance), one refused completion_failed, a job given up released and canceled, a job turned away dropped; which slot, which event, which request with which fields and which reason |
| `Handlings.HandlingIs` | internal/adapters/runner/job_leases.go:91-165 | and in which order: the whole handling from beginning to end |
| `Handlings.ReasonNamesFirstBroken` | internal/adapters/runner/job_leases.go:167-190 | the reason an invalid job is released for names the first rule it breaks |
| `Handlings.PublishedIs` | internal/adapters/runner/executor_registry.go:241-277 | of an execution each of response, certificate and registration that is there is posted to its own endpoint, in that order, under one key: not at all if its request cannot be built, twice if its first try is one to be repeated, else once |
| `Handlings.CallbackIs` | internal/adapters/coreapi/client.go:352-392 | a callback is tried again exactly after a transport error or a status of 500 or more, if the context lasts and the request can be built again; it succeeds exactly if its last request was accepted |
| `Handlings.HandlingPosts` | internal/adapters/runner/job_leases.go:271-292 | the posts of a handling: with dual write on, those of its result under the key of the claim, and otherwise none |
| `Telemetry.Telemetry.StartJob` | internal/application/telemetry.go:92-102 | the gauges after a start, with the clamp at zero |
| `Telemetry.Telemetry.FinishJobWithDuration` | internal/application/telemetry.go:108-122 | the gauges and counters after a finish, with the clamp at zero |
| `Telemetry.Telemetry.DropQueuedJob` | internal/application/telemetry.go:124-134 | the gauges and counters after a drop, with the clamp at zero |
| `Telemetry.Telemetry.RecordJobTransition` | internal/application/telemetry.go:136-146 | one counter for each pair of stages, the empty one counting as received |
| `Telemetry.TransitionKeysDiffer` | internal/application/telemetry.go:136-146 | different pairs of stages never share a counter |
| `Telemetry.CountAfter` | internal/application/telemetry.go:136-146 | an effect moves the counter of a pair exactly if it is that transition |
| `Telemetry.CountersTell` | internal/application/telemetry.go:104-168 | after any list of effects each counter of outcomes, durations, lease events or waits stands higher by the number of its events in the list |
| `Telemetry.GaugesMove` | internal/application/telemetry.go:83-134 | which effects move the two gauges, and by how much |
| `WorkerPool.LedgerHolds` | internal/adapters/runner/runner.go:119-174 | over every interleaving, what was done and what is still ahead add up to what was planned, for every measure |
| `WorkerPool.EveryEffectDoneOnce` | internal/adapters/runner/runner.go:119-174 | after a run every effect was done as often as it was planned |
| `WorkerPool.ClampsNeverFire` | internal/application/telemetry.go:83-134 | a gauge about to be lowered, or a slot about to be given back, is up |
| `WorkerPool.StepKeepsInv` | internal/adapters/runner/runner.go:363-380 | every step keeps the gauges and slots equal to what the work ahead will take down |
| `WorkerPool.GaugesAreExact` | internal/application/telemetry.go:83-134 | in every reachable state the gauges and slots are what was counted up less what was counted down, the slots at most the capacity, and all zero at the end |
| `WorkerPool.SomeStepIsEnabled` | internal/application/execution_controller.go:162-173 | no reachable state short of the end is stuck |
| `WorkerPool.EveryRunEnds` | internal/adapters/runner/runner.go:119-174 | every run is bounded and can only stop when all was sent and every worker has left |
| `WorkerPool.NobodyWaitsForASlot` | internal/application/execution_controller.go:162-173 | with no more workers than slots no worker ever waits for one |
| `WorkerPool.HandledAsOftenAsPlanned` | internal/adapters/runner/job_leases.go:62-83 | an item dispatched once was handled by one worker one time, and nothing else was handled |
| `WorkerPool.InCheckIff` | internal/adapters/runner/job_leases.go:129-142 | within a handling, the check of a job is in progress exactly when its slot is still to be given back |
| `WorkerPool.NoTwoChecksOfOneJob` | internal/adapters/runner/job_leases.go:39-84 | if a run plans at most one check of a job, no two workers ever have it in progress |
| `WorkerPool.StageBalance` | internal/application/telemetry.go:136-146 | what is ahead leaves a stage as often as it enters it, and once more for each job in it |
| `WorkerPool.FlowIsConserved` | internal/application/telemetry.go:136-146 | in every reachable state the flow into a stage exceeds the flow out of it by the jobs in it, and equals it at the end |
| `WorkerPool.RunAccounts` | internal/application/telemetry.go:83-146 | for any run that starts ready, in every reachable state: flows, gauges and slots; and everything settled at the end |
| `WorkerPool.RunExcludes` | internal/adapters/runner/job_leases.go:60-84 | no two workers have the check of one job in progress in any run that starts ready |
| `Limits.Clamp` | internal/config/config.go:86-88 | the value of the range nearest to the one given |
| `Limits.FromEnv` | internal/config/config.go:36-54 | each setting is the number nearest to what the environment says, from 1 to 64 for workers and concurrency and from 1 to 256 for the batch, absent ones falling back on the workers |
| `Limits.WorkerLimit` | internal/adapters/runner/runner.go:382-388 | the largest number of workers the configuration allows |
| `Limits.BatchSize` | internal/adapters/runner/job_leases.go:20 | the largest number of jobs it allows a claim to ask for |
| `Limits.ConfiguredLimits` | internal/config/config.go:40-54 | whatever the environment holds, batch <= workers <= slots, and the claim request meets the client's numeric checks |
| `LeaseRun.TakeInJobs` | internal/adapters/runner/job_leases.go:37-60 | the intake loop keeps the jobs and counts the effects the specification says |
| `LeaseRun.IntakeKeepsEachIDOnce` | internal/adapters/runner/job_leases.go:39-53 | no kept ID repeats, and the kept IDs are exactly the claimed ones |
| `LeaseRun.IntakeIs` | internal/adapters/runner/job_leases.go:37-60 | in terms of the batch alone: kept are the jobs with no ID or an ID no earlier job has, in order; and each job counts as claimed, then as a duplicate, or as a retry from the second attempt on, or as queued at once |
| `LeaseRun.IntakeFlows` | internal/adapters/runner/job_leases.go:39-60 | every claimed or retried job leaves that stage again, and the jobs kept are the ones queued, in the gauge and in the flow |
| `LeaseRun.IntakeStepsAreTheLoop` | internal/adapters/runner/job_leases.go:39-60 | effect by effect, the intake of the run is what the intake loop does |
| `LeaseRun.RestOfClaim` | internal/adapters/runner/job_leases.go:39-165 | what is left for each claimed job at the start is a chain of known transitions from received to a final stage, through intake and handling; nothing is done for any other |
| `LeaseRun.JobScriptFacts` | internal/adapters/runner/job_leases.go:91-165 | every handling starts queued, takes its job off the gauges, brackets at most one check, of its own ID, and is a chain of known transitions to a final stage |
| `LeaseRun.LeaseRunIsReady` | internal/adapters/runner/job_leases.go:18-84 | a lease run starts ready: no job in a stage, the gauges equal to the work ahead, and at most one check planned for an ID however often Core repeated it |
| `LeaseRun.LeaseRunAccounts` | internal/adapters/runner/job_leases.go:37-165 | flow conservation and exact gauges in every reachable state of every lease run, the intake included, and everything settled again at the end |
| `LeaseRun.LeaseRunHandlesEachJobOnce` | internal/adapters/runner/job_leases.go:62-83 | when a lease run returns, each job kept was handled exactly once, and nothing else was |
| `LeaseRun.LeaseRunExcludes` | internal/adapters/runner/job_leases.go:39-84 | no lease run has two checks of one job ID in progress |
| `LeaseRun.LeaseRunNeverWaits` | internal/adapters/runner/job_leases.go:19-27 | with a batch the client accepts, under the configured limits there is a worker for each job, none ever waits for a slot, and the run ends |
| `LeaseRecords.RecordedIffArrived` | JOB_LEASE_PROTOCOL.md:32-34 | a key has a record exactly if a result sent under it arrived |
| `LeaseRecords.EveryRecordIsOfAClaim` | JOB_LEASE_PROTOCOL.md:32-34 | in every reachable state of a run with any number of claims, whatever has arrived of it, every record is a result of a claim that reports one, under its key |
| `LeaseRecords.OneRecordForEachClaim` | JOB_LEASE_PROTOCOL.md:32-34 | however often and in whatever order requests arrive, the keys with a record are keys of claims that report, and there are no more records than such claims |
| `LeaseRecords.ClaimIsRecordedIff` | JOB_LEASE_PROTOCOL.md:32-34 | with a key of its own for each claim, a claim has its record exactly if something of its result arrived, and the record is of that claim |
| `LeaseRecords.UnbuiltLeavesNothing` | internal/adapters/coreapi/client.go:224-238 | a claim whose completion could not be built, and which writes nothing to the old endpoints, has no record whatever arrives |
| `LeaseRecords.ReportedIsSent` | internal/adapters/runner/job_leases.go:141-165 | when the run returns, the completion of every claim that reports was attempted |
| `LeaseRecords.ArrivedIsRecorded` | JOB_LEASE_PROTOCOL.md:32-34 | and if it could be built and arrived, its key has a record |
| `ClaimedJobs.RecordsStay` | JOB_LEASE_PROTOCOL.md:32-34 | a record once made is never changed by anything sent later |
| `LegacyRun.Types` | internal/adapters/runner/executor_registry.go:45-61 | the nested loops collect the list the specification says |
| `LegacyRun.TypesAreThoseSupported` | internal/adapters/runner/executor_registry.go:45-100 | the types asked for are exactly those some executor of the phase supports, each once |
| `LegacyRun.GetMonitorings` | internal/adapters/coreapi/client.go:120-160 | the merge loops return the fetched list, an error for a wrong location or a failed request, and one unfiltered answer when no types are given |
| `LegacyRun.FetchedIDs` | internal/adapters/coreapi/client.go:136-159 | a fetched list has each ID once, and exactly the IDs listed under any of the types |
| `LegacyRun.FetchedItems` | internal/adapters/coreapi/client.go:136-159 | what is fetched are items Core listed, unaltered: of each ID the first one under the first type that lists it |
| `LegacyRun.PhasesHaveTypes` | internal/adapters/runner/executor_registry.go:129-174 | each phase has types to ask for, so none takes the unfiltered answer |
| `LegacyRun.FetchPhase` | internal/adapters/runner/runner.go:103 | what a phase fetches is the list for the types of its executors, with each ID once |
| `LegacyRun.VisitMonitoring` | internal/adapters/runner/runner.go:126-144 | a worker's turn adds exactly its script to what was done, asks the cadence gate in the response phase only, and leaves the gate as that call does |
| `LegacyRun.ExecuteMonitoring` | internal/adapters/runner/runner.go:363-380 | start, slot, check, finish and publication, or a canceled wait for the slot |
| `LegacyRun.VisitFacts` | internal/adapters/runner/runner.go:126-144 | every visit takes its job out of the queue once, leaves the other gauges as they were, and brackets at most one check |
| `Visits.VisitIs` | internal/adapters/runner/runner.go:126-144 | a visit whole and in order: dropped at a closed gate, canceled without a slot, else started, bracketed, finished with the status of the result, and each field of the result posted under a generated key |
| `Visits.VisitPosts` | internal/adapters/runner/executor_registry.go:241-277 | a visit past its gate and with its slot sends exactly the posts of its result, and any other none |
| `Visits.GoesOnIff` | internal/adapters/runner/response_cadence.go:24-40 | a worker goes on with a monitoring at once outside the response phase, and in it exactly if the interval, in seconds, has passed since the last response and since the recorded start |
| `Visits.DispatchedIff` | internal/adapters/runner/runner.go:147-168 | a monitoring reaches a worker exactly if its kind is one the phase checks, it is not under maintenance and, in the response phase, its interval has passed since the last response |
| `Visits.DispatchIs` | internal/adapters/runner/runner.go:147-174 | what the producer does with each: hands it on, publishes unknown for one under maintenance outside the certificate phase, or nothing |
| `Visits.EachPhaseHasItsWorkers` | internal/adapters/runner/runner.go:122-126 | each phase has exactly as many workers as the limit says |
| `LegacyRun.LegacyRunIsReady` | internal/adapters/runner/runner.go:336-347 | different phases over the lists they fetched start ready, with at most one check planned for each monitoring of a phase |
| `LegacyRun.LegacyRunAccounts` | internal/adapters/runner/runner.go:119-174 | exact gauges and slots in every reachable state of the phases side by side, zero after the run |
| `LegacyRun.LegacyRunEnds` | internal/adapters/runner/runner.go:119-174 | every such run ends, and is never stuck before |
| `LegacyRun.LegacyRunExcludes` | internal/adapters/runner/runner.go:119-174 | over fetched lists, no phase has two checks of one monitoring in progress |
| `LegacyRun.LegacyRunHandlesEachOnce` | internal/adapters/runner/runner.go:145-174 | each monitoring a phase dispatched was handled exactly once, and nothing else was |
| `ExecutionController.ExecutionController.Enter` | internal/application/execution_controller.go:52-73 | a call goes on exactly if no drain has begun and no run holds the lock; then the flag is up and a new channel is current, else the summary says skipped |
| `ExecutionController.ExecutionController.Leave` | internal/application/execution_controller.go:74-79 | the flag goes down and the current channel, open until then, is closed |
| `ExecutionController.ExecutionController.RunMonitoring` | internal/application/execution_controller.go:52-98 | a whole call, skipped if a drain has begun or another run holds the lock, keeps the object valid and leaves the summary and the state it should, also when a drain begins meanwhile |
| `ExecutionController.ExecutionController.BeginDrain` | internal/application/execution_controller.go:115-119 | only the drain flag changes |
| `ExecutionController.StepKeepsLocks` | internal/application/execution_controller.go:52-79 | in every step each thread holds just the locks its place in the code says |
| `ExecutionController.StepKeepsChannels` | internal/application/execution_controller.go:67-79 | every step keeps the flag, the current channel and the closed channels as the holder of the run lock left them, and closes none twice |
| `ExecutionController.StepKeepsDrain` | internal/application/execution_controller.go:115-143 | every step keeps what a drain has settled for each thread |
| `ExecutionController.AlwaysConsistent` | internal/application/execution_controller.go:67-79 | whenever nobody is inside the state lock, the current channel is closed exactly when no run is active; and no channel is ever closed twice |
| `ExecutionController.RunsExclude` | internal/application/execution_controller.go:60-64 | two runs are never in progress together |
| `ExecutionController.QuietForGoodIffStopped` | internal/application/execution_controller.go:52-143 | in every reachable state, no run is active then or ever after if and only if the drain flag is up, or is being put up, and no call is committed to a run |
| `ExecutionController.IdleIsFinalIffDraining` | internal/application/execution_controller.go:133-143 | when the current channel is closed and nobody is inside the state lock, that is final if and only if the drain flag is up |
| `ExecutionController.DrainIsFinal` | cmd/webguard-instance/main.go:78-88 | once a wait called behind a finished BeginDrain says idle, no run is active then or in any continuation |
| `ExecutionController.NoRunStartsInDrain` | internal/application/execution_controller.go:52-70 | once the drain flag is up no call gets as far as its run any more |
| `ExecutionController.UndisturbedCallRuns` | internal/application/execution_controller.go:52-73 | a call alone gets to its run, having done to the shared state what Enter does |
| `ExecutionController.UndisturbedRunEnds` | internal/application/execution_controller.go:74-79 | a run alone ends, having done what Leave does |
| `ExecutionController.WaitWithoutDrainIsNotFinal` | internal/application/execution_controller.go:133-143 | without the drain there is an execution in which a wait says idle and a run begins after it |
| `ExecutionController.SomeCallCanMove` | internal/application/execution_controller.go:52-143 | as long as some call has not returned, some thread can take its next step without any wait having to time out: no deadlock and no lost wake-up |
| `ExecutionController.CallsEnd` | internal/application/execution_controller.go:52-143 | without new calls every execution is bounded |
| `InstanceProcess.ControlFollowsController` | internal/application/execution_controller.go:86 | with runs doing their work, the threads of the controller only do what they do without them |
| `InstanceProcess.OnePool` | internal/application/execution_controller.go:60-86 | at most one run has a worker pool at any time, and none begins beside it |
| `InstanceProcess.NoJobIsCheckedTwiceAtOnce` | internal/adapters/runner/job_leases.go:39-84 | within one process, over all runs, leased or fetched, and all interleavings, no job's check is in progress twice at once |
| `InstanceProcess.TelemetryStaysExact` | internal/application/telemetry.go:83-146 | between any two runs of a process the gauges are zero and all flows balanced; at every moment of a run flows, gauges and slots are what the accounts say |
| `InstanceProcess.DrainEndsAllWork` | cmd/webguard-instance/main.go:78-88 | once the wait behind a drain has said idle, no pool is at work in any continuation |
| `InstanceProcess.RunsInProgressCanEnd` | internal/application/execution_controller.go:86 | a run in progress is never stuck before its end |
| `InstanceProcess.RunIsBounded` | internal/application/execution_controller.go:86 | from its beginning to its end the pool of a run takes no more steps than the work it started with, whatever other threads do meanwhile |
| `ResponseCadence.ResponseCadence.TryStart` | internal/adapters/runner/response_cadence.go:24-40 | the gate opens exactly if the interval, the configured one from 60 seconds on and else 300, has passed both since the last response and since the recorded start, which becomes this one |
| `ResponseCadence.AuxiliarySchedule.AllowAuxiliaryPhase` | internal/adapters/runner/runner.go:390-403 | the same gate with 300 seconds and no last response |
| `ResponseCadence.StartsIff` | internal/adapters/runner/response_cadence.go:24-56 | what the specification of a call says, in seconds and on the key id:location |
| `ResponseCadence.RecordedStartGrows` | internal/adapters/runner/response_cadence.go:24-40 | the recorded start never falls behind an accepted one, in whatever order the clock is read |
| `ResponseCadence.AcceptedStartsAreSpaced` | internal/adapters/runner/response_cadence.go:24-40 | over every sequence of calls each accepted start is at least its own interval after every earlier one of its key |
| `ResponseCadence.AtMostOnePerInterval` | internal/adapters/runner/response_cadence.go:24-56 | a constant interval lets at most width / interval + 1 starts into any window |
| `ResponseCadence.KeysDoNotInterfere` | internal/adapters/runner/response_cadence.go:33-38 | what is recorded for a key is what its own calls alone would have left |
| `ResponseCadence.OneLocationSeparatesMonitorings` | internal/adapters/runner/response_cadence.go:29 | at one location different monitorings have different keys |
| `ResponseCadence.TwoLocationsCanCollide` | internal/adapters/runner/response_cadence.go:29 | across locations they need not |
| `ResponseCadence.RefusedPollsAreEarly` | internal/adapters/runner/runner.go:158-161 | polls are only refused before start + interval + delay |
| `ResponseCadence.NextStartIsSoon` | internal/adapters/runner/response_cadence.go:24-56 | the next start comes at least an interval after the last and before start + interval + delay + period |
| `HttpCheck.HttpTargetVariants` | internal/adapters/runner/runner.go:710-757 | the variants, at most four, pairwise different as text, the target itself first |
| `HttpCheck.VariantsDiffer` | internal/adapters/runner/runner.go:710-757 | variants that differ in hostname or path never read the same |
| `HttpCheck.AlternateIs` | internal/adapters/runner/runner.go:748-757 | there is an alternate hostname exactly if the name is no address and has a dot before its last character; it is the name without its "www.", in whichever case, or else with "www." in front |
| `HttpCheck.VariantsAre` | internal/adapters/runner/runner.go:710-746 | the variants in order: hostname and alternate under the path, then under "/" for an empty path or the empty one for "/" |
| `HttpCheck.TryVariant` | internal/adapters/runner/runner.go:632-655 | at most two attempts at a variant, the second only after a transport error, ended by the context |
| `HttpCheck.PerformHTTPRequest` | internal/adapters/runner/runner.go:625-662 | the first 2xx or 3xx response in variant order, else the first response, else the last error; or the context's end, and exactly the attempts that takes |
| `HttpCheck.SearchedAll` | internal/adapters/runner/runner.go:658-662 | the local variables after the last variant hold the answer |
| `HttpCheck.UninterruptedOutcome` | internal/adapters/runner/runner.go:625-662 | without cancellation there is an error exactly if no variant answered, and a success exactly if one succeeded |
| `HttpCheck.StopsAt` | internal/adapters/runner/runner.go:632-655 | when the search goes on past every variant before the k-th and not past that one, the outcome is the end of the context or the answer of that variant, exactly as its two attempts and the pause say |
| `HttpCheck.StopsNowhere` | internal/adapters/runner/runner.go:625-662 | when it goes on past all, the outcome is the first answer given, and without any the error of the last attempt |
| `HttpCheck.AttemptedIff` | internal/adapters/runner/runner.go:632-655 | a first attempt is made at each variant reached, and a second one exactly after a transport error whose pause was not cut short |
| `HttpCheck.RetriesFollowErrors` | internal/adapters/runner/runner.go:632-655 | every second attempt follows the transport error of the first one at the same URL, so there are at most two for each |
| `DomainLookup.LookupCandidates` | internal/adapters/domainlookup/domainlookup.go:456-467 | the loop builds the list the specification says |
| `DomainLookup.CandidatesAreSuffixes` | internal/adapters/domainlookup/domainlookup.go:456-467 | the candidates are exactly the suffixes of at least two labels, or the name itself, valid and strictly shrinking |
| `DomainLookup.JoinSplit` | internal/adapters/domainlookup/domainlookup.go:457-464 | joining the labels of a name gives the name back |
| `DomainLookup.SplitJoin` | internal/adapters/domainlookup/domainlookup.go:457-464 | and splitting labels joined gives the labels back |
| `DomainLookup.ValidNameIff` | internal/adapters/domainlookup/domainlookup.go:150-170 | which names are valid; the bound on the number of labels follows from that on the length |
| `DomainLookup.NormalizedTargetIs` | internal/adapters/domainlookup/domainlookup.go:146-148 | the name looked up is the target without white space and then dots around it, in lower case |
| `DomainLookup.CandidateDecision` | internal/adapters/domainlookup/domainlookup.go:105-144 | exactly when a candidate is registered, unregistered or failed; a positive RDAP answer is never downgraded and only temporary failures get out |
| `DomainLookup.CandidateRecord` | internal/adapters/domainlookup/domainlookup.go:105-144 | the record that comes back, from the two answers alone: RDAP's when it denies the name or dates it, else WHOIS's with RDAP's registrar for want of its own, else RDAP's, else the empty one |
| `DomainLookup.Lookup` | internal/adapters/domainlookup/domainlookup.go:73-103 | a target that is no domain name is unregistered; else the first registered candidate, whatever failed before it; else a temporary failure; else unregistered |
| `DomainLookup.LongestRegisteredSuffix` | internal/adapters/domainlookup/domainlookup.go:73-103 | that is the longest registered suffix, with the expiry the two directories give for it, and a failure means exactly that none is registered and some lookup failed; all said of the answers of the directories |
| `DomainLookup.VerdictOfLookup` | internal/adapters/runner/runner.go:815-852 | with this lookup, and said of the answers of the two directories alone, the verdict is unknown exactly in that case, up exactly if the target is a domain name whose longest registered suffix runs for more than thirty days, and down otherwise; the branch for other errors is never taken |
| `DnsChecks.NormalizeDNSRecordValues` | internal/adapters/runner/dns_record_checker.go:199-217 | the strictly increasing list of the set of normalised values, or none exactly if a value is invalid |
| `DnsChecks.IncreasingIsUnique` | internal/adapters/runner/dns_record_checker.go:199-217 | a set has one such list |
| `DnsChecks.SortOrders` | internal/adapters/runner/dns_record_checker.go:215 | sorting different values gives them in strictly increasing order |
| `DnsChecks.LessIff` | internal/adapters/runner/dns_record_checker.go:215 | the order is that of the first character in which two strings differ, a prefix coming first |
| `DnsChecks.Observe` | internal/adapters/runner/dns_record_checker.go:48-106 | up exactly if the check is configured, every value of both lists is acceptable for its type, and each value of either list says the same as some value of the other; else which of the four errors, or a mismatch; and which lists are reported |
| `DnsRecords.AcceptedIff` | internal/adapters/runner/dns_record_checker.go:219-294 | exactly which values of each type are accepted, and how each is printed: the right parser's address, the host in lower case without its final dot, the numbers without zeros in front, the tag in lower case, the text unquoted |
| `DnsRecords.AlikeIff` | internal/adapters/runner/dns_record_checker.go:219-294 | when two accepted values are printed alike: hosts equal up to case and one final dot, numbers equal, tags equal up to case, texts equal, addresses equal |
| `DnsRecords.SameHostIff` | internal/adapters/runner/dns_record_checker.go:296-298 | two host fields normalise alike exactly if they are equal up to letter case and one final dot |
| `DnsRecords.TextIff` | internal/adapters/runner/dns_record_checker.go:300-306 | the text a value holds: what the unquoter makes of it, or what is left without the quotes around it |
| `DnsRecords.FieldsSplit` | internal/adapters/runner/dns_record_checker.go:241-275 | a value falls into fields at every white space |
| `DnsRecords.LeadingDigit` | internal/adapters/runner/dns_record_checker.go:241-275 | the value of a numeral, digit by digit from the front |
| `DnsRecords.FieldsOfSpaced` | internal/adapters/runner/dns_record_checker.go:241-275 | words printed with single spaces are read back as the same words |
| `DnsRecords.ParseFormat` | internal/adapters/runner/dns_record_checker.go:241-275 | a number printed in decimal is read back |
| `DnsRecords.HostAgain` | internal/adapters/runner/dns_record_checker.go:296-298 | normalising a host field again changes it exactly if it ended in two dots |
| `DnsRecords.MXRoundTrip` | internal/adapters/runner/dns_record_checker.go:241-254 | an accepted MX value normalises to a fixed point if and only if its host field does not end in two dots |
| `DnsRecords.TwoDotsAreNotStable` | internal/adapters/runner/dns_record_checker.go:241-254 | values for which it does not |
| `DnsRecords.SOARoundTrip` | internal/adapters/runner/dns_record_checker.go:257-275 | the same for SOA and its two host fields |
| `DnsRecords.TwoDotsAreNotStableInSOA` | internal/adapters/runner/dns_record_checker.go:257-275 | values for which it does not |
| `Idempotency.NewIdempotencyKey` | internal/adapters/runner/idempotency.go:10-26 | the key printed from sixteen random bytes with the six version and variant bits forced in place; none if there are no random bytes |
| `Idempotency.DecodeEncode` | internal/adapters/runner/idempotency.go:18-25 | decoding the hexadecimal form of bytes gives the bytes back |
| `Idempotency.DecodeHexIff` | internal/adapters/runner/idempotency.go:40-41 | decoding succeeds exactly on an even number of digits |
| `Idempotency.PairDecodes` | internal/adapters/runner/idempotency.go:40-41 | two digits decode to a byte, the first one counting sixteen times |
| `Idempotency.KeyRoundTrip` | internal/adapters/runner/idempotency.go:10-42 | every generated key is accepted and decodes to the random bytes with only the forced bits changed |
| `Idempotency.ForcedIs` | internal/adapters/runner/idempotency.go:16-17 | the four version bits are 0100, the two variant bits 10, and all others are the random ones |
| `Idempotency.KeyIsInGroups` | internal/adapters/runner/idempotency.go:19-25 | a key is printed in lower-case digits, in groups of 8, 4, 4, 4 and 12 |
| `Idempotency.KeysEqualIff` | internal/adapters/runner/idempotency.go:10-26 | two keys are equal exactly when the other 122 bits agree |
| `Idempotency.AcceptedIff` | internal/adapters/runner/idempotency.go:28-42 | exactly which strings are accepted |
| `Idempotency.WellFormedIff` | internal/adapters/runner/idempotency.go:28-42 | an accepted string is a UUID in the form of section 4 of RFC 9562 if and only if it has no other dash |
| `Idempotency.ExtraDashesAreAccepted` | internal/adapters/runner/idempotency.go:28-42 | strings with two more dashes that are accepted |

## Left out

- Network and process input and output: transports, TLS, dialing, WHOIS sockets, the DNS library and the ping command are answers given as inputs.
- The egress policy of `internal/adapters/target`, health handlers, metrics rendering, logging, configuration sources and the command switch.
- JSON decoding and the field parsers of `internal/domain/monitor/types.go`; regular expressions, date layouts and WHOIS text parsing. Address parsing and unquoting of TXT values are opaque functions, so nothing is claimed about normalising A, AAAA, TXT or CAA values twice, and what those values say is stated in terms of the answers of these functions.
- Integer widths: times, durations and counters are unbounded, so overflow of intervals, saturation of time differences and wrap-around of counters are not modelled. Nor are the sums of durations beside the counts.
- Letter case outside A to Z in names.
- Executors other than the ones that carry a property of their own; a check is an execution with some combination of results. A panic in an executor is not modelled.
- `ClaimedJobs.MonitoringService.RunClaimedJob`: the renewal goroutine's own lease events (extended, renewal_failed and its expired) are not in the script, because they belong to no point of it; its timing is in `LeaseTiming` and `LeaseProtocol`. One handling alone only notes that it takes and returns a slot; the limiter they share is in `WorkerPool`.
- `Telemetry.Telemetry.FinishJobWithDuration`: counts the finished jobs of a phase and does not add up their durations.
- `LeaseProtocol.ExclusionIffSafe`: a job under maintenance has no job context, so the maintenance path is not part of the timed system.
- `LeaseProtocol.CompletionIsUnderTheLease`: for the same reason says nothing of a job under maintenance, which is completed after one look at its expiry (`job_leases.go:105-126`).
- `WorkerPool.EveryRunEnds`: scripts are finite, so executors are taken to return; a wait for a slot ended by the context is a script of its own and not a choice made while waiting.
- `LegacyRun.LegacyRunAccounts`: a phase whose gate or fetch failed, or whose list was empty, starts no workers and is simply not among the runs. Whether the cadence gate opens is part of the visit there; `LegacyRun.VisitMonitoring` ties it to the gate.
- `LegacyRun.GetMonitorings`: the answer for a type is a function of the type, as each type is asked for once.
- `DnsChecks.SortOrders`: the library's in-place sort is modelled as a function; only its result matters here.
- `ExecutionController.CallsEnd`: that waiting writers keep new readers out is not modelled, and a call of the runner is one step in `ExecutionController`, a whole pool in `InstanceProcess`.
- A call of the runner without a controller, where there is no limiter to take slots from.
